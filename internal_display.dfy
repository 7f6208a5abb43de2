/** The oldest display (internal/display/display.go). It talks to the
    SSD1306 over I²C directly, has no `initialized` gate, can load its line
    buffer from a text file, and checks single-line writes with `>` where
    the later versions use `>=`. The answers of the host, bus, device and
    file system are parameters and what the display asks of them is
    recorded in the ghost log `effects`. */
module InternalDisplay {
  import opened GoTypes
  import opened Geometry
  import opened Outcomes
  import opened LineBuffer
  import BufferFile
  import opened Render

  /** What `os.ReadFile` gives back. */
  datatype FileRead = Contents(data: string) | Missing | Unreadable(cause: string)

  /** Requests the display makes of the host, bus, device and file system. */
  datatype Effect =
    | HostInit                    // host.Init()
    | ReadBufferFile(path: string) // os.ReadFile(bufferFile)
    | BusOpen(bus: string)        // i2creg.Open(busName)
    | DeviceInit                  // ssd1306.NewI2C(bus, &DefaultOpts)
    | DeviceBounds                // dev.Bounds()
    | DeviceDraw(r: Rectangle, frame: Frame, sp: Point)
    | BusClose                    // bus.Close()

  /** `PrintLine` as written: only `int(line) > len(buffer)` is rejected, so
      `line == len(buffer)` passes the check and the write indexes past the end. */
  function SetLineAsWritten(buf: seq<string>, line: Uint, text: string): (s: Step)
    requires |buf| <= MaxInt
    ensures line < |buf| ==> s == Step(Ok, buf[line := text])
    ensures line == |buf| ==> s == Step(Panic(IndexOutOfRange), buf)
    ensures |buf| < line <= MaxInt ==> s == Step(Fail(LineOutOfRange(line, |buf|)), buf)
    ensures line > MaxInt ==> s == Step(Panic(IndexOutOfRange), buf)
  {
    if Int(line) > |buf| then Step(Fail(LineOutOfRange(line, |buf|)), buf)
    else if line < |buf| then Step(Ok, buf[line := text])
    else Step(Panic(IndexOutOfRange), buf)
  }

  /** The off-by-one: on a full-size buffer, writing line `len(buffer)` panics
      here, where the checked version used by the later displays reports
      the out-of-range error and leaves the buffer alone. */
  lemma SetLineAtLengthPanics(text: string)
    ensures SetLineAsWritten(Blank(5), 5, text) == Step(Panic(IndexOutOfRange), Blank(5))
    ensures SetLine(Blank(5), 5, text) == Step(Fail(LineOutOfRange(5, 5)), Blank(5))
  {
  }

  /** The two checks agree on every line except `len(buffer)`. */
  lemma SetLineAsWrittenAgrees(buf: seq<string>, line: Uint, text: string)
    requires |buf| <= MaxInt
    requires line != |buf|
    ensures SetLineAsWritten(buf, line, text) == SetLine(buf, line, text)
  {
  }

  /** `PrintLines`: the capacity check uses the buffer's own length. */
  function SetRunInternal(buf: seq<string>, line: Uint, texts: seq<string>): (s: Step)
    requires |buf| <= MaxInt
    ensures |s.buffer| == |buf|
    ensures s.outcome.Fail? <==> Wrap(Int(line) + |texts|) > |buf|
    ensures s.outcome.Fail? ==> s.outcome.error == WouldOverflow && s.buffer == buf
    ensures !s.outcome.Fail? ==> s == WriteRun(buf, Int(line), texts)
  {
    if Wrap(Int(line) + |texts|) > |buf| then Step(Fail(WouldOverflow), buf)
    else WriteRun(buf, Int(line), texts)
  }

  /** Without int overflow, `PrintLines` fails exactly when the run does not
      fit, before writing anything, and otherwise writes the whole run and
      nothing else; it never panics. */
  lemma SetRunInternalAllOrNothing(buf: seq<string>, line: Uint, texts: seq<string>)
    requires |buf| <= MaxInt
    requires line + |texts| <= MaxInt
    ensures var s := SetRunInternal(buf, line, texts);
      && (s.outcome.Ok? <==> line + |texts| <= |buf|)
      && (s.outcome.Ok? ==> s.buffer == Overwrite(buf, line, texts))
      && (!s.outcome.Ok? ==> s.outcome == Fail(WouldOverflow) && s.buffer == buf)
  {
    WrapInRange(line + |texts|);
    assert Int(line) == line;
    if |texts| == 0 && line <= |buf| {
      assert buf[..line] + [] + buf[line..] == buf;
    }
  }

  /** The internal `PrintLines` loop, stopped after `i` iterations, has had
      exactly the effect `SetRunInternal` describes. */
  lemma SetRunInternalEnds(buf: seq<string>, line: Uint, text: seq<string>, i: nat, r: seq<string>)
    requires |buf| <= MaxInt
    requires !SetRunInternal(buf, line, text).outcome.Fail?
    requires i <= WrittenCount(Int(line), |text|, |buf|)
    requires i == |text| || Int(line) + i < 0 || Int(line) + i >= |buf|
    requires Partial(buf, Int(line), text, i, r)
    ensures SetRunInternal(buf, line, text) == Step(if i == |text| then Ok else Panic(IndexOutOfRange), r)
  {
    var w := WriteRun(buf, Int(line), text);
    Written(buf, Int(line), text, i, r);
    assert w.outcome == if i == |text| then Ok else Panic(IndexOutOfRange);
  }

  class Display {
    var busName: string
    var busOpen: bool              // bus != nil
    var dev: Option<Rectangle>     // the ssd1306 device, by the bounds it reports; None while nil
    const lines: Uint := 5
    var bufferFile: string
    var buffer: seq<string>
    var font: Face
    var lineHeight: int
    ghost var effects: seq<Effect>

    ghost predicate Valid()
      reads this
    {
      |buffer| <= MaxInt
    }

    /** `NewDisplay`: bus /dev/i2c-1, five lines, the 7x13 face. */
    constructor ()
      ensures Valid()
      ensures busName == "/dev/i2c-1" && bufferFile == "" && buffer == []
      ensures font == Face7x13 && lineHeight == Face7x13.height
      ensures !busOpen && dev == None && effects == []
    {
      busName := "/dev/i2c-1";
      busOpen := false;
      dev := None;
      bufferFile := "";
      buffer := [];
      font := Face7x13;
      lineHeight := Face7x13.height;
      effects := [];
    }

    method WithBus(name: string) returns (d: Display)
      requires Valid()
      modifies this`busName
      ensures Valid() && d == this && busName == name
    {
      busName := name;
      d := this;
    }

    method WithBufferFile(path: string) returns (d: Display)
      requires Valid()
      modifies this`bufferFile
      ensures Valid() && d == this && bufferFile == path
    {
      bufferFile := path;
      d := this;
    }

    method Close(closeErr: Option<string>) returns (outcome: Outcome)
      requires Valid()
      modifies this`effects
      ensures Valid()
      ensures !busOpen ==> outcome == Panic(NilDereference) && effects == old(effects)
      ensures busOpen ==> outcome == FromCause(closeErr) && effects == old(effects) + [BusClose]
    {
      if !busOpen {
        return Panic(NilDereference);
      }
      effects := effects + [BusClose];
      outcome := FromCause(closeErr);
    }

    /** Empties every line, keeping the number of lines; there is no guard. */
    method Clear()
      requires Valid()
      modifies this`buffer
      ensures Valid()
      ensures buffer == Blank(|old(buffer)|)
    {
      var i := 0;
      while i < |buffer|
        invariant 0 <= i <= |buffer| == |old(buffer)|
        invariant forall j | 0 <= j < i :: buffer[j] == ""
      {
        buffer := buffer[i := ""];
        i := i + 1;
      }
    }

    /** Sets one line; see `SetLineAsWritten` for its effect. */
    method PrintLine(line: Uint, text: string) returns (outcome: Outcome)
      requires Valid()
      modifies this`buffer
      ensures Valid()
      ensures Step(outcome, buffer) == SetLineAsWritten(old(buffer), line, text)
    {
      if Int(line) > |buffer| {
        return Fail(LineOutOfRange(line, |buffer|));
      }
      if line >= |buffer| {
        return Panic(IndexOutOfRange);
      }
      buffer := buffer[line := text];
      outcome := Ok;
    }

    /** Sets a run of lines after checking, before any write, that the run
        fits in the buffer; see `SetRunInternal`. */
    method PrintLines(line: Uint, text: seq<string>) returns (outcome: Outcome)
      requires Valid()
      modifies this`buffer
      ensures Valid()
      ensures Step(outcome, buffer) == SetRunInternal(old(buffer), line, text)
    {
      if Wrap(Int(line) + |text|) > |buffer| {
        return Fail(WouldOverflow);
      }
      var start := Int(line);
      ghost var k := WrittenCount(start, |text|, |buffer|);
      var i := 0;
      while i < |text|
        invariant 0 <= i <= k
        invariant Partial(old(buffer), start, text, i, buffer)
      {
        LoopIndex(start, |text|, |buffer|, i);
        var index := Wrap(start + i);
        if index < 0 || index >= |buffer| {
          SetRunInternalEnds(old(buffer), line, text, i, buffer);
          return Panic(IndexOutOfRange);
        }
        PartialStep(old(buffer), start, text, i, buffer);
        buffer := buffer[index := text[i]];
        i := i + 1;
      }
      SetRunInternalEnds(old(buffer), line, text, i, buffer);
      outcome := Ok;
    }

    /** Loads the buffer from `bufferFile`: a missing file is not an error and
        changes nothing; an existing one replaces the buffer by its lines,
        cut to the buffer's current length. */
    method UpdateFromFile(file: FileRead) returns (outcome: Outcome)
      requires Valid()
      modifies this`buffer, this`effects
      ensures Valid()
      ensures bufferFile == "" ==>
        outcome == Fail(BufferFileUndefined) && buffer == old(buffer) && effects == old(effects)
      ensures bufferFile != "" ==>
        && effects == old(effects) + [ReadBufferFile(bufferFile)]
        && (file.Contents? ==> outcome == Ok && buffer == BufferFile.Load(file.data, |old(buffer)|))
        && (file.Missing? ==> outcome == Ok && buffer == old(buffer))
        && (file.Unreadable? ==> outcome == Fail(Passed(file.cause)) && buffer == old(buffer))
    {
      if bufferFile == "" {
        return Fail(BufferFileUndefined);
      }
      effects := effects + [ReadBufferFile(bufferFile)];
      match file
      case Contents(data) =>
        var split := BufferFile.Split(data);
        if |split| > |buffer| {
          split := split[0..|buffer|];
        }
        buffer := split;
        outcome := Ok;
      case Missing =>
        outcome := Ok;
      case Unreadable(cause) =>
        outcome := Fail(Passed(cause));
    }

    /** Initialises the host, allocates `lines` empty entries, loads the
        buffer file when one is configured, then opens the bus and the
        device. Each step's failure ends `Init` with what was done so far. */
    method Init(hostErr: Option<string>, file: FileRead, busErr: Option<string>,
                devErr: Option<string>, deviceBounds: Rectangle) returns (outcome: Outcome)
      requires Valid()
      modifies this`buffer, this`busOpen, this`dev, this`effects
      ensures Valid()
      ensures hostErr.Some? ==>
        && outcome == Fail(HostInitFailed(hostErr.value))
        && effects == old(effects) + [HostInit]
        && buffer == old(buffer) && busOpen == old(busOpen) && dev == old(dev)
      ensures hostErr.None? ==>
        var fileReads := if bufferFile == "" then [] else [ReadBufferFile(bufferFile)];
        var loaded :=
          if bufferFile != "" && file.Contents? then BufferFile.Load(file.data, lines) else Blank(lines);
        var loadFailed := bufferFile != "" && file.Unreadable?;
        && buffer == loaded
        && (loadFailed ==>
              && outcome == Fail(BufferFileFailed(Passed(file.cause)))
              && effects == old(effects) + [HostInit] + fileReads
              && busOpen == old(busOpen) && dev == old(dev))
        && (!loadFailed && busErr.Some? ==>
              && outcome == Fail(BusOpenFailed(busName, busErr.value))
              && effects == old(effects) + [HostInit] + fileReads + [BusOpen(busName)]
              && busOpen == old(busOpen) && dev == old(dev))
        && (!loadFailed && busErr.None? ==>
              && busOpen
              && effects == old(effects) + [HostInit] + fileReads + [BusOpen(busName), DeviceInit]
              && (devErr.Some? ==> outcome == Fail(Ssd1306InitFailed(devErr.value)) && dev == old(dev))
              && (devErr.None? ==> outcome == Ok && dev == Some(deviceBounds)))
    {
      effects := effects + [HostInit];
      if hostErr.Some? {
        return Fail(HostInitFailed(hostErr.value));
      }
      buffer := Blank(lines);
      if bufferFile != "" {
        var loaded := UpdateFromFile(file);
        if loaded.Fail? {
          return Fail(BufferFileFailed(loaded.error));
        }
      }
      effects := effects + [BusOpen(busName)];
      if busErr.Some? {
        return Fail(BusOpenFailed(busName, busErr.value));
      }
      busOpen := true;
      effects := effects + [DeviceInit];
      if devErr.Some? {
        return Fail(Ssd1306InitFailed(devErr.value));
      }
      dev := Some(deviceBounds);
      outcome := Ok;
    }

    /** Draws line i at x = 0 on baseline lineHeight*(1+i) - Descent and
        draws once over the device's full bounds. There is no guard: before
        the device exists it dereferences nil. */
    method Update(drawErr: Option<string>) returns (outcome: Outcome)
      requires Valid()
      modifies this`effects
      ensures Valid()
      ensures dev.None? ==> outcome == Panic(NilDereference) && effects == old(effects)
      ensures dev.Some? ==>
        var b := dev.value;
        && effects == old(effects) + [DeviceBounds, DeviceBounds,
                                      DeviceDraw(b, Canvas(b, Layout(buffer, lineHeight, font.descent)), Origin)]
        && (outcome.Ok? <==> drawErr.None?)
        && (drawErr.Some? ==> outcome == Fail(DrawFailed(drawErr.value)))
    {
      if dev.None? {
        return Panic(NilDereference);
      }
      var b := dev.value;
      effects := effects + [DeviceBounds];
      var strokes: seq<Stroke> := [];
      var i := 0;
      while i < |buffer|
        invariant 0 <= i <= |buffer|
        invariant strokes == Layout(buffer[..i], lineHeight, font.descent)
        invariant effects == old(effects) + [DeviceBounds]
      {
        LayoutExtend(buffer, i, lineHeight, font.descent);
        strokes := strokes + [Stroke(Point(0, lineHeight * (1 + i) - font.descent), buffer[i])];
        i := i + 1;
      }
      assert buffer[..i] == buffer;
      effects := effects + [DeviceBounds, DeviceDraw(b, Canvas(b, strokes), Origin)];
      if drawErr.Some? {
        return Fail(DrawFailed(drawErr.value));
      }
      outcome := Ok;
    }
  }
}
