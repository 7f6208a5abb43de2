/** The first builder-configured display (display/display.go). It has the
    same configuration, lifecycle and line operations as the current one,
    but draws each line on baseline lineHeight*(1+i), without the descent,
    and has no image or screen-clearing operations. Driver answers are
    parameters and driver calls go to the ghost log `calls`. */
module DisplayV1 {
  import opened GoTypes
  import opened Geometry
  import opened Outcomes
  import opened LineBuffer
  import opened Render

  const DefaultMaxLines: Uint := 5

  predicate HasText(buffer: seq<string>) {
    exists i | 0 <= i < |buffer| :: buffer[i] != ""
  }

  class Display {
    var busName: string
    var driver: Option<Driver>
    var lines: Uint
    var buffer: seq<string>
    var font: Option<Face>
    var lineHeight: int
    var initialized: bool
    ghost var calls: seq<DriverCall>

    ghost predicate Valid()
      reads this
    {
      |buffer| <= MaxInt
    }

    /** `NewDisplay`. */
    constructor ()
      ensures Valid()
      ensures lines == DefaultMaxLines && !initialized
      ensures busName == "" && driver == None && buffer == [] && font == None && lineHeight == 0
      ensures calls == []
    {
      busName := "";
      driver := None;
      lines := DefaultMaxLines;
      buffer := [];
      font := None;
      lineHeight := 0;
      initialized := false;
      calls := [];
    }

    method WithLines(n: Uint) returns (d: Display)
      requires Valid()
      modifies this`lines
      ensures Valid() && d == this && lines == n
    {
      lines := n;
      d := this;
    }

    method WithBusName(name: string) returns (d: Display)
      requires Valid()
      modifies this`busName
      ensures Valid() && d == this && busName == name
    {
      busName := name;
      d := this;
    }

    /** Stores the driver as given; a nil driver (None) makes `Init` create the
        hardware driver, and one stored after `Init` is dereferenced later. */
    method WithDriver(drv: Option<Driver>) returns (d: Display)
      requires Valid()
      modifies this`driver
      ensures Valid() && d == this && driver == drv
    {
      driver := drv;
      d := this;
    }

    method WithFont(f: Face) returns (d: Display)
      requires Valid()
      modifies this`font, this`lineHeight
      ensures Valid() && d == this && font == Some(f) && lineHeight == f.height
    {
      font := Some(f);
      lineHeight := f.height;
      d := this;
    }

    /** Installs the default face and its line height only when no face was set. */
    method Build() returns (d: Display, err: Option<Error>)
      requires Valid()
      modifies this`font, this`lineHeight
      ensures Valid() && d == this && err == None
      ensures old(font).None? ==> font == Some(Face7x13) && lineHeight == Face7x13.height
      ensures old(font).Some? ==> font == old(font) && lineHeight == old(lineHeight)
    {
      if font.None? {
        var f := Face7x13;
        var h := f.height;
        font := Some(f);
        lineHeight := h;
      }
      d := this;
      err := None;
    }

    /** Allocates an empty buffer of `lines` entries, creates the hardware
        driver when none was supplied, and opens it; `initialized` is set
        only after `Open` succeeds. */
    method Init(openErr: Option<string>, hardwareBounds: Rectangle) returns (outcome: Outcome)
      requires Valid()
      modifies this`buffer, this`driver, this`initialized, this`calls
      ensures Valid()
      ensures old(lines) > MaxInt ==>
        outcome == Panic(SliceTooLarge) && buffer == old(buffer) && driver == old(driver)
        && initialized == old(initialized) && calls == old(calls)
      ensures lines <= MaxInt ==>
        && buffer == Blank(lines)
        && driver == (if old(driver).None? then Some(Hardware(busName, hardwareBounds)) else old(driver))
        && calls == old(calls) + [OpenCall]
        && (openErr.None? ==> outcome == Ok && initialized)
        && (openErr.Some? ==> outcome == Fail(DeviceInitFailed(openErr.value)) && initialized == old(initialized))
    {
      if lines > MaxInt {
        return Panic(SliceTooLarge);
      }
      buffer := Blank(lines);
      if driver.None? {
        driver := Some(Hardware(busName, hardwareBounds));
      }
      calls := calls + [OpenCall];
      if openErr.Some? {
        return Fail(DeviceInitFailed(openErr.value));
      }
      initialized := true;
      outcome := Ok;
    }

    /** Reaches the driver only after a successful `Init`; a driver reset to
        nil since then is dereferenced. */
    method Close(closeErr: Option<string>) returns (outcome: Outcome)
      requires Valid()
      modifies this`calls
      ensures Valid()
      ensures initialized && driver.None? ==> outcome == Panic(NilDereference) && calls == old(calls)
      ensures initialized && driver.Some? ==> calls == old(calls) + [CloseCall] && outcome == FromCause(closeErr)
      ensures !initialized ==> calls == old(calls) && outcome == Ok
    {
      if initialized {
        if driver.None? {
          return Panic(NilDereference);
        }
        calls := calls + [CloseCall];
        return FromCause(closeErr);
      }
      outcome := Ok;
    }

    /** Empties every line, keeping the number of lines. */
    method Clear() returns (outcome: Outcome)
      requires Valid()
      modifies this`buffer
      ensures Valid()
      ensures !initialized ==> outcome == Fail(NotInitialized) && buffer == old(buffer)
      ensures initialized ==> outcome == Ok && buffer == Blank(|old(buffer)|)
    {
      if !initialized {
        return Fail(NotInitialized);
      }
      var i := 0;
      while i < |buffer|
        invariant 0 <= i <= |buffer| == |old(buffer)|
        invariant forall j | 0 <= j < i :: buffer[j] == ""
      {
        buffer := buffer[i := ""];
        i := i + 1;
      }
      outcome := Ok;
    }

    /** Sets one line; see `LineBuffer.SetLine` for its effect. */
    method PrintLine(line: Uint, text: string) returns (outcome: Outcome)
      requires Valid()
      modifies this`buffer
      ensures Valid()
      ensures !initialized ==> outcome == Fail(NotInitialized) && buffer == old(buffer)
      ensures initialized ==> Step(outcome, buffer) == SetLine(old(buffer), line, text)
    {
      if !initialized {
        return Fail(NotInitialized);
      }
      if Int(line) >= |buffer| {
        return Fail(LineOutOfRange(line, |buffer|));
      }
      if line >= |buffer| {
        return Panic(IndexOutOfRange);
      }
      buffer := buffer[line := text];
      outcome := Ok;
    }

    /** Sets a run of lines after checking, before any write, that the run
        fits in `lines`; see `LineBuffer.SetRun`. */
    method PrintLines(line: Uint, text: seq<string>) returns (outcome: Outcome)
      requires Valid()
      modifies this`buffer
      ensures Valid()
      ensures !initialized ==> outcome == Fail(NotInitialized) && buffer == old(buffer)
      ensures initialized ==> Step(outcome, buffer) == SetRun(old(buffer), lines, line, text)
    {
      if !initialized {
        return Fail(NotInitialized);
      }
      if Wrap(Int(line) + |text|) > Int(lines) {
        return Fail(TooManyLines(|buffer|));
      }
      var start := Int(line);
      ghost var k := WrittenCount(start, |text|, |buffer|);
      var i := 0;
      while i < |text|
        invariant 0 <= i <= k
        invariant Partial(old(buffer), start, text, i, buffer)
      {
        LoopIndex(start, |text|, |buffer|, i);
        var index := Wrap(start + i);
        if index < 0 || index >= |buffer| {
          SetRunEnds(old(buffer), lines, line, text, i, buffer);
          return Panic(IndexOutOfRange);
        }
        PartialStep(old(buffer), start, text, i, buffer);
        buffer := buffer[index := text[i]];
        i := i + 1;
      }
      SetRunEnds(old(buffer), lines, line, text, i, buffer);
      outcome := Ok;
    }

    /** Draws line i at x = 0 on baseline lineHeight*(1+i), with no descent
        term, and issues exactly one `Draw` over the driver's full bounds.
        Without a face, drawing a non-empty line dereferences nil. */
    method Update(drawErr: Option<string>) returns (outcome: Outcome)
      requires Valid()
      modifies this`calls
      ensures Valid()
      ensures !initialized ==> outcome == Fail(NotInitialized) && calls == old(calls)
      ensures initialized && driver.None? ==> outcome == Panic(NilDereference) && calls == old(calls)
      ensures initialized && driver.Some? && font.None? && HasText(buffer) ==>
        outcome == Panic(NilDereference) && calls == old(calls) + [BoundsCall]
      ensures initialized && driver.Some? && (font.Some? || !HasText(buffer)) ==>
        var b := driver.value.bounds;
        && calls == old(calls) + [BoundsCall, BoundsCall, DrawCall(b, Canvas(b, Layout(buffer, lineHeight, 0)), Origin)]
        && DrawCount(calls) == DrawCount(old(calls)) + 1
        && (outcome.Ok? <==> drawErr.None?)
        && (drawErr.Some? ==> outcome == Fail(DrawFailed(drawErr.value)))
    {
      if !initialized {
        return Fail(NotInitialized);
      }
      if driver.None? {
        return Panic(NilDereference);
      }
      var b := driver.value.bounds;
      calls := calls + [BoundsCall];
      var strokes: seq<Stroke> := [];
      var i := 0;
      while i < |buffer|
        invariant 0 <= i <= |buffer|
        invariant font.None? ==> forall j | 0 <= j < i :: buffer[j] == ""
        invariant strokes == Layout(buffer[..i], lineHeight, 0)
        invariant calls == old(calls) + [BoundsCall]
      {
        if font.None? && buffer[i] != "" {
          return Panic(NilDereference);
        }
        LayoutExtend(buffer, i, lineHeight, 0);
        strokes := strokes + [Stroke(Point(0, lineHeight * (1 + i)), buffer[i])];
        i := i + 1;
      }
      assert buffer[..i] == buffer;
      CommitDrawsOnce(old(calls), b, Canvas(b, strokes));
      calls := calls + [BoundsCall, DrawCall(b, Canvas(b, strokes), Origin)];
      if drawErr.Some? {
        return Fail(DrawFailed(drawErr.value));
      }
      outcome := Ok;
    }
  }
}
