/** The current display (v2/display/display.go): a builder-configured
    display with a line buffer, an `initialized` gate on every operation
    that needs the driver, text commits and image display. The driver's
    answers (its `Open`, `Close` and `Draw` errors, and the bounds the
    hardware reports) are parameters; the calls the display makes on it are
    recorded in the ghost log `calls`. */
module DisplayV2 {
  import opened GoTypes
  import opened Geometry
  import opened Outcomes
  import opened LineBuffer
  import opened Render

  const DefaultMaxLines: Uint := 5

  class Display {
    var busName: string
    var driver: Option<Driver>
    var lines: Uint
    var buffer: seq<string>
    var font: Option<Face>
    var lineHeight: int
    var initialized: bool
    ghost var calls: seq<DriverCall>

    ghost predicate Valid()
      reads this
    {
      |buffer| <= MaxInt
    }

    /** `NewDisplay`. */
    constructor ()
      ensures Valid()
      ensures lines == DefaultMaxLines && !initialized
      ensures busName == "" && driver == None && buffer == [] && font == None && lineHeight == 0
      ensures calls == []
    {
      busName := "";
      driver := None;
      lines := DefaultMaxLines;
      buffer := [];
      font := None;
      lineHeight := 0;
      initialized := false;
      calls := [];
    }

    method WithLines(n: Uint) returns (d: Display)
      requires Valid()
      modifies this`lines
      ensures Valid() && d == this && lines == n
    {
      lines := n;
      d := this;
    }

    method WithBusName(name: string) returns (d: Display)
      requires Valid()
      modifies this`busName
      ensures Valid() && d == this && busName == name
    {
      busName := name;
      d := this;
    }

    /** Stores the driver as given; a nil driver (None) makes `Init` create the
        hardware driver, and one stored after `Init` is dereferenced later. */
    method WithDriver(drv: Option<Driver>) returns (d: Display)
      requires Valid()
      modifies this`driver
      ensures Valid() && d == this && driver == drv
    {
      driver := drv;
      d := this;
    }

    method WithFont(f: Face) returns (d: Display)
      requires Valid()
      modifies this`font, this`lineHeight
      ensures Valid() && d == this && font == Some(f) && lineHeight == f.height
    {
      font := Some(f);
      lineHeight := f.height;
      d := this;
    }

    /** Installs the default face and its line height only when no face was set. */
    method Build() returns (d: Display, err: Option<Error>)
      requires Valid()
      modifies this`font, this`lineHeight
      ensures Valid() && d == this && err == None
      ensures old(font).None? ==> font == Some(Face7x13) && lineHeight == Face7x13.height
      ensures old(font).Some? ==> font == old(font) && lineHeight == old(lineHeight)
    {
      if font.None? {
        var f := Face7x13;
        var h := f.height;
        font := Some(f);
        lineHeight := h;
      }
      d := this;
      err := None;
    }

    /** Allocates an empty buffer of `lines` entries, creates the hardware
        driver when none was supplied, and opens the driver; only a
        successful `Open` sets `initialized`. */
    method Init(openErr: Option<string>, hardwareBounds: Rectangle) returns (outcome: Outcome)
      requires Valid()
      modifies this`buffer, this`driver, this`initialized, this`calls
      ensures Valid()
      ensures old(lines) > MaxInt ==>
        outcome == Panic(SliceTooLarge) && buffer == old(buffer) && driver == old(driver)
        && initialized == old(initialized) && calls == old(calls)
      ensures lines <= MaxInt ==>
        && buffer == Blank(lines)
        && driver == (if old(driver).None? then Some(Hardware(busName, hardwareBounds)) else old(driver))
        && calls == old(calls) + [OpenCall]
        && (openErr.None? ==> outcome == Ok && initialized)
        && (openErr.Some? ==> outcome == Fail(DeviceInitFailed(openErr.value)) && initialized == old(initialized))
    {
      if lines > MaxInt {
        return Panic(SliceTooLarge);
      }
      buffer := Blank(lines);
      if driver.None? {
        driver := Some(Hardware(busName, hardwareBounds));
      }
      calls := calls + [OpenCall];
      if openErr.Some? {
        return Fail(DeviceInitFailed(openErr.value));
      }
      initialized := true;
      outcome := Ok;
    }

    /** Reaches the driver only after a successful `Init`; a driver reset to
        nil since then is dereferenced. */
    method Close(closeErr: Option<string>) returns (outcome: Outcome)
      requires Valid()
      modifies this`calls
      ensures Valid()
      ensures initialized && driver.None? ==> outcome == Panic(NilDereference) && calls == old(calls)
      ensures initialized && driver.Some? ==> calls == old(calls) + [CloseCall] && outcome == FromCause(closeErr)
      ensures !initialized ==> calls == old(calls) && outcome == Ok
    {
      if initialized {
        if driver.None? {
          return Panic(NilDereference);
        }
        calls := calls + [CloseCall];
        return FromCause(closeErr);
      }
      outcome := Ok;
    }

    /** Empties every line, keeping the number of lines. */
    method ClearLines() returns (outcome: Outcome)
      requires Valid()
      modifies this`buffer
      ensures Valid()
      ensures !initialized ==> outcome == Fail(NotInitialized) && buffer == old(buffer)
      ensures initialized ==> outcome == Ok && buffer == Blank(|old(buffer)|)
    {
      if !initialized {
        return Fail(NotInitialized);
      }
      var i := 0;
      while i < |buffer|
        invariant 0 <= i <= |buffer| == |old(buffer)|
        invariant forall j | 0 <= j < i :: buffer[j] == ""
      {
        buffer := buffer[i := ""];
        i := i + 1;
      }
      outcome := Ok;
    }

    /** Draws a blank image over the whole screen. It has no `initialized`
        guard, so without a driver it dereferences nil. */
    method ClearScreen(drawErr: Option<string>) returns (outcome: Outcome)
      requires Valid()
      modifies this`calls
      ensures Valid()
      ensures driver.None? ==> outcome == Panic(NilDereference) && calls == old(calls)
      ensures driver.Some? ==>
        var b := driver.value.bounds;
        && calls == old(calls) + [BoundsCall, BoundsCall, DrawCall(b, Canvas(b, []), Origin)]
        && (outcome.Ok? <==> drawErr.None?)
        && (drawErr.Some? ==> outcome == Fail(DrawFailed(drawErr.value)))
    {
      if driver.None? {
        return Panic(NilDereference);
      }
      var b := driver.value.bounds;
      calls := calls + [BoundsCall, BoundsCall, DrawCall(b, Canvas(b, []), Origin)];
      if drawErr.Some? {
        return Fail(DrawFailed(drawErr.value));
      }
      outcome := Ok;
    }

    /** Sets one line; see `LineBuffer.SetLine` for its effect. */
    method PrintLine(line: Uint, text: string) returns (outcome: Outcome)
      requires Valid()
      modifies this`buffer
      ensures Valid()
      ensures !initialized ==> outcome == Fail(NotInitialized) && buffer == old(buffer)
      ensures initialized ==> Step(outcome, buffer) == SetLine(old(buffer), line, text)
    {
      if !initialized {
        return Fail(NotInitialized);
      }
      if Int(line) >= |buffer| {
        return Fail(LineOutOfRange(line, |buffer|));
      }
      if line >= |buffer| {
        return Panic(IndexOutOfRange);
      }
      buffer := buffer[line := text];
      outcome := Ok;
    }

    /** Sets a run of lines after checking, before any write, that the run
        fits in `lines`; see `LineBuffer.SetRun`. */
    method PrintLines(line: Uint, text: seq<string>) returns (outcome: Outcome)
      requires Valid()
      modifies this`buffer
      ensures Valid()
      ensures !initialized ==> outcome == Fail(NotInitialized) && buffer == old(buffer)
      ensures initialized ==> Step(outcome, buffer) == SetRun(old(buffer), lines, line, text)
    {
      if !initialized {
        return Fail(NotInitialized);
      }
      if Wrap(Int(line) + |text|) > Int(lines) {
        return Fail(TooManyLines(|buffer|));
      }
      var start := Int(line);
      ghost var k := WrittenCount(start, |text|, |buffer|);
      var i := 0;
      while i < |text|
        invariant 0 <= i <= k
        invariant Partial(old(buffer), start, text, i, buffer)
      {
        LoopIndex(start, |text|, |buffer|, i);
        var index := Wrap(start + i);
        if index < 0 || index >= |buffer| {
          SetRunEnds(old(buffer), lines, line, text, i, buffer);
          return Panic(IndexOutOfRange);
        }
        PartialStep(old(buffer), start, text, i, buffer);
        buffer := buffer[index := text[i]];
        i := i + 1;
      }
      SetRunEnds(old(buffer), lines, line, text, i, buffer);
      outcome := Ok;
    }

    /** Draws line i at x = 0 on baseline lineHeight*(1+i) - descent and
        issues exactly one `Draw` over the driver's full bounds. */
    method Update(drawErr: Option<string>) returns (outcome: Outcome)
      requires Valid()
      modifies this`calls
      ensures Valid()
      ensures !initialized ==> outcome == Fail(NotInitialized) && calls == old(calls)
      ensures initialized && driver.None? ==> outcome == Panic(NilDereference) && calls == old(calls)
      ensures initialized && driver.Some? && font.None? && |buffer| > 0 ==>
        outcome == Panic(NilDereference) && calls == old(calls) + [BoundsCall]
      ensures initialized && driver.Some? && (font.Some? || |buffer| == 0) ==>
        var b := driver.value.bounds;
        var strokes := if font.Some? then Layout(buffer, lineHeight, font.value.descent) else [];
        && calls == old(calls) + [BoundsCall, BoundsCall, DrawCall(b, Canvas(b, strokes), Origin)]
        && DrawCount(calls) == DrawCount(old(calls)) + 1
        && (outcome.Ok? <==> drawErr.None?)
        && (drawErr.Some? ==> outcome == Fail(DrawFailed(drawErr.value)))
    {
      if !initialized {
        return Fail(NotInitialized);
      }
      if driver.None? {
        return Panic(NilDereference);
      }
      var b := driver.value.bounds;
      calls := calls + [BoundsCall];
      var strokes: seq<Stroke> := [];
      var i := 0;
      while i < |buffer|
        invariant 0 <= i <= |buffer|
        invariant font.None? ==> i == 0
        invariant font.Some? ==> strokes == Layout(buffer[..i], lineHeight, font.value.descent)
        invariant font.None? ==> strokes == []
        invariant calls == old(calls) + [BoundsCall]
      {
        if font.None? {
          return Panic(NilDereference);
        }
        LayoutExtend(buffer, i, lineHeight, font.value.descent);
        strokes := strokes + [Stroke(Point(0, lineHeight * (1 + i) - font.value.descent), buffer[i])];
        i := i + 1;
      }
      assert buffer[..i] == buffer;
      CommitDrawsOnce(old(calls), b, Canvas(b, strokes));
      calls := calls + [BoundsCall, DrawCall(b, Canvas(b, strokes), Origin)];
      if drawErr.Some? {
        return Fail(DrawFailed(drawErr.value));
      }
      outcome := Ok;
    }

    method SetFont(f: Face)
      requires Valid()
      modifies this`font, this`lineHeight
      ensures Valid() && font == Some(f) && lineHeight == f.height
    {
      font := Some(f);
      lineHeight := f.height;
    }

    /** Converts the picture to a one-bit image of the driver's bounds, pixel
        by pixel (see `Render.ImagePixel`), and draws it once at those
        bounds. A size mismatch is never an error. */
    method ShowImage(pic: Picture, drawErr: Option<string>) returns (outcome: Outcome)
      requires Valid()
      modifies this`calls
      ensures Valid()
      ensures !initialized ==> outcome == Fail(NotInitialized) && calls == old(calls)
      ensures initialized && driver.None? ==> outcome == Panic(NilDereference) && calls == old(calls)
      ensures initialized && driver.Some? ==>
        var b := driver.value.bounds;
        && calls == old(calls) + [BoundsCall, DrawCall(b, Bitmap(b, ImageBits(b, pic)), Origin)]
        && DrawCount(calls) == DrawCount(old(calls)) + 1
        && (outcome.Ok? <==> drawErr.None?)
        && (drawErr.Some? ==> outcome == Fail(ImageDrawFailed(drawErr.value)))
    {
      if !initialized {
        return Fail(NotInitialized);
      }
      if driver.None? {
        return Panic(NilDereference);
      }
      var b := driver.value.bounds;
      calls := calls + [BoundsCall];
      var img := Rasterize(b, pic);
      ShowDrawsOnce(old(calls), b, Bitmap(b, img));
      calls := calls + [DrawCall(b, Bitmap(b, img), Origin)];
      if drawErr.Some? {
        return Fail(ImageDrawFailed(drawErr.value));
      }
      outcome := Ok;
    }
  }

  /** The nested loops of `ShowImage` over a fresh one-bit image of `b`. */
  method Rasterize(b: Rectangle, pic: Picture) returns (bits: seq<seq<bool>>)
    ensures bits == ImageBits(b, pic)
  {
    var w, h := b.Width(), b.Height();
    var img := new bool[w, h];
    forall i, j | 0 <= i < w && 0 <= j < h {
      img[i, j] := false;
    }
    var y := b.min.y;
    while y < b.max.y
      invariant b.min.y <= y <= b.min.y + h
      invariant forall i, j | 0 <= i < w && 0 <= j < h ::
        img[i, j] == if j < y - b.min.y then ImageBit(pic, b.min.x + i, b.min.y + j) else false
    {
      var x := b.min.x;
      while x < b.max.x
        invariant b.min.x <= x <= b.min.x + w
        invariant forall i, j | 0 <= i < w && 0 <= j < h ::
          img[i, j] == if j < y - b.min.y || (j == y - b.min.y && i < x - b.min.x)
                       then ImageBit(pic, b.min.x + i, b.min.y + j) else false
      {
        var srcX := pic.bounds.min.x + x;
        var srcY := pic.bounds.min.y + y;
        if srcX < pic.bounds.max.x && srcY < pic.bounds.max.y {
          var gray := pic.gray(srcX, srcY);
          if gray > 128 {
            img[x - b.min.x, y - b.min.y] := true;
          } else {
            img[x - b.min.x, y - b.min.y] := false;
          }
        }
        x := x + 1;
      }
      y := y + 1;
    }
    assert y - b.min.y == h;
    bits := seq(h, j requires 0 <= j < h reads img => seq(w, i requires 0 <= i < w reads img => img[i, j]));
    var spec := ImageBits(b, pic);
    forall j | 0 <= j < h
      ensures bits[j] == spec[j]
    {
      assert forall i | 0 <= i < w :: bits[j][i] == spec[j][i];
    }
  }
}
