/** What the display hands to its render target: text laid out line by
    line, or a one-bit bitmap made from a grey-level picture, and the calls
    it makes on the driver. Glyph rasterisation is not modelled: a line of
    text is drawn as a `Stroke`, the string placed at its dot. */
module Render {
  import opened Geometry
  import opened Outcomes

  /** A font face, reduced to the two metrics the display reads from it:
      the line height `Metrics().Height.Ceil()` and the descent
      (`Metrics().Descent.Round()`, which for a basicfont face is its
      `Descent` field). */
  datatype Face = Face(name: string, height: int, descent: int)

  /** `basicfont.Face7x13`: 13 pixels high, 2 of them below the baseline. */
  const Face7x13 := Face("basicfont.Face7x13", 13, 2)

  /** The baseline of line `i` (0-based): the first one line height down
      from the top, less the descent, and each next one a line height below
      the previous one. */
  function Baseline(lineHeight: int, i: nat, descent: int): (y: int)
    decreases i
    ensures i == 0 ==> y == lineHeight - descent
    ensures i > 0 ==> y == Baseline(lineHeight, i - 1, descent) + lineHeight
  {
    lineHeight * (1 + i) - descent
  }

  /** With a positive line height, lines are stacked strictly top to bottom. */
  lemma {:induction false} BaselineIncreasing(lineHeight: int, i: nat, j: nat, descent: int)
    requires lineHeight > 0 && i < j
    ensures Baseline(lineHeight, i, descent) < Baseline(lineHeight, j, descent)
  {
    if j > i + 1 {
      BaselineIncreasing(lineHeight, i, j - 1, descent);
    }
  }

  /** Dropping the descent moves every line down by exactly the descent. */
  lemma BaselineWithoutDescent(lineHeight: int, i: nat, descent: int)
    ensures Baseline(lineHeight, i, 0) == Baseline(lineHeight, i, descent) + descent
  {
  }

  /** `font.Drawer.DrawString(text)` with the drawer's dot at `dot`. */
  datatype Stroke = Stroke(dot: Point, text: string)

  /** Line `i` of the buffer drawn at x = 0 on baseline i. */
  function Layout(buffer: seq<string>, lineHeight: int, descent: int): (r: seq<Stroke>)
    ensures |r| == |buffer|
  {
    seq(|buffer|, i requires 0 <= i < |buffer| => Stroke(Point(0, Baseline(lineHeight, i, descent)), buffer[i]))
  }

  /** Laying out one more line appends its stroke on the next baseline. */
  lemma LayoutExtend(buffer: seq<string>, i: nat, lineHeight: int, descent: int)
    requires i < |buffer|
    ensures Layout(buffer[..i + 1], lineHeight, descent)
         == Layout(buffer[..i], lineHeight, descent) + [Stroke(Point(0, lineHeight * (1 + i) - descent), buffer[i])]
  {
  }

  /** The images the display passes to `Draw`. */
  datatype Frame =
    | Canvas(bounds: Rectangle, strokes: seq<Stroke>)   // a blank 1-bit image with the strokes drawn in order
    | Bitmap(bounds: Rectangle, bits: seq<seq<bool>>)   // bits[y - min.y][x - min.x] is true when (x, y) is On

  /** A grey level as produced by `color.GrayModel.Convert`. */
  type Gray = g: int | 0 <= g < 256

  /** A decoded picture: its bounds and the grey level of the colour at each point. */
  datatype Picture = Picture(bounds: Rectangle, gray: (int, int) -> Gray)

  /** A grey level lights a pixel when it is above the midpoint 128. */
  predicate IsOn(g: Gray) {
    g > 128
  }

  /** The threshold sits between 128 (off) and 129 (on), and a brighter
      grey level is never shown darker than a dimmer one. */
  lemma IsOnThreshold(g: Gray, h: Gray)
    ensures !IsOn(128) && IsOn(129)
    ensures g <= h && IsOn(g) ==> IsOn(h)
  {
  }

  /** What `ShowImage` does with target pixel (x, y): it samples the picture
      at its own origin offset by (x, y) when that point passes the check
      against the picture's upper bounds, and otherwise leaves the pixel
      alone (None). */
  function ImagePixel(pic: Picture, x: int, y: int): (r: Option<bool>)
    ensures r.Some? <==> pic.bounds.min.x + x < pic.bounds.max.x && pic.bounds.min.y + y < pic.bounds.max.y
    ensures r.Some? ==> (r.value <==> pic.gray(pic.bounds.min.x + x, pic.bounds.min.y + y) > 128)
  {
    var sx, sy := pic.bounds.min.x + x, pic.bounds.min.y + y;
    if sx < pic.bounds.max.x && sy < pic.bounds.max.y then Some(IsOn(pic.gray(sx, sy))) else None
  }

  /** The bit a fresh one-bit image holds at (x, y) after `ShowImage`: pixels
      left alone keep the Off a new image starts with. */
  function ImageBit(pic: Picture, x: int, y: int): (r: bool)
    ensures ImagePixel(pic, x, y).None? ==> !r
    ensures ImagePixel(pic, x, y).Some? ==> r == ImagePixel(pic, x, y).value
  {
    match ImagePixel(pic, x, y)
    case Some(on) => on
    case None => false
  }

  /** The bitmap `ShowImage` draws over `target`, row by row. */
  function ImageBits(target: Rectangle, pic: Picture): (r: seq<seq<bool>>)
    ensures |r| == target.Height()
    ensures forall j | 0 <= j < |r| :: |r[j]| == target.Width()
  {
    seq(target.Height(), j => seq(target.Width(), i => ImageBit(pic, target.min.x + i, target.min.y + j)))
  }

  /** For targets whose origin is not negative (as every driver here reports),
      the one-sided check is exactly "the sample point lies in the picture":
      nothing outside the picture is ever read. */
  lemma ImageSamplesInside(pic: Picture, x: int, y: int)
    requires x >= 0 && y >= 0
    ensures ImagePixel(pic, x, y).Some? <==> pic.bounds.Contains(Point(pic.bounds.min.x + x, pic.bounds.min.y + y))
  {
  }

  /** A picture at least as large as the target is cropped, not rejected:
      every target pixel takes the threshold of its sample. */
  lemma ImageCropped(target: Rectangle, pic: Picture, x: int, y: int)
    requires 0 <= target.min.x && 0 <= target.min.y
    requires target.Contains(Point(x, y))
    requires target.max.x <= pic.bounds.Width() && target.max.y <= pic.bounds.Height()
    ensures ImagePixel(pic, x, y) == Some(IsOn(pic.gray(pic.bounds.min.x + x, pic.bounds.min.y + y)))
  {
  }

  /** A render target as the display sees it: one supplied with `WithDriver`,
      or the hardware driver for an I²C bus that `Init` creates when none was
      supplied. `bounds` is what its `Bounds` reports. */
  datatype Driver = Injected(bounds: Rectangle) | Hardware(busName: string, bounds: Rectangle)

  /** A call made on the driver, as a test double tracking calls records it. */
  datatype DriverCall = OpenCall | CloseCall | BoundsCall | DrawCall(r: Rectangle, frame: Frame, sp: Point)

  function DrawCount(calls: seq<DriverCall>): nat
  {
    if |calls| == 0 then 0 else (if calls[0].DrawCall? then 1 else 0) + DrawCount(calls[1..])
  }

  lemma {:induction false} DrawCountAppend(a: seq<DriverCall>, b: seq<DriverCall>)
    ensures DrawCount(a + b) == DrawCount(a) + DrawCount(b)
  {
    if |a| > 0 {
      assert (a + b)[1..] == a[1..] + b;
      DrawCountAppend(a[1..], b);
    } else {
      assert a + b == b;
    }
  }

  /** The calls a commit makes: `Bounds` for the new image, `Bounds` again
      for the draw region, then exactly one `Draw`. */
  lemma CommitDrawsOnce(calls: seq<DriverCall>, r: Rectangle, f: Frame)
    ensures DrawCount(calls + [BoundsCall, BoundsCall, DrawCall(r, f, Origin)]) == DrawCount(calls) + 1
  {
    var d := DrawCall(r, f, Origin);
    assert [d][1..] == [];
    assert DrawCount([d]) == 1;
    assert [BoundsCall, d][1..] == [d];
    assert DrawCount([BoundsCall, d]) == 1;
    assert [BoundsCall, BoundsCall, d][1..] == [BoundsCall, d];
    assert DrawCount([BoundsCall, BoundsCall, d]) == 1;
    DrawCountAppend(calls, [BoundsCall, BoundsCall, d]);
  }

  /** Showing an image asks for the bounds once and draws exactly once. */
  lemma ShowDrawsOnce(calls: seq<DriverCall>, r: Rectangle, f: Frame)
    ensures DrawCount(calls + [BoundsCall, DrawCall(r, f, Origin)]) == DrawCount(calls) + 1
  {
    var d := DrawCall(r, f, Origin);
    assert [d][1..] == [];
    assert DrawCount([d]) == 1;
    assert [BoundsCall, d][1..] == [d];
    assert DrawCount([BoundsCall, d]) == 1;
    DrawCountAppend(calls, [BoundsCall, d]);
  }
}
