/** The frame buffer of the simulated SSD1306: an RGBA image over the
    device bounds that `Open` paints black and `Draw` blits one-bit images
    into. Both simulated drivers share this code. */
module FakeRaster {
  import opened Geometry

  type Byte = b: int | 0 <= b < 256

  /** `color.RGBA`. */
  datatype Rgba = Rgba(r: Byte, g: Byte, b: Byte, a: Byte)

  /** What `image.NewRGBA` starts every pixel as. */
  const Transparent := Rgba(0, 0, 0, 0)
  /** An unlit OLED pixel. */
  const Black := Rgba(0, 0, 0, 255)
  /** A lit OLED pixel. */
  const White := Rgba(255, 255, 255, 255)

  /** A colour read from a source image: the one-bit `image1bit.On` and
      `image1bit.Off`, or a colour of any other model. */
  datatype Color = On | Off | Other

  /** An `image.Image` handed to `Draw`: its bounds and its colour at each point. */
  datatype Source = Source(bounds: Rectangle, at: (int, int) -> Color)

  /** The source point `Draw` reads for target point `p`: `sp + (p - r.Min)`. */
  function SourcePoint(r: Rectangle, sp: Point, p: Point): (q: Point)
    ensures q.x - sp.x == p.x - r.min.x && q.y - sp.y == p.y - r.min.y
  {
    Point(sp.x + (p.x - r.min.x), sp.y + (p.y - r.min.y))
  }

  /** On is shown white, anything else black. */
  function Shown(c: Color): (rgba: Rgba)
    ensures rgba == White <==> c == On
    ensures rgba == Black <==> c != On
  {
    if c == On then White else Black
  }

  /** Whether `Draw(r, src, sp)` writes target point `p`. */
  predicate Covers(r: Rectangle, src: Source, sp: Point, p: Point) {
    r.Contains(p) && src.bounds.Contains(SourcePoint(r, sp, p))
  }

  /** The colour point `p` has after `Draw(r, src, sp)`, given the colour
      `prev` it had: a pixel outside `r`, or whose source point is outside the
      source, keeps its colour; a covered one is white iff its source is On. */
  function BlitPixel(r: Rectangle, src: Source, sp: Point, p: Point, prev: Rgba): (c: Rgba)
    ensures !Covers(r, src, sp, p) ==> c == prev
    ensures Covers(r, src, sp, p) ==>
      var q := SourcePoint(r, sp, p);
      (c == White <==> src.at(q.x, q.y) == On) && (c == Black <==> src.at(q.x, q.y) != On)
  {
    if Covers(r, src, sp, p) then
      var q := SourcePoint(r, sp, p);
      Shown(src.at(q.x, q.y))
    else prev
  }

  /** Drawing the same image twice leaves what drawing it once does. */
  lemma BlitIdempotent(r: Rectangle, src: Source, sp: Point, p: Point, prev: Rgba)
    ensures BlitPixel(r, src, sp, p, BlitPixel(r, src, sp, p, prev)) == BlitPixel(r, src, sp, p, prev)
  {
  }

  /** The corner of the region shows the source at the offset `sp`. */
  lemma BlitCorner(r: Rectangle, sp: Point)
    ensures SourcePoint(r, sp, r.min) == sp
  {
  }

  /** A frame buffer laid over `bounds`: one entry per point, column-major. */
  predicate Fits(buf: array2<Rgba>, bounds: Rectangle) {
    buf.Length0 == bounds.Width() && buf.Length1 == bounds.Height()
  }

  /** `image.NewRGBA(bounds)` followed by the nested loop of `Open` that sets
      every point black. */
  method NewBlack(bounds: Rectangle) returns (buf: array2<Rgba>)
    ensures fresh(buf) && Fits(buf, bounds)
    ensures forall i, j | 0 <= i < buf.Length0 && 0 <= j < buf.Length1 :: buf[i, j] == Black
  {
    var w, h := bounds.Width(), bounds.Height();
    buf := new Rgba[w, h]((i, j) => Transparent);
    var y := bounds.min.y;
    while y < bounds.max.y
      invariant bounds.min.y <= y <= bounds.min.y + h
      invariant forall i, j | 0 <= i < w && 0 <= j < h ::
        buf[i, j] == if j < y - bounds.min.y then Black else Transparent
    {
      var x := bounds.min.x;
      while x < bounds.max.x
        invariant bounds.min.x <= x <= bounds.min.x + w
        invariant forall i, j | 0 <= i < w && 0 <= j < h ::
          buf[i, j] == if j < y - bounds.min.y || (j == y - bounds.min.y && i < x - bounds.min.x)
                       then Black else Transparent
      {
        buf[x - bounds.min.x, y - bounds.min.y] := Black;
        x := x + 1;
      }
      y := y + 1;
    }
  }

  /** The nested loop of `Draw`: every point of `r` whose source point lies in
      the source is set to the colour shown for it; `RGBA.Set` ignores points
      outside the buffer's bounds. */
  method Blit(buf: array2<Rgba>, bounds: Rectangle, r: Rectangle, src: Source, sp: Point)
    requires Fits(buf, bounds)
    modifies buf
    ensures forall i, j | 0 <= i < buf.Length0 && 0 <= j < buf.Length1 ::
      buf[i, j] == BlitPixel(r, src, sp, Point(bounds.min.x + i, bounds.min.y + j), old(buf[i, j]))
  {
    var y := r.min.y;
    while y < r.max.y
      invariant r.min.y <= y && (y <= r.max.y || y == r.min.y)
      invariant forall i, j | 0 <= i < buf.Length0 && 0 <= j < buf.Length1 ::
        buf[i, j] == if bounds.min.y + j < y
                     then BlitPixel(r, src, sp, Point(bounds.min.x + i, bounds.min.y + j), old(buf[i, j]))
                     else old(buf[i, j])
    {
      var x := r.min.x;
      while x < r.max.x
        invariant r.min.x <= x && (x <= r.max.x || x == r.min.x)
        invariant forall i, j | 0 <= i < buf.Length0 && 0 <= j < buf.Length1 ::
          buf[i, j] == if bounds.min.y + j < y || (bounds.min.y + j == y && bounds.min.x + i < x)
                       then BlitPixel(r, src, sp, Point(bounds.min.x + i, bounds.min.y + j), old(buf[i, j]))
                       else old(buf[i, j])
      {
        var srcX := sp.x + (x - r.min.x);
        var srcY := sp.y + (y - r.min.y);
        if srcX >= src.bounds.min.x && srcX < src.bounds.max.x &&
           srcY >= src.bounds.min.y && srcY < src.bounds.max.y {
          var srcColor := src.at(srcX, srcY);
          var displayColor := if srcColor == On then White else Black;
          if bounds.Contains(Point(x, y)) {
            buf[x - bounds.min.x, y - bounds.min.y] := displayColor;
          }
        }
        x := x + 1;
      }
      y := y + 1;
    }
  }
}
