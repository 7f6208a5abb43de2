/** The parts of Go's `image` package the display code relies on. */
module Geometry {

  datatype Point = Point(x: int, y: int)

  const Origin := Point(0, 0)

  /** `image.Rectangle`: the points with min.x <= x < max.x and min.y <= y < max.y. */
  datatype Rectangle = Rectangle(min: Point, max: Point) {

    /** `p.In(r)`. */
    predicate Contains(p: Point) {
      min.x <= p.x < max.x && min.y <= p.y < max.y
    }

    /** Number of columns a loop `for x := min.x; x < max.x; x++` visits. */
    function Width(): nat {
      if max.x > min.x then max.x - min.x else 0
    }

    /** Number of rows a loop `for y := min.y; y < max.y; y++` visits. */
    function Height(): nat {
      if max.y > min.y then max.y - min.y else 0
    }
  }

  /** `image.Rect(x0, y0, x1, y1)`, which swaps the coordinates so that min <= max. */
  function Rect(x0: int, y0: int, x1: int, y1: int): (r: Rectangle)
    ensures r.min.x <= r.max.x && r.min.y <= r.max.y
    ensures {r.min.x, r.max.x} == {x0, x1} && {r.min.y, r.max.y} == {y0, y1}
  {
    Rectangle(Point(if x0 <= x1 then x0 else x1, if y0 <= y1 then y0 else y1),
              Point(if x0 <= x1 then x1 else x0, if y0 <= y1 then y1 else y0))
  }
}
