/** The part of pygame's `Rect` the core relies on: integer position, size, derived edges and
    midpoints, and edge assignments that move the rectangle while keeping its size. */
module Geometry {

  /** A pixel position, as pygame's `(x, y)` tuples. */
  datatype Point = Point(x: int, y: int)

  /** Sizes are non-negative here; pygame's rectangles with negative sizes are not modelled. */
  datatype Rect = Rect(x: int, y: int, w: nat, h: nat) {
    function Left(): int { x }
    function Top(): int { y }
    function Right(): int { x + w }
    function Bottom(): int { y + h }
    function CenterX(): int { x + w / 2 }
    function CenterY(): int { y + h / 2 }

    /** `rect.right = v`: moves the rectangle so that its right edge is `v`. */
    function WithRight(v: int): (r: Rect)
      ensures r.Right() == v && r.y == y && r.w == w && r.h == h
    {
      Rect(v - w, y, w, h)
    }

    /** `rect.left = v` */
    function WithLeft(v: int): (r: Rect)
      ensures r.Left() == v && r.y == y && r.w == w && r.h == h
    {
      Rect(v, y, w, h)
    }

    /** `rect.bottom = v` */
    function WithBottom(v: int): (r: Rect)
      ensures r.Bottom() == v && r.x == x && r.w == w && r.h == h
    {
      Rect(x, v - h, w, h)
    }

    /** `rect.top = v` */
    function WithTop(v: int): (r: Rect)
      ensures r.Top() == v && r.x == x && r.w == w && r.h == h
    {
      Rect(x, v, w, h)
    }

    function TopLeft(): Point { Point(x, y) }
    function TopRight(): Point { Point(Right(), y) }
    function BottomLeft(): Point { Point(x, Bottom()) }
    function BottomRight(): Point { Point(Right(), Bottom()) }
    function MidLeft(): Point { Point(x, CenterY()) }
    function MidRight(): Point { Point(Right(), CenterY()) }
    function MidTop(): Point { Point(CenterX(), y) }
    function MidBottom(): Point { Point(CenterX(), Bottom()) }
  }

  /** Python's `int(r)` on a float: truncation toward zero. */
  function Trunc(r: real): (n: int)
    ensures r >= 0.0 ==> n as real <= r < n as real + 1.0
    ensures r < 0.0 ==> n as real - 1.0 < r <= n as real
  {
    if r >= 0.0 then r.Floor else -((-r).Floor)
  }
}
