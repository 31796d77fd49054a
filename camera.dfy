/** nodes.py: `Camera` and its `snap_limits` clamp. Drawing is not modelled. */
module Cameras {
  import opened Geometry

  /** The rectangle `snap_limits` leaves and its two flags. */
  datatype Snapped = Snapped(shape: Rect, hLimit: bool, vLimit: bool)

  /** `snap_limits` on values: on each axis, a negative origin is moved to 0, otherwise a far
      edge beyond the limit is moved back onto it; each flag says whether its axis moved. */
  function Snap(shape: Rect, limitX: int, limitY: int): (r: Snapped)
    ensures r.shape.w == shape.w && r.shape.h == shape.h
    ensures r.hLimit <==> r.shape.x != shape.x
    ensures r.vLimit <==> r.shape.y != shape.y
    ensures r.hLimit <==> shape.x < 0 || shape.Right() > limitX
    ensures r.vLimit <==> shape.y < 0 || shape.Bottom() > limitY
    ensures shape.x < 0 ==> r.shape.x == 0
    ensures 0 <= shape.x && shape.Right() > limitX ==> r.shape.Right() == limitX
    ensures shape.y < 0 ==> r.shape.y == 0
    ensures 0 <= shape.y && shape.Bottom() > limitY ==> r.shape.Bottom() == limitY
    ensures shape.w <= limitX ==> 0 <= r.shape.x && r.shape.Right() <= limitX
    ensures shape.h <= limitY ==> 0 <= r.shape.y && r.shape.Bottom() <= limitY
  {
    var (s1, h) :=
      if shape.x < 0 then (shape.(x := 0), true)
      else if shape.Right() > limitX then (shape.WithRight(limitX), true)
      else (shape, false);
    var (s2, v) :=
      if s1.y < 0 then (s1.(y := 0), true)
      else if s1.Bottom() > limitY then (s1.WithBottom(limitY), true)
      else (s1, false);
    Snapped(s2, h, v)
  }

  /** A camera that already lies within limits it fits in is left where it is. */
  lemma {:induction false} SnapIdempotent(shape: Rect, limitX: int, limitY: int)
    requires shape.w <= limitX && shape.h <= limitY
    ensures Snap(Snap(shape, limitX, limitY).shape, limitX, limitY) ==
      Snapped(Snap(shape, limitX, limitY).shape, false, false)
  {
    var s := Snap(shape, limitX, limitY).shape;
    assert 0 <= s.x && s.Right() <= limitX && 0 <= s.y && s.Bottom() <= limitY;
  }

  class Camera {
    var shape: Rect
    const limitX: int
    const limitY: int

    /** `Camera.__init__`: a `size` rectangle at (0, 200) and the level's limits. */
    constructor (width: nat, height: nat, limitX: int, limitY: int)
      ensures shape == Rect(0, 200, width, height)
      ensures this.limitX == limitX && this.limitY == limitY
    {
      shape := Rect(0, 200, width, height);
      this.limitX := limitX;
      this.limitY := limitY;
    }

    /** `Camera.snap_limits` */
    method SnapLimits() returns (hLimit: bool, vLimit: bool)
      modifies this
      ensures Snapped(shape, hLimit, vLimit) == Snap(old(shape), limitX, limitY)
    {
      hLimit := false;
      vLimit := false;
      if shape.x < 0 {
        shape := shape.(x := 0);
        hLimit := true;
      } else if shape.Right() > limitX {
        shape := shape.WithRight(limitX);
        hLimit := true;
      }
      if shape.y < 0 {
        shape := shape.(y := 0);
        vLimit := true;
      } else if shape.Bottom() > limitY {
        shape := shape.WithBottom(limitY);
        vLimit := true;
      }
    }
  }
}
