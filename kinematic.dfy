/** nodes.py: `Kinematic` and its tile-only resolver `move_and_collide`: axis-separated,
    point-sampled integer geometry on a 16-pixel grid. Gravity and plain `move` are not
    modelled (float integration). */
module Kinematics {
  import opened Wrappers
  import opened Geometry
  import opened Tiles

  /** The resolver's view of a body: `position`, `shape`, `velocity` and `grounded`. */
  datatype Body = Body(px: real, py: real, shape: Rect, vx: real, vy: real, grounded: bool)

  /** The points sampled on each side, as the source lists them. */
  function RightPoints(s: Rect): seq<Point> { [s.TopRight(), s.MidRight(), s.BottomRight()] }
  function LeftPoints(s: Rect): seq<Point> { [s.TopLeft(), s.MidLeft(), s.BottomLeft()] }
  function BottomPoints(s: Rect): seq<Point> { [s.BottomLeft(), s.MidBottom(), s.BottomRight()] }
  function TopPoints(s: Rect): seq<Point> { [s.TopLeft(), s.MidTop(), s.TopRight()] }

  /** The ground-snap probe offset: 4 pixels when the body was grounded on the last tick. */
  function SnapOffset(snap: bool): int { if snap then 4 else 0 }

  // ---------------------------------------------------------------------------------------
  // The four sampling loops, one point at a time, exactly as written.

  /** One point of the rightward X loop. */
  function RightStep(m: Tilemap, b: Body, p: Point): (r: Body)
    requires m.Valid()
    ensures r == b || (IsKind(m, p.x / 16, p.y / 16, "solid") &&
      r.shape.Right() == p.x / 16 * 16 && r.px == r.shape.x as real && r.vx == 0.0)
    ensures r.py == b.py && r.vy == b.vy && r.grounded == b.grounded && r.shape.y == b.shape.y && r.shape.w == b.shape.w && r.shape.h == b.shape.h
  {
    var x, y := p.x / 16, p.y / 16;
    if IsKind(m, x, y, "solid") &&
       b.shape.Right() >= x * 16 && b.shape.Bottom() != y * 16 && b.shape.Top() != y * 16 + 16
    then
      var s := b.shape.WithRight(x * 16);
      b.(shape := s, px := s.x as real, vx := 0.0)
    else b
  }

  /** One point of the leftward (or motionless) X loop. */
  function LeftStep(m: Tilemap, b: Body, p: Point): (r: Body)
    requires m.Valid()
    ensures r == b || (IsKind(m, p.x / 16, p.y / 16, "solid") &&
      r.shape.Left() == p.x / 16 * 16 + 16 && r.px == r.shape.x as real && r.vx == 0.0)
    ensures r.py == b.py && r.vy == b.vy && r.grounded == b.grounded && r.shape.y == b.shape.y && r.shape.w == b.shape.w && r.shape.h == b.shape.h
  {
    var x, y := p.x / 16, p.y / 16;
    if IsKind(m, x, y, "solid") &&
       b.shape.Left() <= x * 16 + 16 && b.shape.Bottom() != y * 16 && b.shape.Top() != y * 16 + 16
    then
      var s := b.shape.WithLeft(x * 16 + 16);
      b.(shape := s, px := s.x as real, vx := 0.0)
    else b
  }

  /** One point of the downward Y loop; `snap` lowers the probe by 4 pixels. */
  function DownStep(m: Tilemap, b: Body, p: Point, snap: bool): (r: Body)
    requires m.Valid()
    ensures r == b || (var x, y := p.x / 16, (p.y + SnapOffset(snap)) / 16;
      (IsKind(m, x, y, "solid") || IsKind(m, x, y, "semisolid")) &&
      r.shape.Bottom() == y * 16 && r.py == r.shape.y as real && r.vy == 0.0 && r.grounded)
    ensures r.px == b.px && r.vx == b.vx && r.shape.x == b.shape.x && r.shape.w == b.shape.w && r.shape.h == b.shape.h
  {
    var x := p.x / 16;
    var y := (p.y + SnapOffset(snap)) / 16;
    var bottom := b.shape.Bottom() + SnapOffset(snap);
    var seam := b.shape.Right() != x * 16 && b.shape.Left() != x * 16 + 16;
    if IsKind(m, x, y, "solid") && bottom >= y * 16 && seam then
      var s := b.shape.WithBottom(y * 16);
      b.(shape := s, grounded := true, py := s.y as real, vy := 0.0)
    else if IsKind(m, x, y, "semisolid") && y * 16 + 8 >= bottom >= y * 16 && seam then
      var s := b.shape.WithBottom(y * 16);
      b.(shape := s, grounded := true, py := s.y as real, vy := 0.0)
    else b
  }

  /** One point of the upward (or motionless) Y loop: solid tiles only. */
  function UpStep(m: Tilemap, b: Body, p: Point): (r: Body)
    requires m.Valid()
    ensures r == b || (IsKind(m, p.x / 16, p.y / 16, "solid") &&
      r.shape.Top() == p.y / 16 * 16 + 16 && r.py == r.shape.y as real && r.vy == 0.0)
    ensures r.px == b.px && r.vx == b.vx && r.shape.x == b.shape.x && r.shape.w == b.shape.w && r.shape.h == b.shape.h && r.grounded == b.grounded
  {
    var x, y := p.x / 16, p.y / 16;
    if IsKind(m, x, y, "solid") &&
       b.shape.Top() <= y * 16 + 16 && b.shape.Right() != x * 16 && b.shape.Left() != x * 16 + 16
    then
      var s := b.shape.WithTop(y * 16 + 16);
      b.(shape := s, py := s.y as real, vy := 0.0)
    else b
  }

  function RightPass(m: Tilemap, b: Body, pts: seq<Point>): Body
    requires m.Valid()
    decreases |pts|
  {
    if pts == [] then b else RightPass(m, RightStep(m, b, pts[0]), pts[1..])
  }

  function LeftPass(m: Tilemap, b: Body, pts: seq<Point>): Body
    requires m.Valid()
    decreases |pts|
  {
    if pts == [] then b else LeftPass(m, LeftStep(m, b, pts[0]), pts[1..])
  }

  function DownPass(m: Tilemap, b: Body, pts: seq<Point>, snap: bool): Body
    requires m.Valid()
    decreases |pts|
  {
    if pts == [] then b else DownPass(m, DownStep(m, b, pts[0], snap), pts[1..], snap)
  }

  function UpPass(m: Tilemap, b: Body, pts: seq<Point>): Body
    requires m.Valid()
    decreases |pts|
  {
    if pts == [] then b else UpPass(m, UpStep(m, b, pts[0]), pts[1..])
  }

  /** Lines 229-230: advance `position.x` and truncate it into `shape.x`. */
  function AdvanceX(b: Body): Body
  {
    var px := b.px + b.vx;
    b.(px := px, shape := b.shape.(x := Trunc(px)))
  }

  /** Lines 256-259: advance `position.y`, truncate it into `shape.y` and clear `grounded`. */
  function AdvanceY(b: Body): Body
  {
    var py := b.py + b.vy;
    b.(py := py, shape := b.shape.(y := Trunc(py)), grounded := false)
  }

  /** The X half of `move_and_collide` (lines 229-254). A zero velocity takes the left
      branch. */
  function MoveX(m: Tilemap, b: Body): Body
    requires m.Valid()
  {
    var b1 := AdvanceX(b);
    if b.vx > 0.0 then RightPass(m, b1, RightPoints(b1.shape))
    else LeftPass(m, b1, LeftPoints(b1.shape))
  }

  /** The Y half of `move_and_collide` (lines 256-294). A zero velocity takes the top
      branch. */
  function MoveY(m: Tilemap, b: Body): Body
    requires m.Valid()
  {
    var b1 := AdvanceY(b);
    if b.vy > 0.0 then DownPass(m, b1, BottomPoints(b1.shape), b.grounded)
    else UpPass(m, b1, TopPoints(b1.shape))
  }

  /** `move_and_collide`: X fully resolved, then Y against the resolved X. */
  function Resolved(m: Tilemap, b: Body): Body
    requires m.Valid()
  {
    MoveY(m, MoveX(m, b))
  }

  // ---------------------------------------------------------------------------------------
  // Reference definitions: which sampled point blocks, judged on the shape the pass starts
  // from, and where a block leaves the body. The overlap comparisons are absent here.

  /** A rightward or leftward sample blocks: a solid tile and no flush seam. */
  predicate SideBlocks(m: Tilemap, s: Rect, p: Point)
    requires m.Valid()
  {
    var y := p.y / 16;
    IsKind(m, p.x / 16, y, "solid") && s.Bottom() != y * 16 && s.Top() != y * 16 + 16
  }

  /** A downward sample blocks: a solid tile, or a semisolid one whose top lies at most 8
      pixels above the probe, and no flush seam. */
  predicate DownBlocks(m: Tilemap, s: Rect, p: Point, snap: bool)
    requires m.Valid()
  {
    var x := p.x / 16;
    var y := (p.y + SnapOffset(snap)) / 16;
    s.Right() != x * 16 && s.Left() != x * 16 + 16 &&
    (IsKind(m, x, y, "solid") || (IsKind(m, x, y, "semisolid") && s.Bottom() + SnapOffset(snap) <= y * 16 + 8))
  }

  /** An upward sample blocks: a solid tile and no flush seam. */
  predicate UpBlocks(m: Tilemap, s: Rect, p: Point)
    requires m.Valid()
  {
    var x := p.x / 16;
    IsKind(m, x, p.y / 16, "solid") && s.Right() != x * 16 && s.Left() != x * 16 + 16
  }

  /** Right edge `e` stopped at the left boundary of its column. */
  function StoppedRight(b: Body, e: int): Body
  {
    var s := b.shape.WithRight((e / 16) * 16);
    b.(shape := s, px := s.x as real, vx := 0.0)
  }

  /** Left edge `e` stopped at the right boundary of its column. */
  function StoppedLeft(b: Body, e: int): Body
  {
    var s := b.shape.WithLeft((e / 16) * 16 + 16);
    b.(shape := s, px := s.x as real, vx := 0.0)
  }

  /** Bottom edge `e` (probed `snap` pixels lower) landed on the top of the probed row. */
  function Landed(b: Body, e: int, snap: bool): Body
  {
    var s := b.shape.WithBottom(((e + SnapOffset(snap)) / 16) * 16);
    b.(shape := s, grounded := true, py := s.y as real, vy := 0.0)
  }

  /** Top edge `e` stopped at the bottom boundary of its row. */
  function Bumped(b: Body, e: int): Body
  {
    var s := b.shape.WithTop((e / 16) * 16 + 16);
    b.(shape := s, py := s.y as real, vy := 0.0)
  }

  // ---------------------------------------------------------------------------------------
  // Each pass equals its reference: the overlap comparisons never decide anything.

  /** For a sampled cell of the right edge, `right >= x * 16` holds both before and after a
      stop: a stopped body is left as it is by every further sample. */
  lemma {:induction false} StoppedRightIsStable(m: Tilemap, b: Body, pts: seq<Point>, e: int)
    requires m.Valid()
    requires forall p :: p in pts ==> p.x == e
    requires b == StoppedRight(b, e)
    ensures RightPass(m, b, pts) == b
  {
    if pts != [] {
      assert RightStep(m, b, pts[0]) == b;
      StoppedRightIsStable(m, b, pts[1..], e);
    }
  }

  lemma {:induction false} RightPassBlocksIff(m: Tilemap, b: Body, pts: seq<Point>)
    requires m.Valid()
    requires forall p :: p in pts ==> p.x == b.shape.Right()
    ensures RightPass(m, b, pts) ==
      if exists p :: p in pts && SideBlocks(m, b.shape, p) then StoppedRight(b, b.shape.Right()) else b
  {
    if pts != [] {
      var e := b.shape.Right();
      assert (e / 16) * 16 <= e;
      if SideBlocks(m, b.shape, pts[0]) {
        assert RightStep(m, b, pts[0]) == StoppedRight(b, e);
        StoppedRightIsStable(m, StoppedRight(b, e), pts[1..], e);
      } else {
        assert RightStep(m, b, pts[0]) == b;
        RightPassBlocksIff(m, b, pts[1..]);
        assert forall p :: p in pts && p != pts[0] ==> p in pts[1..];
      }
    }
  }

  lemma {:induction false} StoppedLeftIsStable(m: Tilemap, b: Body, pts: seq<Point>, e: int)
    requires m.Valid()
    requires forall p :: p in pts ==> p.x == e
    requires b == StoppedLeft(b, e)
    ensures LeftPass(m, b, pts) == b
  {
    if pts != [] {
      assert LeftStep(m, b, pts[0]) == b;
      StoppedLeftIsStable(m, b, pts[1..], e);
    }
  }

  lemma {:induction false} LeftPassBlocksIff(m: Tilemap, b: Body, pts: seq<Point>)
    requires m.Valid()
    requires forall p :: p in pts ==> p.x == b.shape.Left()
    ensures LeftPass(m, b, pts) ==
      if exists p :: p in pts && SideBlocks(m, b.shape, p) then StoppedLeft(b, b.shape.Left()) else b
  {
    if pts != [] {
      var e := b.shape.Left();
      assert e < (e / 16) * 16 + 16;
      if SideBlocks(m, b.shape, pts[0]) {
        assert LeftStep(m, b, pts[0]) == StoppedLeft(b, e);
        StoppedLeftIsStable(m, StoppedLeft(b, e), pts[1..], e);
      } else {
        assert LeftStep(m, b, pts[0]) == b;
        LeftPassBlocksIff(m, b, pts[1..]);
        assert forall p :: p in pts && p != pts[0] ==> p in pts[1..];
      }
    }
  }

  lemma {:induction false} LandedIsStable(m: Tilemap, b: Body, pts: seq<Point>, e: int, snap: bool)
    requires m.Valid()
    requires forall p :: p in pts ==> p.y == e
    requires b == Landed(b, e, snap)
    ensures DownPass(m, b, pts, snap) == b
  {
    if pts != [] {
      assert DownStep(m, b, pts[0], snap) == b;
      LandedIsStable(m, b, pts[1..], e, snap);
    }
  }

  lemma {:induction false} DownPassBlocksIff(m: Tilemap, b: Body, pts: seq<Point>, snap: bool)
    requires m.Valid()
    requires forall p :: p in pts ==> p.y == b.shape.Bottom()
    ensures DownPass(m, b, pts, snap) ==
      if exists p :: p in pts && DownBlocks(m, b.shape, p, snap) then Landed(b, b.shape.Bottom(), snap) else b
  {
    if pts != [] {
      var e := b.shape.Bottom();
      var o := SnapOffset(snap);
      assert ((e + o) / 16) * 16 <= e + o;
      if DownBlocks(m, b.shape, pts[0], snap) {
        assert DownStep(m, b, pts[0], snap) == Landed(b, e, snap);
        LandedIsStable(m, Landed(b, e, snap), pts[1..], e, snap);
      } else {
        assert DownStep(m, b, pts[0], snap) == b;
        DownPassBlocksIff(m, b, pts[1..], snap);
        assert forall p :: p in pts && p != pts[0] ==> p in pts[1..];
      }
    }
  }

  lemma {:induction false} BumpedIsStable(m: Tilemap, b: Body, pts: seq<Point>, e: int)
    requires m.Valid()
    requires forall p :: p in pts ==> p.y == e
    requires b == Bumped(b, e)
    ensures UpPass(m, b, pts) == b
  {
    if pts != [] {
      assert UpStep(m, b, pts[0]) == b;
      BumpedIsStable(m, b, pts[1..], e);
    }
  }

  lemma {:induction false} UpPassBlocksIff(m: Tilemap, b: Body, pts: seq<Point>)
    requires m.Valid()
    requires forall p :: p in pts ==> p.y == b.shape.Top()
    ensures UpPass(m, b, pts) ==
      if exists p :: p in pts && UpBlocks(m, b.shape, p) then Bumped(b, b.shape.Top()) else b
  {
    if pts != [] {
      var e := b.shape.Top();
      assert e < (e / 16) * 16 + 16;
      if UpBlocks(m, b.shape, pts[0]) {
        assert UpStep(m, b, pts[0]) == Bumped(b, e);
        BumpedIsStable(m, Bumped(b, e), pts[1..], e);
      } else {
        assert UpStep(m, b, pts[0]) == b;
        UpPassBlocksIff(m, b, pts[1..]);
        assert forall p :: p in pts && p != pts[0] ==> p in pts[1..];
      }
    }
  }

  // ---------------------------------------------------------------------------------------
  // What one call of `move_and_collide` does, axis by axis.

  /** X pass: a rightward body stops with its right edge on the left boundary of the sampled
      column, `position.x == shape.x` and `velocity.x == 0`, exactly when one of its right-edge
      samples is a solid tile whose row is not flush with the body's top or bottom; a
      leftward or motionless body likewise on its left edge. Non-solid tiles never block. */
  lemma MoveXBlocksIff(m: Tilemap, b: Body)
    requires m.Valid()
    ensures var b1 := AdvanceX(b);
      MoveX(m, b) ==
        if b.vx > 0.0 then
          if exists p :: p in RightPoints(b1.shape) && SideBlocks(m, b1.shape, p)
          then StoppedRight(b1, b1.shape.Right()) else b1
        else
          if exists p :: p in LeftPoints(b1.shape) && SideBlocks(m, b1.shape, p)
          then StoppedLeft(b1, b1.shape.Left()) else b1
  {
    var b1 := AdvanceX(b);
    if b.vx > 0.0 {
      RightPassBlocksIff(m, b1, RightPoints(b1.shape));
    } else {
      LeftPassBlocksIff(m, b1, LeftPoints(b1.shape));
    }
  }

  /** Y pass: `grounded` is cleared first. A falling body lands (bottom on the top of the
      probed row, `grounded`, `velocity.y == 0`) exactly when a bottom sample, probed 4 pixels
      lower if it was grounded, meets a solid tile or a semisolid one within 8 pixels, away
      from a flush column seam. A rising or motionless body is stopped only by solid tiles. */
  lemma MoveYBlocksIff(m: Tilemap, b: Body)
    requires m.Valid()
    ensures var b1 := AdvanceY(b);
      MoveY(m, b) ==
        if b.vy > 0.0 then
          if exists p :: p in BottomPoints(b1.shape) && DownBlocks(m, b1.shape, p, b.grounded)
          then Landed(b1, b1.shape.Bottom(), b.grounded) else b1
        else
          if exists p :: p in TopPoints(b1.shape) && UpBlocks(m, b1.shape, p)
          then Bumped(b1, b1.shape.Top()) else b1
  {
    var b1 := AdvanceY(b);
    if b.vy > 0.0 {
      DownPassBlocksIff(m, b1, BottomPoints(b1.shape), b.grounded);
    } else {
      UpPassBlocksIff(m, b1, TopPoints(b1.shape));
    }
  }

  /** After a call, `grounded` holds exactly when the body was falling and landed this tick. */
  lemma GroundedIffLanded(m: Tilemap, b: Body)
    requires m.Valid()
    ensures var b1 := AdvanceY(MoveX(m, b));
      Resolved(m, b).grounded <==>
        b.vy > 0.0 && exists p :: p in BottomPoints(b1.shape) && DownBlocks(m, b1.shape, p, b.grounded)
  {
    MoveXBlocksIff(m, b);
    MoveYBlocksIff(m, MoveX(m, b));
  }

  lemma TruncOfInteger(k: int)
    ensures Trunc(k as real) == k
  {
  }

  /** The X half keeps the size, leaves the Y axis alone and makes `shape.x` the truncation of
      `position.x`. */
  lemma MoveXTracksPosition(m: Tilemap, b: Body)
    requires m.Valid()
    ensures var r := MoveX(m, b);
      r.shape.w == b.shape.w && r.shape.h == b.shape.h &&
      r.shape.y == b.shape.y && r.py == b.py && r.vy == b.vy && r.grounded == b.grounded &&
      r.shape.x == Trunc(r.px)
  {
    MoveXBlocksIff(m, b);
    var b1 := AdvanceX(b);
    TruncOfInteger(StoppedRight(b1, b1.shape.Right()).shape.x);
    TruncOfInteger(StoppedLeft(b1, b1.shape.Left()).shape.x);
  }

  /** The Y half keeps the size, leaves the X axis alone and makes `shape.y` the truncation of
      `position.y`. */
  lemma MoveYTracksPosition(m: Tilemap, b: Body)
    requires m.Valid()
    ensures var r := MoveY(m, b);
      r.shape.w == b.shape.w && r.shape.h == b.shape.h &&
      r.shape.x == b.shape.x && r.px == b.px && r.vx == b.vx &&
      r.shape.y == Trunc(r.py)
  {
    MoveYBlocksIff(m, b);
    var b1 := AdvanceY(b);
    TruncOfInteger(Landed(b1, b1.shape.Bottom(), b.grounded).shape.y);
    TruncOfInteger(Bumped(b1, b1.shape.Top()).shape.y);
  }

  /** After a call, `shape` has its old size and is the truncation of `position` on both
      axes. */
  lemma ShapeTracksPosition(m: Tilemap, b: Body)
    requires m.Valid()
    ensures var r := Resolved(m, b);
      r.shape.w == b.shape.w && r.shape.h == b.shape.h &&
      r.shape.x == Trunc(r.px) && r.shape.y == Trunc(r.py)
  {
    MoveXTracksPosition(m, b);
    MoveYTracksPosition(m, MoveX(m, b));
  }

  /** A body in free space moves by its velocity on both axes; `grounded` is cleared. */
  lemma FreeFlight(m: Tilemap, b: Body)
    requires m.Valid()
    requires forall x, y :: !IsKind(m, x, y, "solid") && !IsKind(m, x, y, "semisolid")
    ensures Resolved(m, b) == AdvanceY(AdvanceX(b))
  {
    MoveXBlocksIff(m, b);
    MoveYBlocksIff(m, MoveX(m, b));
  }

  /** `Kinematic`: the body a level moves. `colliding` is only ever reset to the empty list in
      this code. */
  class Kinematic {
    var px: real
    var py: real
    var shape: Rect
    var vx: real
    var vy: real
    var grounded: bool
    var gravity: bool
    var colliding: seq<Rect>

    function State(): Body
      reads this
    {
      Body(px, py, shape, vx, vy, grounded)
    }

    /** `Kinematic.__init__`: at rest, not grounded, at the given integer position. */
    constructor (w: nat, h: nat, x: int, y: int, gravity: bool := true)
      ensures State() == Body(x as real, y as real, Rect(x, y, w, h), 0.0, 0.0, false)
      ensures this.gravity == gravity && colliding == []
    {
      shape := Rect(x, y, w, h);
      px, py := x as real, y as real;
      vx, vy := 0.0, 0.0;
      grounded := false;
      this.gravity := gravity;
      colliding := [];
    }

    /** `Kinematic.move_and_collide` against one tile map (the unused `dt` is dropped). */
    method MoveAndCollide(m: Tilemap)
      requires m.Valid()
      modifies this
      ensures State() == Resolved(m, old(State()))
      ensures gravity == old(gravity) && colliding == []
    {
      colliding := [];
      MoveAlongX(m);
      MoveAlongY(m);
    }

    /** Lines 229-254. */
    method MoveAlongX(m: Tilemap)
      requires m.Valid()
      modifies this`px, this`shape, this`vx
      ensures State() == MoveX(m, old(State()))
    {
      px := px + vx;
      shape := shape.(x := Trunc(px));
      ghost var b1 := State();
      if vx > 0.0 {
        var points := RightPoints(shape);
        var i := 0;
        while i < |points|
          invariant 0 <= i <= |points|
          invariant RightPass(m, State(), points[i..]) == RightPass(m, b1, points)
        {
          assert points[i..][1..] == points[i + 1..];
          SampleRight(m, points[i]);
          i := i + 1;
        }
      } else {
        var points := LeftPoints(shape);
        var i := 0;
        while i < |points|
          invariant 0 <= i <= |points|
          invariant LeftPass(m, State(), points[i..]) == LeftPass(m, b1, points)
        {
          assert points[i..][1..] == points[i + 1..];
          SampleLeft(m, points[i]);
          i := i + 1;
        }
      }
    }

    /** Lines 256-294. */
    method MoveAlongY(m: Tilemap)
      requires m.Valid()
      modifies this`py, this`shape, this`vy, this`grounded
      ensures State() == MoveY(m, old(State()))
    {
      py := py + vy;
      shape := shape.(y := Trunc(py));
      var snap := grounded;
      grounded := false;
      ghost var b2 := State();
      if vy > 0.0 {
        var points := BottomPoints(shape);
        var i := 0;
        while i < |points|
          invariant 0 <= i <= |points|
          invariant DownPass(m, State(), points[i..], snap) == DownPass(m, b2, points, snap)
        {
          assert points[i..][1..] == points[i + 1..];
          SampleBottom(m, points[i], snap);
          i := i + 1;
        }
      } else {
        var points := TopPoints(shape);
        var i := 0;
        while i < |points|
          invariant 0 <= i <= |points|
          invariant UpPass(m, State(), points[i..]) == UpPass(m, b2, points)
        {
          assert points[i..][1..] == points[i + 1..];
          SampleTop(m, points[i]);
          i := i + 1;
        }
      }
    }

    /** One pass of the downward sampling loop (lines 264-282). */
    method SampleBottom(m: Tilemap, p: Point, snap: bool)
      requires m.Valid()
      modifies this`py, this`shape, this`vy, this`grounded
      ensures State() == DownStep(m, old(State()), p, snap)
    {
      var x := p.x / 16;
      var y, bottom;
      if snap {
        y := (p.y + 4) / 16;
        bottom := shape.Bottom() + 4;
      } else {
        y := p.y / 16;
        bottom := shape.Bottom();
      }
      var tile := GetInfoAt(m, x, y);
      if tile.Some? {
        if tile.value.tileType == Some("solid") && bottom >= y * 16 &&
           shape.Right() != x * 16 && shape.Left() != x * 16 + 16 {
          shape := shape.WithBottom(y * 16);
          grounded := true;
          py := shape.y as real;
          vy := 0.0;
        } else if tile.value.tileType == Some("semisolid") && y * 16 + 8 >= bottom >= y * 16 &&
           shape.Right() != x * 16 && shape.Left() != x * 16 + 16 {
          shape := shape.WithBottom(y * 16);
          grounded := true;
          py := shape.y as real;
          vy := 0.0;
        }
      }
    }

    /** One pass of the rightward sampling loop (lines 235-242). */
    method SampleRight(m: Tilemap, p: Point)
      requires m.Valid()
      modifies this`px, this`shape, this`vx
      ensures State() == RightStep(m, old(State()), p)
    {
      var x, y := p.x / 16, p.y / 16;
      var tile := GetInfoAt(m, x, y);
      if tile.Some? && tile.value.tileType == Some("solid") {
        if shape.Right() >= x * 16 && shape.Bottom() != y * 16 && shape.Top() != y * 16 + 16 {
          shape := shape.WithRight(x * 16);
          px := shape.x as real;
          vx := 0.0;
        }
      }
    }

    /** One pass of the leftward sampling loop (lines 247-254). */
    method SampleLeft(m: Tilemap, p: Point)
      requires m.Valid()
      modifies this`px, this`shape, this`vx
      ensures State() == LeftStep(m, old(State()), p)
    {
      var x, y := p.x / 16, p.y / 16;
      var tile := GetInfoAt(m, x, y);
      if tile.Some? && tile.value.tileType == Some("solid") {
        if shape.Left() <= x * 16 + 16 && shape.Bottom() != y * 16 && shape.Top() != y * 16 + 16 {
          shape := shape.WithLeft(x * 16 + 16);
          px := shape.x as real;
          vx := 0.0;
        }
      }
    }

    /** One pass of the upward sampling loop (lines 287-294). */
    method SampleTop(m: Tilemap, p: Point)
      requires m.Valid()
      modifies this`py, this`shape, this`vy
      ensures State() == UpStep(m, old(State()), p)
    {
      var x, y := p.x / 16, p.y / 16;
      var tile := GetInfoAt(m, x, y);
      if tile.Some? && tile.value.tileType == Some("solid") {
        if shape.Top() <= y * 16 + 16 && shape.Right() != x * 16 && shape.Left() != x * 16 + 16 {
          shape := shape.WithTop(y * 16 + 16);
          py := shape.y as real;
          vy := 0.0;
        }
      }
    }
  }
}
