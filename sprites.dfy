/** nodes.py: `AnimatedSprite` frame bookkeeping. The chosen texture is modelled as the index
    into the sprite sheet (`animations[current][frame]`); the sheet's surfaces are not modelled. */
module Sprites {
  import opened Wrappers

  /** One section of an animation: a sheet index shown for `duration` ticks. */
  datatype Section = Section(frame: int, duration: int)

  /** Python's `[x] * n`: empty for `n <= 0`. */
  function Repeat(x: int, n: int): (r: seq<int>)
    ensures |r| == if n > 0 then n else 0
    ensures forall i :: 0 <= i < |r| ==> r[i] == x
  {
    if n <= 0 then [] else Repeat(x, n - 1) + [x]
  }

  /** The ticks an animation lasts: the sum of its (non-negative) section durations. */
  function TotalDuration(data: seq<Section>): int
  {
    if data == [] then 0
    else TotalDuration(data[..|data| - 1]) + (if data[|data| - 1].duration > 0 then data[|data| - 1].duration else 0)
  }

  /** The frame list of one animation: each section's index repeated `duration` times. */
  function Expand(data: seq<Section>): (frames: seq<int>)
  {
    if data == [] then []
    else Expand(data[..|data| - 1]) + Repeat(data[|data| - 1].frame, data[|data| - 1].duration)
  }

  /** An expanded animation is as long as the sum of its durations, and every tick shows the
      index of some section. */
  lemma {:induction false} ExpandLength(data: seq<Section>)
    ensures |Expand(data)| == TotalDuration(data)
    ensures forall k :: 0 <= k < |Expand(data)| ==> exists i :: 0 <= i < |data| && Expand(data)[k] == data[i].frame
  {
    if data != [] {
      var init := data[..|data| - 1];
      ExpandLength(init);
      forall k | 0 <= k < |Expand(data)|
        ensures exists i :: 0 <= i < |data| && Expand(data)[k] == data[i].frame
      {
        if k < |Expand(init)| {
          var i :| 0 <= i < |init| && Expand(init)[k] == init[i].frame;
          assert Expand(data)[k] == data[i].frame;
        } else {
          assert Expand(data)[k] == data[|data| - 1].frame;
        }
      }
    }
  }

  /** The inner loop of `AnimatedSprite.__init__` for one animation. */
  method ExpandSections(data: seq<Section>) returns (frames: seq<int>)
    ensures frames == Expand(data)
  {
    frames := [];
    var i := 0;
    while i < |data|
      invariant 0 <= i <= |data|
      invariant frames == Expand(data[..i])
    {
      assert data[..i + 1][..i] == data[..i];
      frames := frames + Repeat(data[i].frame, data[i].duration);
      i := i + 1;
    }
    assert data[..|data|] == data;
  }

  /** What one `next()` call shows and leaves in the frame counter when the queued animation
      (of length `len`) is already the current one: the counter wraps to 0 once exhausted. */
  function Advance(frame: int, len: nat): (r: (nat, int))
    requires 0 <= frame
    requires len > 0
    ensures r.0 < len && r.1 == r.0 + 1
    ensures frame < len ==> r.0 == frame
    ensures frame >= len ==> r.0 == 0
  {
    var shown := if frame >= len then 0 else frame;
    (shown, shown + 1)
  }

  /** The frame counter after a `next()` that switched animation followed by `k` more calls. */
  function CounterAfter(len: nat, k: nat): int
    requires len > 0
  {
    if k == 0 then 1 else Advance(CounterAfter(len, k - 1), len).1
  }

  /** Within the first pass over an animation, the `k`-th further call shows tick `k`; the
      call after the last tick shows tick 0 again. */
  lemma {:induction false} CounterCountsUp(len: nat, k: nat)
    requires len > 0 && k < len
    ensures CounterAfter(len, k) == k + 1
    ensures 0 < k ==> Advance(CounterAfter(len, k - 1), len).0 == k
    ensures k == len - 1 ==> Advance(CounterAfter(len, k), len) == (0, 1)
  {
    if k > 0 {
      CounterCountsUp(len, k - 1);
    }
  }

  /** The frame counter repeats with period `len`: the sprite cycles through its frame list. */
  lemma {:induction false} CounterPeriodic(len: nat, k: nat)
    requires len > 0
    ensures 1 <= CounterAfter(len, k) <= len
    ensures CounterAfter(len, k + len) == CounterAfter(len, k)
  {
    if k == 0 {
      CounterCountsUp(len, len - 1);
      assert CounterAfter(len, len) == Advance(CounterAfter(len, len - 1), len).1;
    } else {
      CounterPeriodic(len, k - 1);
      assert CounterAfter(len, k + len) == Advance(CounterAfter(len, k - 1 + len), len).1;
    }
  }

  class AnimatedSprite {
    const animations: map<string, seq<int>>
    var current: Option<string>
    var queue: string
    var frame: int
    /** The sheet index last chosen by `next()`. */
    var texture: Option<int>

    /** The frame counter never runs past the current animation. */
    predicate Valid()
      reads this
    {
      0 <= frame &&
      (current.Some? ==> current.value in animations && frame <= |animations[current.value]|)
    }

    /** `AnimatedSprite.__init__`: every animation expanded, nothing current yet, `default`
        queued. */
    constructor (frames: map<string, seq<Section>>, default: string)
      ensures animations == map a | a in frames :: Expand(frames[a])
      ensures current == None && queue == default && frame == 0 && texture == None
      ensures Valid()
    {
      var built: map<string, seq<int>> := map[];
      var todo := frames.Keys;
      while todo != {}
        invariant todo <= frames.Keys
        invariant built.Keys == frames.Keys - todo
        invariant forall a :: a in built ==> built[a] == Expand(frames[a])
        decreases todo
      {
        var a :| a in todo;
        var list := ExpandSections(frames[a]);
        built := built[a := list];
        todo := todo - {a};
      }
      animations := built;
      current := None;
      queue := default;
      frame := 0;
      texture := None;
    }

    /** `AnimatedSprite.next`: switch to the queued animation from its start, or advance the
        current one, wrapping when it is exhausted. Python raises for a queued name that is not
        an animation or for an empty animation, hence the requirements. */
    method Next()
      requires Valid()
      requires queue in animations && |animations[queue]| > 0
      modifies this`current, this`frame, this`texture
      ensures Valid()
      ensures current == Some(queue)
      ensures 1 <= frame <= |animations[queue]|
      ensures old(current) != Some(queue) ==> texture == Some(animations[queue][0]) && frame == 1
      ensures old(current) == Some(queue) ==>
        var (shown, counter) := Advance(old(frame), |animations[queue]|);
        texture == Some(animations[queue][shown]) && frame == counter
    {
      if Some(queue) != current {
        current := Some(queue);
        frame := 0;
      } else if frame >= |animations[queue]| {
        frame := 0;
      }
      texture := Some(animations[queue][frame]);
      frame := frame + 1;
    }

    /** `AnimatedSprite.play`: queue an animation for the next call to `next()`. */
    method Play(animation: string)
      modifies this`queue
      ensures queue == animation
    {
      queue := animation;
    }
  }
}
