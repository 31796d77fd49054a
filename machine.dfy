/** nodes.py: the generic `State` transition list and `StateMachine` (registry, current state,
    `process`, `set`, `current`), driving the player states of states.py. */
module Machine {
  import opened Wrappers
  import opened PlayerStates
  import Sprites

  /** Each entry of `r` comes from some slot of `registry`, and every state of `s`'s declared
      list registered before that slot is already among the entries before it. */
  ghost predicate InRegistrationOrder(registry: seq<StateName>, s: StateName, r: seq<StateName>)
  {
    forall i :: 0 <= i < |r| ==> ComesInOrder(registry, s, r, i)
  }

  /** Entry `i` of `r` sits at a slot of `registry` before which every declared state is
      already among the first `i` entries. */
  ghost predicate ComesInOrder(registry: seq<StateName>, s: StateName, r: seq<StateName>, i: nat)
    requires i < |r|
  {
    exists k :: 0 <= k < |registry| && registry[k] == r[i] &&
      forall j :: 0 <= j < k && registry[j] in Declared(s) ==> registry[j] in r[..i]
  }

  /** `t` sits in `registry` at a slot before which every declared successor of the current
      state fails its guard on `e`. */
  ghost predicate FirstPassing(registry: seq<StateName>, e: Snapshot, t: StateName)
  {
    exists k :: 0 <= k < |registry| && registry[k] == t &&
      forall j :: 0 <= j < k && registry[j] in Declared(e.current) ==> !Check(registry[j], e)
  }

  /** `State.__init__`: the machine's registration list filtered by membership in the declared
      transitions, so successors come in REGISTRATION order, not in declaration order. */
  function Successors(registry: seq<StateName>, s: StateName): (r: seq<StateName>)
    ensures forall t :: t in r <==> t in registry && t in Declared(s)
    ensures |r| <= |registry|
  {
    if registry == [] then []
    else
      var front := registry[..|registry| - 1];
      var rest := Successors(front, s);
      var last := registry[|registry| - 1];
      assert registry == front + [last];
      if last in Declared(s) then rest + [last] else rest
  }

  /** One registry slot more: the filtered list grows by that state when it is declared, and
      stays in registration order. */
  lemma OrderedExtend(front: seq<StateName>, last: StateName, s: StateName, rest: seq<StateName>)
    requires InRegistrationOrder(front, s, rest)
    requires forall t :: t in rest <==> t in front && t in Declared(s)
    ensures InRegistrationOrder(front + [last], s, if last in Declared(s) then rest + [last] else rest)
  {
    var registry := front + [last];
    var r := if last in Declared(s) then rest + [last] else rest;
    forall i | 0 <= i < |r|
      ensures ComesInOrder(registry, s, r, i)
    {
      if i < |rest| {
        assert r[..i] == rest[..i];
        assert ComesInOrder(front, s, rest, i);
        var k :| 0 <= k < |front| && front[k] == rest[i] &&
          forall j :: 0 <= j < k && front[j] in Declared(s) ==> front[j] in rest[..i];
        assert registry[k] == r[i];
      } else {
        assert r[..i] == rest;
        assert registry[|front|] == r[i];
      }
    }
  }

  /** `State.__init__` keeps registration order: every successor comes from a registry slot
      before which each registered declared successor is already listed. */
  lemma {:induction false} SuccessorsInRegistrationOrder(registry: seq<StateName>, s: StateName)
    ensures InRegistrationOrder(registry, s, Successors(registry, s))
  {
    if registry != [] {
      var front := registry[..|registry| - 1];
      SuccessorsInRegistrationOrder(front, s);
      assert registry == front + [registry[|registry| - 1]];
      OrderedExtend(front, registry[|registry| - 1], s, Successors(front, s));
    }
  }

  /** `self.states.get(name)`: the registered state with that class name, if any. */
  function Lookup(registry: seq<StateName>, name: string): (r: Option<StateName>)
    ensures forall s :: r == Some(s) <==> s in registry && Name(s) == name
  {
    var s := FromName(name);
    if s.Some? && s.value in registry then s else None
  }

  /** The first candidate, in order, whose guard holds. */
  function FirstMatch(candidates: seq<StateName>, e: Snapshot): (r: Option<StateName>)
    ensures r.None? <==> forall i :: 0 <= i < |candidates| ==> !Check(candidates[i], e)
    ensures r.Some? ==>
      exists i :: 0 <= i < |candidates| && candidates[i] == r.value &&
        Check(r.value, e) && forall j :: 0 <= j < i ==> !Check(candidates[j], e)
  {
    if candidates == [] then None
    else if Check(candidates[0], e) then Some(candidates[0])
    else
      var r := FirstMatch(candidates[1..], e);
      assert forall i :: 1 <= i < |candidates| ==> candidates[1..][i - 1] == candidates[i];
      r
  }

  /** The candidate reached when the guards before it fail and its own holds. */
  lemma FirstMatchAt(candidates: seq<StateName>, e: Snapshot, i: nat)
    requires i < |candidates| && Check(candidates[i], e)
    requires forall j :: 0 <= j < i ==> !Check(candidates[j], e)
    ensures FirstMatch(candidates, e) == Some(candidates[i])
  {
    var r := FirstMatch(candidates, e);
    var k :| 0 <= k < |candidates| && candidates[k] == r.value &&
      Check(r.value, e) && forall j :: 0 <= j < k ==> !Check(candidates[j], e);
    assert k == i;
  }

  /** When the successors before position `i` all fail their guards, so does every declared
      state registered before the slot that successor `i` comes from. */
  lemma EarlierSuccessorsFail(registry: seq<StateName>, e: Snapshot, i: nat)
    requires i < |Successors(registry, e.current)|
    requires forall j :: 0 <= j < i ==> !Check(Successors(registry, e.current)[j], e)
    ensures FirstPassing(registry, e, Successors(registry, e.current)[i])
  {
    var succ := Successors(registry, e.current);
    SuccessorsInRegistrationOrder(registry, e.current);
    assert ComesInOrder(registry, e.current, succ, i);
    var k :| 0 <= k < |registry| && registry[k] == succ[i] &&
      forall j :: 0 <= j < k && registry[j] in Declared(e.current) ==> registry[j] in succ[..i];
    assert forall t :: t in succ[..i] ==> !Check(t, e);
  }

  /** The target of one `process` call, if any: the first successor of `current`, in
      registration order, whose guard holds on the snapshot. */
  function NextState(registry: seq<StateName>, e: Snapshot): (r: Option<StateName>)
    ensures r.Some? ==> r.value in registry && r.value in Declared(e.current) && Check(r.value, e) && r.value != e.current
    ensures r.None? <==> forall t :: t in registry && t in Declared(e.current) ==> !Check(t, e)
    // the FIRST one: every declared state registered before the target fails its guard
    ensures r.Some? ==> FirstPassing(registry, e, r.value)
  {
    var succ := Successors(registry, e.current);
    var r := FirstMatch(succ, e);
    assert forall t :: t in succ ==> exists i :: 0 <= i < |succ| && succ[i] == t;
    assert r.Some? ==> FirstPassing(registry, e, r.value) by {
      if r.Some? {
        var i :| 0 <= i < |succ| && succ[i] == r.value &&
          Check(r.value, e) && forall j :: 0 <= j < i ==> !Check(succ[j], e);
        EarlierSuccessorsFail(registry, e, i);
      }
    }
    r
  }

  /** `Dead` declares no transitions: `process` never leaves it. */
  lemma DeadIsSink(registry: seq<StateName>, e: Snapshot)
    requires e.current == Dead
    ensures NextState(registry, e) == None
  {
  }

  /** Guards never start climbing: from a state other than the climb states, `process` never
      reaches one of them. */
  lemma ProcessNeverStartsClimbing(registry: seq<StateName>, e: Snapshot)
    requires !IsClimbing(e.current)
    ensures NextState(registry, e).Some? ==> !IsClimbing(NextState(registry, e).value)
  {
    if NextState(registry, e).Some? && IsClimbing(NextState(registry, e).value) {
      OnlyClimbStatesListClimbing(e.current, NextState(registry, e).value);
    }
  }

  /** A walking body that is grounded, stopped horizontally and not rising always goes to
      `Idle`, whatever the registration order. */
  lemma {:induction false} WalkStopsInIdle(registry: seq<StateName>, e: Snapshot)
    requires Idle in registry
    requires e.current == Walk && e.grounded && e.vx == 0.0 && e.vy >= 0.0
    ensures NextState(registry, e) == Some(Idle)
  {
    assert Idle in Declared(Walk) && Check(Idle, e);
    var r := NextState(registry, e);
    assert r.value in Declared(Walk);
  }

  /** The registration order, not the order a state lists its transitions in, decides between
      two guards that hold: Jump comes before Skid in `Walk`'s list, but with Skid registered
      first a skidding jump from `Walk` goes to Skid. */
  lemma RegistrationOrderDecides()
    ensures var e := Snapshot(Walk, true, 1.0, -1.0, -1.0, false);
      FirstMatch(Declared(Walk), e) == Some(Jump) &&
      NextState([Walk, Skid, Jump], e) == Some(Skid)
  {
    var e := Snapshot(Walk, true, 1.0, -1.0, -1.0, false);
    assert [Walk, Skid][..1] == [Walk];
    assert [Walk, Skid, Jump][..2] == [Walk, Skid];
    assert Successors([Walk, Skid, Jump], Walk) == [Skid, Jump];
    FirstMatchAt([Skid, Jump], e, 0);
    FirstMatchAt(Declared(Walk), e, 1);
  }

  /** The entity the hooks act on: its gravity switch, its timer and its animated sprite. */
  class Entity {
    var gravity: bool
    var timer: int
    const sprite: Sprites.AnimatedSprite

    /** The fields the hooks write, the queued animation standing for the sprite. */
    function HookFields(): Effects
      reads this, sprite
    {
      Effects(gravity, timer, sprite.queue)
    }

    constructor (gravity: bool, timer: int, sprite: Sprites.AnimatedSprite)
      ensures this.gravity == gravity && this.timer == timer && this.sprite == sprite
    {
      this.gravity := gravity;
      this.timer := timer;
      this.sprite := sprite;
    }
  }

  /** A state's `enter(entity)`. */
  method Enter(s: StateName, entity: Entity)
    modifies entity, entity.sprite`queue
    ensures entity.HookFields() == EnterEffects(s, old(entity.HookFields()))
  {
    match s
    case Dead =>
      entity.timer := 0;
      entity.sprite.Play("dead");
    case ClimbIdle =>
      entity.gravity := false;
      entity.sprite.Play("climb_idle");
    case ClimbMove =>
      entity.gravity := false;
      entity.sprite.Play("climb_move");
    case _ =>
      entity.sprite.Play(AnimationOf(s));
  }

  /** A state's `exit(entity)`. */
  method Exit(s: StateName, entity: Entity)
    modifies entity
    ensures entity.HookFields() == ExitEffects(s, old(entity.HookFields()))
  {
    if s == ClimbIdle || s == ClimbMove {
      entity.gravity := true;
    }
  }

  /** A hook invocation, for stating which hooks a call runs and in what order. */
  datatype Hook = ExitHook(s: StateName) | EnterHook(s: StateName)

  class StateMachine {
    const entity: Entity
    const registry: seq<StateName>
    var state: StateName
    /** The hooks run so far, oldest first. */
    ghost var hooks: seq<Hook>

    /** The machine is always in one of its registered states. */
    predicate Valid()
      reads this
    {
      state in registry
    }

    /** `StateMachine.__init__`: Python raises unless the initial name is registered. */
    constructor (entity: Entity, registry: seq<StateName>, initial: string)
      requires Lookup(registry, initial).Some?
      ensures this.entity == entity && this.registry == registry
      ensures state == Lookup(registry, initial).value && hooks == []
      ensures Valid()
    {
      this.entity := entity;
      this.registry := registry;
      state := Lookup(registry, initial).value;
      hooks := [];
    }

    /** `StateMachine.current(name)` */
    function Current(name: string): (r: bool)
      reads this
      ensures Valid() ==> (r <==> name == Name(state))
    {
      Lookup(registry, name) == Some(state)
    }

    /** `StateMachine.set`: an unregistered name, or the current state's own name, changes
        nothing and runs no hook; otherwise the old state's exit runs, the state switches and
        the new state's enter runs, each once and in that order. */
    method Set(name: string)
      modifies this, entity, entity.sprite`queue
      ensures var target := Lookup(registry, name);
        if target.None? || target.value == old(state) then
          state == old(state) && hooks == old(hooks) && entity.HookFields() == old(entity.HookFields())
        else
          state == target.value &&
          hooks == old(hooks) + [ExitHook(old(state)), EnterHook(target.value)] &&
          entity.HookFields() == EnterEffects(target.value, ExitEffects(old(state), old(entity.HookFields())))
      ensures old(Valid()) ==> Valid()
    {
      var target := Lookup(registry, name);
      if target.Some? && state != target.value {
        Exit(state, entity);
        hooks := hooks + [ExitHook(state)];
        state := target.value;
        Enter(state, entity);
        hooks := hooks + [EnterHook(state)];
      }
    }

    /** `StateMachine.process`: at most one transition, to the first successor (in
        registration order) whose guard holds; none holding leaves everything unchanged. */
    method Process(grounded: bool, vx: real, vy: real, ivx: real, nearLadder: bool)
      modifies this, entity, entity.sprite`queue
      ensures var next := NextState(registry, Snapshot(old(state), grounded, vx, vy, ivx, nearLadder));
        if next.None? then
          state == old(state) && hooks == old(hooks) && entity.HookFields() == old(entity.HookFields())
        else
          state == next.value &&
          hooks == old(hooks) + [ExitHook(old(state)), EnterHook(next.value)] &&
          entity.HookFields() == EnterEffects(next.value, ExitEffects(old(state), old(entity.HookFields())))
      ensures old(Valid()) ==> Valid()
    {
      var e := Snapshot(state, grounded, vx, vy, ivx, nearLadder);
      var transitions := Successors(registry, state);
      var i := 0;
      while i < |transitions|
        invariant 0 <= i <= |transitions|
        invariant forall j :: 0 <= j < i ==> !Check(transitions[j], e)
        invariant state == old(state) && hooks == old(hooks) && entity.HookFields() == old(entity.HookFields())
      {
        if Check(transitions[i], e) {
          FirstMatchAt(transitions, e, i);
          assert Lookup(registry, Name(transitions[i])) == Some(transitions[i]);
          Set(Name(transitions[i]));
          return;
        }
        i := i + 1;
      }
    }
  }
}
