/** states.py: the player's states, their declared transition lists, their guards (`check`)
    and the effects of their `enter`/`exit` hooks. */
module PlayerStates {
  import opened Wrappers

  datatype StateName = Dead | Idle | Walk | Skid | Jump | Fall | ClimbIdle | ClimbMove

  /** The class name, `__name__`, under which the machine registers a state. */
  function Name(s: StateName): string
  {
    match s
    case Dead => "Dead"
    case Idle => "Idle"
    case Walk => "Walk"
    case Skid => "Skid"
    case Jump => "Jump"
    case Fall => "Fall"
    case ClimbIdle => "ClimbIdle"
    case ClimbMove => "ClimbMove"
  }

  /** The state whose class has this name, if any. */
  function FromName(name: string): (r: Option<StateName>)
    ensures r.Some? ==> Name(r.value) == name
    ensures forall s :: Name(s) == name ==> r == Some(s)
  {
    if name == "Dead" then Some(Dead)
    else if name == "Idle" then Some(Idle)
    else if name == "Walk" then Some(Walk)
    else if name == "Skid" then Some(Skid)
    else if name == "Jump" then Some(Jump)
    else if name == "Fall" then Some(Fall)
    else if name == "ClimbIdle" then Some(ClimbIdle)
    else if name == "ClimbMove" then Some(ClimbMove)
    else None
  }

  /** The transition list each subclass passes to `State.__init__`, as written. */
  function Declared(s: StateName): (r: seq<StateName>)
    ensures s !in r
    ensures r == [] <==> s == Dead
    ensures forall i, j :: 0 <= i < j < |r| ==> r[i] != r[j]
    ensures s != Dead && s != Fall ==> Fall in r
  {
    match s
    case Dead => []
    case Idle => [Jump, Fall, Walk]
    case Walk => [Fall, Jump, Skid, Idle]
    case Skid => [Fall, Jump, Idle]
    case Jump => [Fall, Idle, Walk]
    case Fall => [Jump, Idle, Walk]
    case ClimbIdle => [Fall, ClimbMove]
    case ClimbMove => [Fall, ClimbIdle]
  }

  predicate IsClimbing(s: StateName)
  {
    s == ClimbIdle || s == ClimbMove
  }

  /** Only the two climb states list a climb state: from anywhere else, only a direct `set`
      can start climbing. */
  lemma OnlyClimbStatesListClimbing(s: StateName, t: StateName)
    requires t in Declared(s) && IsClimbing(t)
    ensures IsClimbing(s) && t != s
  {
  }

  /** What a guard reads of the entity: the machine's current state, `grounded`, `velocity`,
      `input_velocity.x` and `is_near("ladder")`. */
  datatype Snapshot = Snapshot(current: StateName, grounded: bool, vx: real, vy: real, ivx: real, nearLadder: bool)

  function Abs(r: real): real
  {
    if r < 0.0 then -r else r
  }

  /** The static `check` of each state; `Dead` keeps the base class's falsy `check`. */
  predicate Check(s: StateName, e: Snapshot)
  {
    match s
    case Dead => false
    case Idle =>
      if e.current == Skid then Abs(e.vx + e.ivx) == Abs(e.vx) + Abs(e.ivx)
      else e.grounded && e.vx == 0.0
    case Walk => e.grounded && e.vx != 0.0
    case Skid => (e.vx > 0.0 && e.ivx < 0.0) || (e.vx < 0.0 && e.ivx > 0.0)
    case Jump => e.vy < 0.0
    case Fall =>
      if e.current == ClimbIdle || e.current == ClimbMove then !e.nearLadder
      else !e.grounded && e.vy > 0.0
    case ClimbIdle => e.vx == 0.0 && e.vy == 0.0
    case ClimbMove => !(e.vx == 0.0 && e.vy == 0.0)
  }

  /** While skidding, `Idle.check` holds exactly when velocity and input do not point in
      opposite directions; `grounded` is not consulted. */
  lemma IdleWhileSkidding(e: Snapshot)
    requires e.current == Skid
    ensures Check(Idle, e) <==> e.vx * e.ivx >= 0.0
  {
    if e.vx < 0.0 && e.ivx > 0.0 {
      assert e.vx * e.ivx < 0.0;
    } else if e.vx > 0.0 && e.ivx < 0.0 {
      assert e.vx * e.ivx < 0.0;
    }
  }

  /** `Skid.check` holds exactly when velocity and input are both non-zero with opposite
      signs. */
  lemma SkidIffOpposite(e: Snapshot)
    ensures Check(Skid, e) <==> e.vx * e.ivx < 0.0
  {
    if e.vx < 0.0 && e.ivx < 0.0 {
      assert e.vx * e.ivx > 0.0;
    } else if e.vx > 0.0 && e.ivx > 0.0 {
      assert e.vx * e.ivx > 0.0;
    }
  }

  /** While skidding, `Skid.check` and the `Idle.check` are complements. */
  lemma SkidOrIdleWhileSkidding(e: Snapshot)
    requires e.current == Skid
    ensures Check(Idle, e) != Check(Skid, e)
  {
    IdleWhileSkidding(e);
    SkidIffOpposite(e);
  }

  /** `Walk.check` and `Jump.check` read neither the current state nor the ladder: moving on
      the ground walks, rising jumps, whatever state the machine is in. */
  lemma WalkAndJumpGuards(e: Snapshot)
    ensures Check(Walk, e) <==> e.grounded && e.vx != 0.0
    ensures Check(Jump, e) <==> e.vy < 0.0
  {
  }

  /** Outside skidding and climbing, `Idle.check` and `Fall.check` reduce to their plain forms,
      and standing and walking exclude each other. */
  lemma GuardsOutsideSpecialStates(e: Snapshot)
    requires e.current != Skid && !IsClimbing(e.current)
    ensures Check(Idle, e) <==> e.grounded && e.vx == 0.0
    ensures Check(Fall, e) <==> !e.grounded && e.vy > 0.0
    ensures !(Check(Idle, e) && Check(Walk, e))
  {
  }

  /** The two climb guards are complements: exactly one holds for any velocity. */
  lemma ClimbGuardsComplement(e: Snapshot)
    ensures Check(ClimbIdle, e) != Check(ClimbMove, e)
  {
  }

  /** The entity fields the hooks write: `gravity`, `timer` and the animation queued on its
      sprite. */
  datatype Effects = Effects(gravity: bool, timer: int, animation: string)

  /** The animation each state's `enter` plays. */
  function AnimationOf(s: StateName): string
  {
    match s
    case Dead => "dead"
    case Idle => "idle"
    case Walk => "walk"
    case Skid => "skid"
    case Jump => "jump"
    case Fall => "fall"
    case ClimbIdle => "climb_idle"
    case ClimbMove => "climb_move"
  }

  /** `enter`: every state plays its animation; `Dead` zeroes the timer; climbing turns
      gravity off. */
  function EnterEffects(s: StateName, fx: Effects): (r: Effects)
    ensures r.animation == AnimationOf(s)
    ensures r.timer == if s == Dead then 0 else fx.timer
    ensures r.gravity == if IsClimbing(s) then false else fx.gravity
  {
    match s
    case Dead => Effects(fx.gravity, 0, "dead")
    case ClimbIdle => Effects(false, fx.timer, "climb_idle")
    case ClimbMove => Effects(false, fx.timer, "climb_move")
    case _ => fx.(animation := AnimationOf(s))
  }

  /** `exit`: climbing turns gravity back on; every other state keeps the root no-op. */
  function ExitEffects(s: StateName, fx: Effects): (r: Effects)
    ensures IsClimbing(s) ==> r == fx.(gravity := true)
    ensures !IsClimbing(s) ==> r == fx
  {
    if IsClimbing(s) then fx.(gravity := true) else fx
  }

  /** Switching between the two climb states leaves gravity off (exit runs before enter);
      leaving climbing for any other state turns it on. */
  lemma ClimbSwitchGravity(from: StateName, to: StateName, fx: Effects)
    requires IsClimbing(from)
    ensures EnterEffects(to, ExitEffects(from, fx)).gravity == !IsClimbing(to)
  {
  }
}
