# Super Mario simulation core in Dafny

A Dafny model of the sequential core of a small pygame platformer: the generic finite-state
machine and the player's states, the tile-map lookup, the tile-only collision resolver
`Kinematic.move_and_collide`, and the small stateful helpers around them (camera clamp,
animated-sprite frame counter, keyboard action bookkeeping, `clamp`).

One Dafny module per component:

| module | file | models |
|---|---|---|
| `Wrappers` | wrappers.dfy | Python's `None`-or-value results (`Option`) |
| `Utils` | utils.dfy | `utils.clamp` |
| `Engine` | engine.dfy | `Events`: key-state lists updated over an event batch |
| `Geometry` | geometry.dfy | pygame `Rect` edges, midpoints and edge assignment; `int()` truncation |
| `Tiles` | tiles.dfy | `Tile` tags, the `Tileset` id table, `Tilemap.get_at/get_info/get_info_at` |
| `Kinematics` | kinematic.dfy | `Kinematic` and `move_and_collide` |
| `Cameras` | camera.dfy | `Camera.snap_limits` |
| `Sprites` | sprites.dfy | `AnimatedSprite` frame expansion, `next`, `play` |
| `PlayerStates` | states.dfy | the states of states.py: transition lists, guards, hook effects |
| `Machine` | machine.dfy | `State` successor lists and `StateMachine` (`process`, `set`, `current`) |

State the source changes in place is a class: `Events`, `Kinematic`, `Camera`,
`AnimatedSprite`, `StateMachine` and the entity the hooks write (`Machine.Entity`). Each
method is proved against a function on values (`AfterUpdate`, `Resolved`, `Snap`, `NextState`,
...), and the properties are proved about those functions. The collision resolver is given
twice. `RightStep`/`LeftStep`/`DownStep`/`UpStep` and their passes follow the loops line by
line, including the overlap comparisons. `SideBlocks`/`DownBlocks`/`UpBlocks` with
`StoppedRight`/`StoppedLeft`/`Landed`/`Bumped` are a reference that judges every sample on the
shape the pass started from and leaves out the overlap comparisons. The `...BlocksIff` lemmas
prove that the two agree. So for every sampled cell the overlap comparison always holds, and
blocking depends only on the tile kind, the seam tests and the semisolid window.

Behaviour of the code worth noting, which the model keeps:
- A state's successors are tried in the machine's registration order, filtered by the
  state's declared list (nodes.py:36). They are not tried in the declared order.
  `Machine.SuccessorsInRegistrationOrder` and the contract of `Machine.NextState` state this
  for every registration; `Machine.RegistrationOrderDecides` shows a case where the two
  orders pick different states.
- `shape` is the truncation toward zero of `position` (`int()`), not its floor.
  The two differ for negative positions.
- The code has no entity-versus-entity collision, no per-side collision map (`colliding` is
  only reset to the empty list) and no death-hop timer sequence. `Dead.enter` only zeroes the
  timer and queues the "dead" animation.

## Model

| member | source | states |
|---|---|---|
| `Utils.Clamp` | utils.py:8-9 | within [floor, ceil] when floor <= ceil; identity inside; ceil above; floor below; floor whenever floor > ceil |
| `Utils.ClampIdempotent` | utils.py:8-9 | clamping twice equals clamping once, for any bounds |
| `Engine.AppendNew` | engine.py:60-61 | append-if-absent: the action is present afterwards, other memberships unchanged, no duplicates introduced |
| `Engine.RemoveFirst` | engine.py:63 | `list.remove`: one element fewer, other memberships unchanged, the action gone from a duplicate-free list |
| `Engine.Handle` | engine.py:57-63 | unhandled events change nothing; only KEYDOWN touches `just_pressed`; KEYDOWN puts the action in both lists; KEYUP removes it from `pressed`; other actions untouched; no duplicates introduced |
| `Engine.HandleAll` | engine.py:53-63 | the batch handled event by event, in order; characterised by `JustPressedIff` and `PressedIff` |
| `Engine.AfterUpdate` | engine.py:51-63 | `just_pressed` emptied, `pressed` carried over, then the batch handled |
| `Engine.HandleAllKeepsNoDuplicates` | engine.py:59-63 | neither list ever holds an action twice |
| `Engine.JustPressedIff` | engine.py:52-61 | after `update`, an action is just-pressed iff the batch holds a KEYDOWN of a key mapped to it |
| `Engine.PressedIff` | engine.py:57-63 | after a batch, an action is pressed iff its last press/release was a press, or the batch does not touch it and it was pressed before |
| `Engine.PressAndReleaseInOneBatch` | engine.py:59-63 | press then release in one batch: just-pressed but not pressed |
| `Engine.Events.constructor` | engine.py:37-49 | the default key table and two empty lists |
| `Engine.Events.Update` | engine.py:51-63 | empties `just_pressed`, then handles the batch in order: the new lists are `AfterUpdate` of the old `pressed`; keeps both lists duplicate-free |
| `Engine.Events.IsActionPressed` | engine.py:65-68 | membership in `pressed` |
| `Engine.Events.IsActionJustPressed` | engine.py:70-73 | membership in `just_pressed` |
| `Geometry.Trunc` | nodes.py:230 | `int()` of a float: truncation toward zero |
| `Geometry.Rect.WithRight` | nodes.py:240 | assigning `right` moves the rectangle and keeps its size |
| `Geometry.Rect.WithLeft` | nodes.py:252 | assigning `left` moves the rectangle and keeps its size |
| `Geometry.Rect.WithBottom` | nodes.py:274 | assigning `bottom` moves the rectangle and keeps its size |
| `Geometry.Rect.WithTop` | nodes.py:292 | assigning `top` moves the rectangle and keeps its size |
| `Tiles.BoolTags` | nodes.py:79-83 | a tag is present iff some "bool"-typed property has that name, whatever its value |
| `Tiles.NewTile` | nodes.py:76-83 | the constructor loop yields the type and the bool-property names in input order |
| `Tiles.Has` | nodes.py:85-86 | `has(tag)`: membership in the tile's tags; `HasIffBoolProperty` says which tags a built tile has |
| `Tiles.HasIffBoolProperty` | nodes.py:85-86 | `has(tag)` on a built tile iff a "bool" property carries that name |
| `Tiles.BuildTable` | nodes.py:94-96 | the id table loop yields the table of all entries, later ids overriding earlier ones |
| `Tiles.TableLookup` | nodes.py:94-96 | an id is in the table iff some entry has it, and maps to the tile of the last such entry |
| `Tiles.GetAt` | nodes.py:122-125 | nothing exactly outside [0,width)x[0,height); otherwise the id at `y*width+x` |
| `Tiles.GetInfo` | nodes.py:127-131 | nothing for no id or id 0; otherwise the table entry for `id - 1`, nothing when there is none |
| `Tiles.GetInfoAt` | nodes.py:119-131 | nothing outside the grid or for id 0; otherwise `data.get(id - 1)`, which may be absent |
| `Kinematics.RightStep` | nodes.py:235-242 | one rightward sample: the body is unchanged, or a solid tile stops it with its right edge on the column's left boundary, `position.x = shape.x`, `velocity.x = 0`; Y axis, size and `grounded` untouched |
| `Kinematics.LeftStep` | nodes.py:247-254 | one leftward sample: unchanged, or a solid tile stops it with its left edge on the column's right boundary; Y axis, size and `grounded` untouched |
| `Kinematics.DownStep` | nodes.py:264-282 | one downward sample: unchanged, or a solid or semisolid tile lands it with its bottom on the (probe's) row top, grounded, `velocity.y = 0`; X axis and size untouched |
| `Kinematics.UpStep` | nodes.py:287-294 | one upward sample: unchanged, or a solid tile stops it with its top on the row's bottom, `velocity.y = 0`; X axis, size and `grounded` untouched |
| `Kinematics.RightPass` | nodes.py:235-242 | the rightward loop, sample by sample in the listed order; characterised by `RightPassBlocksIff` |
| `Kinematics.LeftPass` | nodes.py:247-254 | the leftward loop; characterised by `LeftPassBlocksIff` |
| `Kinematics.DownPass` | nodes.py:264-282 | the downward loop; characterised by `DownPassBlocksIff` |
| `Kinematics.UpPass` | nodes.py:287-294 | the upward loop; characterised by `UpPassBlocksIff` |
| `Kinematics.AdvanceX` | nodes.py:229-230 | `position.x += velocity.x`, then `shape.x = int(position.x)` |
| `Kinematics.AdvanceY` | nodes.py:256-259 | `position.y += velocity.y`, `shape.y = int(position.y)`, `grounded` cleared |
| `Kinematics.MoveX` | nodes.py:229-254 | the X half of the resolver; characterised by `MoveXBlocksIff` and `MoveXTracksPosition` |
| `Kinematics.MoveY` | nodes.py:256-294 | the Y half of the resolver; characterised by `MoveYBlocksIff`, `MoveYTracksPosition` and `GroundedIffLanded` |
| `Kinematics.Resolved` | nodes.py:226-294 | `move_and_collide` on values: X fully resolved, then Y; characterised by `ShapeTracksPosition` and `FreeFlight` |
| `Kinematics.StoppedRightIsStable` | nodes.py:232-242 | after a rightward stop, every later sample of the same edge leaves the body as it is |
| `Kinematics.RightPassBlocksIff` | nodes.py:232-242 | the rightward loop stops the body at its column's left boundary (`position.x = shape.x`, `velocity.x = 0`) iff a sample is solid and passes the seam test; else nothing changes |
| `Kinematics.StoppedLeftIsStable` | nodes.py:244-254 | after a leftward stop, every later sample leaves the body as it is |
| `Kinematics.LeftPassBlocksIff` | nodes.py:244-254 | the leftward loop stops the body at its column's right boundary iff a sample is solid and passes the seam test |
| `Kinematics.LandedIsStable` | nodes.py:261-282 | after landing, every later bottom sample leaves the body as it is |
| `Kinematics.DownPassBlocksIff` | nodes.py:261-282 | the downward loop lands the body (grounded, `velocity.y = 0`, bottom on the row top) iff a sample hits a solid tile, or a semisolid one with the probe within 8 px of its top, away from a seam |
| `Kinematics.BumpedIsStable` | nodes.py:284-294 | after an upward stop, every later top sample leaves the body as it is |
| `Kinematics.UpPassBlocksIff` | nodes.py:284-294 | the upward/zero loop stops the body at the row's bottom iff a sample is a solid tile away from a seam; semisolid tiles never block |
| `Kinematics.MoveXBlocksIff` | nodes.py:229-254 | the X half: advance and truncate, then the right loop for positive velocity, the left loop otherwise (zero included) |
| `Kinematics.MoveYBlocksIff` | nodes.py:256-294 | the Y half: grounded cleared, probe 4 px lower when grounded last tick, down loop for positive velocity, top loop otherwise |
| `Kinematics.GroundedIffLanded` | nodes.py:256-282 | after a call, `grounded` holds iff the body was falling and a downward sample blocked |
| `Kinematics.MoveXTracksPosition` | nodes.py:229-254 | the X half keeps the size and the Y axis, and leaves `shape.x` the truncation of `position.x` |
| `Kinematics.MoveYTracksPosition` | nodes.py:256-294 | the Y half keeps the size and the X axis, and leaves `shape.y` the truncation of `position.y` |
| `Kinematics.ShapeTracksPosition` | nodes.py:226-294 | the shape keeps its size and stays the truncation of the position on both axes |
| `Kinematics.FreeFlight` | nodes.py:226-294 | with no solid or semisolid tile anywhere, the body just moves by its velocity |
| `Kinematics.Kinematic.constructor` | nodes.py:209-214 | at rest, not grounded, shape and position at the given integer point; `gravity` defaults to true |
| `Kinematics.Kinematic.MoveAndCollide` | nodes.py:226-294 | resets `colliding`, then the new state is `Resolved` of the old one |
| `Kinematics.Kinematic.MoveAlongX` | nodes.py:229-254 | the X half in place: the new state is `MoveX` of the old one |
| `Kinematics.Kinematic.MoveAlongY` | nodes.py:256-294 | the Y half in place: the new state is `MoveY` of the old one |
| `Kinematics.Kinematic.SampleRight` | nodes.py:235-242 | one rightward sample in place, as `RightStep` |
| `Kinematics.Kinematic.SampleLeft` | nodes.py:247-254 | one leftward sample in place, as `LeftStep` |
| `Kinematics.Kinematic.SampleTop` | nodes.py:287-294 | one upward sample in place, as `UpStep` |
| `Kinematics.Kinematic.SampleBottom` | nodes.py:264-282 | one downward sample in place, with the snap probe and the semisolid window |
| `Cameras.Snap` | nodes.py:186-201 | sizes kept; each flag iff its axis moved, iff the origin was negative or the far edge beyond the limit; negative origin to 0, else far edge onto the limit; a camera that fits ends within limits |
| `Cameras.SnapIdempotent` | nodes.py:186-201 | snapping a camera that fits its limits a second time moves nothing and raises no flag |
| `Cameras.Camera.constructor` | nodes.py:182-184 | a `size` rectangle at (0, 200) and the limits |
| `Cameras.Camera.SnapLimits` | nodes.py:186-201 | in place: the new shape and the flags are those of `Snap` |
| `Sprites.Repeat` | nodes.py:166 | `[x] * n`: n copies of x, none for n <= 0 |
| `Sprites.Expand` | nodes.py:163-166 | each section's frame index repeated `duration` times, sections in order; characterised by `ExpandLength` |
| `Sprites.ExpandLength` | nodes.py:163-166 | an expanded animation is as long as the sum of its durations, and each tick shows some section's index |
| `Sprites.ExpandSections` | nodes.py:165-166 | the section loop yields the expanded list |
| `Sprites.Advance` | nodes.py:172-175 | on the current animation, the shown tick is the counter, or 0 once exhausted; the counter becomes shown + 1 |
| `Sprites.CounterCountsUp` | nodes.py:168-175 | after a switch, the k-th further call shows tick k, and after the last tick comes tick 0 |
| `Sprites.CounterPeriodic` | nodes.py:168-175 | the counter stays in [1, len] and repeats with period len |
| `Sprites.AnimatedSprite.constructor` | nodes.py:155-166 | every animation expanded, nothing current, the default queued, frame 0 |
| `Sprites.AnimatedSprite.Next` | nodes.py:168-175 | afterwards current is the queue and 1 <= frame <= len; a switch shows index 0; otherwise advance with wrap |
| `Sprites.AnimatedSprite.Play` | nodes.py:177-178 | only the queue changes |
| `PlayerStates.FromName` | nodes.py:52 | the state registered under a class name, the inverse of `__name__` |
| `PlayerStates.Declared` | states.py:7-99 | each state's transition list as written: no state lists itself, only Dead lists nothing, no entry twice, every state but Dead and Fall lists Fall |
| `PlayerStates.Check` | states.py:18-103 | each state's static `check`, Dead keeping the falsy base one; characterised by the guard lemmas below |
| `PlayerStates.OnlyClimbStatesListClimbing` | states.py:7-99 | only ClimbIdle and ClimbMove list a climb state, and each lists only the other |
| `PlayerStates.IdleWhileSkidding` | states.py:19-22 | while skidding, `Idle.check` iff vx*ivx >= 0; grounded not consulted |
| `PlayerStates.SkidIffOpposite` | states.py:44-50 | `Skid.check` iff vx and ivx are non-zero with opposite signs (vx*ivx < 0) |
| `PlayerStates.SkidOrIdleWhileSkidding` | states.py:18-50 | while skidding, exactly one of `Idle.check` and `Skid.check` holds |
| `PlayerStates.WalkAndJumpGuards` | states.py:33-61 | in every state, Walk iff grounded and vx != 0, Jump iff vy < 0 |
| `PlayerStates.GuardsOutsideSpecialStates` | states.py:18-75 | outside Skid and the climb states, Idle iff grounded and vx = 0, Fall iff not grounded and vy > 0, and Idle and Walk never both hold |
| `PlayerStates.ClimbGuardsComplement` | states.py:85-103 | exactly one of the two climb guards holds for any velocity |
| `PlayerStates.EnterEffects` | states.py:9-107 | every enter plays its animation; Dead zeroes the timer; climb states turn gravity off; nothing else changes |
| `PlayerStates.ExitEffects` | states.py:93-110 | climb states turn gravity on at exit; all other exits change nothing |
| `PlayerStates.ClimbSwitchGravity` | states.py:89-110 | switching between climb states leaves gravity off; leaving climbing for another state turns it on |
| `Machine.Successors` | nodes.py:36 | a state is a successor iff it is registered and declared; at most as many as registered |
| `Machine.SuccessorsInRegistrationOrder` | nodes.py:36 | the successors keep registration order: each comes from a registry slot before which every registered declared state is already listed |
| `Machine.EarlierSuccessorsFail` | nodes.py:55-60 | when the successors before one all fail their guards, so does every declared state registered before it |
| `Machine.Lookup` | nodes.py:52 | `states.get(name)` yields s iff s is registered and named `name` |
| `Machine.FirstMatch` | nodes.py:55-60 | nothing iff no guard holds; otherwise the earliest candidate whose guard holds |
| `Machine.NextState` | nodes.py:55-60 | the target is registered, declared, passes its guard and differs from the current state; every declared state registered before it fails its guard; none iff no such guard holds |
| `Machine.DeadIsSink` | states.py:5-7 | `process` never leaves Dead |
| `Machine.ProcessNeverStartsClimbing` | states.py:14-99 | from a non-climb state, `process` never enters a climb state |
| `Machine.WalkStopsInIdle` | states.py:28-34 | grounded, vx = 0, vy >= 0 in Walk goes to Idle for any registration order containing Idle |
| `Machine.RegistrationOrderDecides` | nodes.py:36 | registration order, not declaration order, picks between two holding guards |
| `Machine.Entity.constructor` | states.py:9-107 | the entity the hooks write: `gravity`, `timer` and the sprite whose queue `play` sets, as given |
| `Machine.Enter` | states.py:9-107 | the enter hook writes the entity as `EnterEffects` says |
| `Machine.Exit` | states.py:93-110 | the exit hook writes the entity as `ExitEffects` says |
| `Machine.StateMachine.constructor` | nodes.py:50-53 | starts in the registered state with the given name |
| `Machine.StateMachine.Current` | nodes.py:69-72 | `current(name)` iff `name` is the current state's name |
| `Machine.StateMachine.Set` | nodes.py:62-67 | an unknown or current name changes nothing and runs no hook; otherwise exit once, switch, enter once |
| `Machine.StateMachine.Process` | nodes.py:55-60 | at most one transition, to `NextState`, through `set`; otherwise nothing changes |

## Left out

- Rendering and assets: `Font`, `Sprite.draw`, spritesheet and tileset texture slicing, the
  `Tilemap` surface blitting, `Camera.draw` and the texture surfaces themselves. The sprite's
  texture is modelled as the sheet index it would select.
- The `Engine` class (display, main loop, clock) and the QUIT path of `Events.update`
  (`pg.quit`, `sys.exit`): process control. A batch holds key events and other events only.
- `utils.load_json`: file I/O.
- `Kinematic.apply_gravity` and `Kinematic.move`: float integration, not part of the resolver.
- The unused `dt` parameter of `move_and_collide` is dropped.
- game.py (`Level`) and main.py: wiring and display code outside the core.
- `Root`'s no-op hooks.
- Entity members not defined in these files (`is_near`, `input_velocity`, the entity's
  physics fields) enter the guards as snapshot values passed to `Process`.
- Float arithmetic: positions and velocities are exact reals, so float rounding is not
  modelled. pygame's tolerant `Vector2` equality in the climb guards is modelled as exact
  equality.
- pygame rectangles with negative sizes and 32-bit coordinate overflow are not modelled.
- Sprites.AnimatedSprite.Next: requires the queued name to be a non-empty animation, because
  Python raises `KeyError`/`IndexError` otherwise. The raise itself is not modelled.
- Machine.StateMachine.constructor: requires the initial name to be registered, because
  Python raises `KeyError` otherwise.
- Tiles.GetAt: requires the id list to cover the grid, because the `Tilemap` constructor
  reads every cell and raises otherwise.
- Kinematics.Kinematic.constructor: takes integer start coordinates, so the conversion of a
  float start position into the `pg.Rect` is not modelled.
