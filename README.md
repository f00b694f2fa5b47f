# Reversible timeline of a time-rewinding platformer, in Dafny

This project models the gameplay core of a small platformer whose signature
mechanic is a reversible clock. The player can rewind the level (Z) or
fast-forward it (X) for a short burst. Moving platforms record their turns
while time runs forward and replay them in reverse while it runs backward.

The model covers these parts of the game:

- **Clock** (`timeline.dfy`, module `Timeline`). The time scale is a signed
  rate. The time since level start lives in a 10-second window. Each tick
  applies level restarts, integrates `dt * scale` and clamps to the window;
  clamping pauses the clock. Key presses change the rate and schedule the
  events that end the effect. A delivered `Normal` event restores the normal
  rate.
- **History log** (`Timeline.Moment`, `Timeline.History`). This is a generic,
  timestamped log that entities push to and pop from at the back.
- **Platform patrol** (`platform.dfy`, module `Platform`). A platform follows
  a closed loop of waypoints. While the scale is positive it advances its
  waypoint cursor and records a moment at each turn. Otherwise it pops at most
  one moment per tick, steps its cursor back and heads for the recorded
  position.
- **Player** (`player.dfy`, module `Player`). This covers the collider
  configuration per LDtk entity kind, the keyboard velocity rules, and ground
  detection from a sensor's collision events.
- **Pause menu** (`pause.dfy`, module `Pause`). This covers pause and unpause
  requests, freezing the physics while the menu is shown, and level select.
- **Goals** (`goals.dfy`, module `Goals`). This covers the goal animation and
  victory, which moves the level selection on.
- **Shared types** (`game.dfy`, module `Game`). These are the game's state
  machine, entities, keyboard state, collision events and the level selection.

Every system that changes state in place is a method on classes that stand
for the engine's resources and components. Each method is proved against a
pure function of the old state. The properties are stated about those
functions, as their contracts and as lemmas.

## Model

| member | source | states |
|---|---|---|
| `Game.CurrentLevel.constructor` | src/main.rs:70 | The level selection starts at level index 0. |
| `Timeline.History.constructor` | src/history.rs:40-43 | A new history log is empty. |
| `Timeline.History.Last` | src/platform.rs:152 | The log's last moment, or none exactly when the log is empty. |
| `Timeline.History.Push` | src/platform.rs:139-145 | Pushing appends exactly one moment at the back and keeps everything before it. |
| `Timeline.History.Pop` | src/platform.rs:154 | Popping returns the old last moment and removes only it; popping an empty log changes nothing. |
| `Timeline.EventScheduler.Schedule` | src/history.rs:64-65 | Scheduling appends the event and its delay to the pending queue. |
| `Timeline.Integrate` | src/history.rs:99-108 | After integration the time is in [0, 10]. Below 0 it is clamped to 0 and the scale becomes 0. Above 10 it is clamped to 10 and the scale becomes 0. Otherwise time is old time + dt*scale and the scale is unchanged. |
| `Timeline.Tick` | src/history.rs:91-108 | A tick always ends inside the window. With a level restart in the batch, the tick integrates dt from the level-start state (scale 1, time 0), whatever dt is. So a tick whose dt is in the window ends at scale 1 and time dt. Without a restart, the tick is plain integration. |
| `Timeline.RequestRate` | src/history.rs:62-70 | At scale exactly 1: Z gives -10 and schedules Rewind at 0 ms then Normal at 200 ms. X without Z gives +10 with FastForward then Normal. Z wins over X. At any other scale, nothing changes. The rate changes exactly when something is scheduled. |
| `Timeline.Restored` | src/history.rs:74-81 | Handling a batch of time events sets the scale to 1 if and only if the batch holds a Normal event. Otherwise the scale is unchanged. |
| `Timeline.Clock.constructor` | src/history.rs:14-15 | The clock starts at scale 1 and time 0. |
| `Timeline.Clock.Rewind` | src/history.rs:57-71 | The rewind system sets the scale and appends the schedule exactly as `RequestRate` says. It leaves the time untouched. |
| `Timeline.Clock.StopRewind` | src/history.rs:73-82 | After the loop the scale is 1 if some event was Normal. Otherwise it is unchanged. Rewind and FastForward events have no effect. |
| `Timeline.Clock.UpdateTime` | src/history.rs:84-109 | The new clock state is `Tick` of the old one. Exactly one Normal event is sent per Transformed level event, and nothing else is sent. |
| `Timeline.RunningOutTheClock` | src/history.rs:99-108 | Running at rate 1 for n one-second ticks from t0 reaches t0+n. If that would pass 10, the clock stops at 10 with scale 0. |
| `Timeline.TwelveSecondsExhaustTheLevel` | src/history.rs:99-108 | From the level start, twelve seconds of play end at time 10 with the clock paused. |
| `Timeline.ClampInvariant` | src/history.rs:101-108 | Over any run of ticks that starts inside the window, the time stays inside [0, 10]. |
| `Timeline.ForwardPlayNeverGoesBack` | src/history.rs:99-108 | With scale >= 0, dt >= 0 and no restart, the scale stays >= 0 and the time never decreases. |
| `Timeline.RewindNeverGoesForward` | src/history.rs:99-108 | With scale <= 0, dt >= 0 and no restart, the scale stays <= 0 and the time never increases. |
| `Timeline.PausedClockHolds` | src/history.rs:99 | A clock at scale 0 stays exactly where it is until a level restart. |
| `Timeline.EffectsEndThemselves` | src/history.rs:62-81 | Every effect a key press starts schedules its own end. Delivering the scheduled events brings the scale back to 1. |
| `Timeline.EffectsNeverOverlap` | src/history.rs:62-70 | While an effect runs, a second key press changes nothing and schedules nothing. |
| `Platform.Advance` | src/platform.rs:130 | The next cursor stays below the number of waypoints. It is index+1, wrapping to 0 after the last waypoint. |
| `Platform.Retreat` | src/platform.rs:156-160 | The previous cursor stays below the number of waypoints, wraps from 0 to len-1, and is undone by `Advance`. |
| `Platform.RetreatUndoesAdvance` | src/platform.rs:130-160 | Stepping the cursor back after stepping it forward restores it, on every loop and from every waypoint. |
| `Platform.ForwardTick` | src/platform.rs:119-149 | Positive scale. If the waypoint was passed or nothing is recorded, the cursor advances with wrap-around, the velocity turns towards the new waypoint, and exactly one moment is appended. That moment holds the current time, the new velocity and the current translation. Otherwise only the velocity changes. The log is never empty afterwards. Chronological order is kept when the time is not earlier than the last timestamp. |
| `Platform.BackwardTick` | src/platform.rs:150-180 | Non-positive scale. A moment is popped if and only if the log is non-empty and the time is earlier than the last timestamp. At most one is popped, and the cursor steps back with wrap-around. Otherwise log and cursor are unchanged. The velocity heads for the recorded position of the new last moment, or is zero when the log is empty. The cursor stays in range. |
| `Platform.FirstForwardTickTurns` | src/platform.rs:128-145 | With two waypoints and an empty log, the first forward tick moves the cursor to 1 and records exactly one moment. |
| `Platform.Forward` | src/platform.rs:130 | Over any stretch of forward ticks, the cursor stays within the waypoints. |
| `Platform.Backward` | src/platform.rs:156-160 | Over any stretch of backward ticks, the cursor stays within the waypoints. |
| `Platform.ForwardOnlyAppends` | src/platform.rs:119-149 | During forward play the log never shrinks. It grows by at most one moment per tick and keeps its old contents as a prefix. |
| `Platform.BackwardOnlyPops` | src/platform.rs:150-162 | During backward or paused play the log never grows. It loses at most one moment per tick, always from the back. |
| `Platform.TurningRecords` | src/platform.rs:128-145 | k forward ticks that each pass a waypoint advance the cursor k steps. They append k moments stamped with those ticks' times, in order. |
| `Platform.RewindingUnrecords` | src/platform.rs:152-161 | k backward ticks, each earlier than the newest remaining timestamp, pop exactly the k newest moments and step the cursor back k times. |
| `Platform.ForwardThenRewindRestores` | src/platform.rs:119-162 | Worked instance: k forward ticks that all turn, then k backward ticks that all pop, restore both the waypoint cursor and the log exactly. |
| `Platform.ForwardKeepsCoupling` | src/platform.rs:128-145 | Any stretch of forward play, turning or not, keeps the cursor coupled to the log. Older moments stay as a prefix, and the cursor sits one advance from its start per moment recorded since. |
| `Platform.BackwardKeepsCoupling` | src/platform.rs:152-161 | Any stretch of backward play that does not pop below the base keeps that coupling: each pop steps the cursor back over the advance that recorded the moment. |
| `Platform.ForwardThenBackwardRestores` | src/platform.rs:119-180 | For any forward stretch followed by any backward stretch, whatever ticks turn or pop: once the log is back to its old length, the log and the waypoint cursor are exactly as before. |
| `Platform.Path.constructor` | src/platform.rs:82-86 | A path built from non-empty waypoints starts at cursor 0, which is in range. |
| `Platform.PlatformMovement` | src/platform.rs:109-182 | The movement system keeps the cursor in range. Its effect on cursor, log and velocity is `ForwardTick` when the scale is positive, and `BackwardTick` otherwise, including when paused. |
| `Player.ColliderFor` | src/player.rs:71-92 | "Player" gets a dynamic cuboid(6,14) with rotation locked and friction 0.1 combined by Multiply. "Platform" gets a velocity-based kinematic cuboid(8,8) with rotation locked. Anything else gets the defaults. Rotation is locked iff the identifier is one of the two. The body is velocity-kinematic iff it is "Platform". |
| `Player.Steered` | src/player.rs:100-109 | Horizontal velocity is (D - A) * 200: positive iff only D is held, negative iff only A is held, and it ignores the old velocity. Vertical velocity is 450 on a jump, which needs Space just pressed while on ground. Otherwise it drops by 10. |
| `Player.Movement` | src/player.rs:95-111 | The movement system writes exactly the velocity `Steered` gives. |
| `Player.OtherParty` | src/player.rs:148-154 | An event involves the sensor iff the sensor is in either slot. The other party is then the entity in the other slot. |
| `Player.Touch` | src/player.rs:147-173 | A Started event with a solid other party adds that party. A Started event with a non-collidable party changes nothing. A Stopped event removes the other party without checking collidability. Events not involving the sensor are skipped. |
| `Player.TouchingFollowsLastWord` | src/player.rs:145-176 | After a batch, an entity is in the set iff the last event that decides about it is a start. With no such event, it keeps its old membership. |
| `Player.OnlySolidsJoin` | src/player.rs:156-160 | Only collidable (non-sensor) entities are ever added to the set. |
| `Player.GroundSensor.constructor` | src/player.rs:130-133 | A new sensor belongs to its owner and touches nothing. |
| `Player.GroundDetection.constructor` | src/player.rs:45-48 | A player starts off the ground. |
| `Player.DetectGround` | src/player.rs:138-184 | The sensor's set becomes the fold of the frame's collisions. On-ground is set to "the set is non-empty" whenever the owner has a ground detection component. |
| `Pause.PauseRequest` | src/pause.rs:24-30 | The pause menu is requested iff Escape or P was just pressed and the player is alive. |
| `Pause.UnpauseRequest` | src/pause.rs:32-36 | Gameplay is requested iff Escape or P was just pressed, whatever the player's vitality. |
| `Pause.UnpauseUndoesPause` | src/pause.rs:24-36 | Any key press that pauses would also unpause. A dead player can never pause. |
| `Pause.SpawnPauseScreen` | src/pause.rs:44-48 | Entering the menu sets the physics to variable steps of at most 1/60 s at time scale 0. |
| `Pause.DespawnPauseMenu` | src/pause.rs:146-150 | Leaving the menu sets the physics back to time scale 1. |
| `Pause.Select` | src/pause.rs:161-173 | Choosing level n selects Index(n) and requests the preamble. It requests a respawn iff Index(n) was already selected. Debug actions change nothing. |
| `Pause.LastChoiceWins` | src/pause.rs:160-174 | After a batch, the selection is the last level chosen, or is unchanged if none was chosen. The preamble is requested iff some level was chosen. |
| `Pause.RespawnOnlyOnReselect` | src/pause.rs:163-167 | A respawn is requested iff some action chooses the level that is selected when that action is handled. |
| `Pause.LevelSelect` | src/pause.rs:154-175 | The level select system leaves the selection, the respawn request and the state request exactly as `Select`, applied action by action, says. |
| `Goals.GoalAnimation` | src/goals.rs:32-39 | The goal animation plays the six frames from 72, loops, and uses a repeating 0.2 s frame timer. |
| `Goals.Win` | src/goals.rs:51-58 | A Started contact between a player and a goal, in either order, moves an Index selection on by exactly 1 and requests the preamble. Anything else, or a selection that is not an index, changes nothing. |
| `Goals.EachGoalAdvancesOneLevel` | src/goals.rs:49-63 | N goal contacts in one batch advance an index selection by exactly N, and the preamble is requested iff N > 0. A selection that is not an index is left alone. |
| `Goals.Victory` | src/goals.rs:42-64 | The victory system leaves the selection and state request exactly as `Win`, applied event by event, says. |

## Where the code and the design intent differ

The model follows the code in each of these cases.

- **Backward play pops at most one moment per tick.** The intent is to pop
  every moment the clock has passed. `platform_movement` pops at most one
  per tick. It has no "more than one remains" guard, and it never restores
  the platform's position. Instead it steers the velocity towards the
  recorded position, at speed times the absolute rate.
- **Chronological order needs a condition.** A forward push keeps the log in
  timestamp order only when the clock has not fallen behind the last
  timestamp. Pops lag by one per tick, so a burst of rewinding can leave
  that condition false. `Platform.ForwardTick` states order preservation
  under exactly that condition.
- **A level restart does not clear histories.** `update_time` resets the
  clock and sends `Normal`. Clearing the histories is left to respawning
  the level, which is not part of this model.

## Left out

- The deferred event scheduler's dispatch is not part of this model.
  `EventScheduler` only records what `rewind` schedules. Dispatch order and
  timing are not modelled, and neither is its source file.
- Vector maths in `platform_movement` is not modelled. The
  "waypoint passed" dot-product test is a boolean input. The velocity towards
  the current waypoint is an input. The normalised, scaled velocity towards
  any other goal is a function input (`steer` forward, `home` backward).
- Floating point is modelled as exact reals. `f32` rounding is not modelled.
- `Platform.PlatformMovement`, `Player.Movement`, `Player.DetectGround`:
  the engine's query loop over all matching entities is modelled as one call
  per entity. Each iteration touches only its own entity's components.
  Ground detection assumes one sensor per call, because the first sensor
  drains the collision event reader.
- `Platform.PlatformMovement` requires the cursor to be in range, which is
  the `Path.Valid` invariant. The default `Path` with no waypoints would
  make the source panic on its first forward tick, and that panic is not
  modelled.
- `Path::bundle_entity` is left out: LDtk field parsing and grid conversion
  happen in a foreign library.
- `Player.ColliderFor`: the default collider, body, locked axes and friction
  come from the physics library. They are written here as that library's
  defaults: a ball of radius 0.5, a dynamic body, no locked axes, and
  friction 0.5 averaged.
- `Goals.Win`: the level index is an unbounded natural. The `usize`
  wrap-around at 2^64 is not modelled.
- `Vitality` is defined outside the modelled files. It is an input to the
  pause request, with values `Alive` and `Dead`.
- Engine plumbing is not modelled: `Commands` deferral (state and respawn
  requests are returned as values), system ordering labels, run conditions,
  app wiring in `main.rs`, and `levels.single()` and `vitality.single()`
  panicking when there is not exactly one entity.
- Rendering, UI, audio and parallax are out of scope (`ui.rs`, `apophis.rs`,
  `music.rs`, the layout in `spawn_pause_screen`), and so are level spawning
  (`level_transition.rs`) and sensor spawning (`spawn_ground_sensor`).
