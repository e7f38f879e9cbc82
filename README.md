# Bouncing-ball time-travel simulator, modelled in Dafny

The repository simulates one ball that falls under gravity and bounces on a
ground line with damping. The user can play and pause the simulation, step
forward or backward by frames or by seconds, jump to a time, and rewind to
the nearest stored moment. This project models the core of that program and
proves what it promises.

What is modelled:

- **The two time controllers.** Each keeps two bounded histories in
  lockstep: ball snapshots, and the simulation times they were saved at.
  - `TimeManager` (`src/time_manager.py`) drives the `.state` ball of
    `src/physics.py`.
  - `PhysicsSimulation` (`src/simulation/physics_simulation.py`, with a
    byte-identical archived copy) owns the unified ball of
    `src/physics/ball.py`.
  - Both are modelled as classes whose methods change their fields in place.
    Each method is proved equal to a specification function over a value
    (`Machine` or `World`), and the properties are proved about those
    functions as lemmas.
  - The histories are `deque(maxlen=…)`. Module `History` models them as two
    sequences with a capacity, where a push onto a full deque drops the
    oldest entry. The same module holds the nearest-time scan, where the
    first index wins ties.
- **The two ball integrators.**
  - `Physics` models `src/physics.py`: `PhysicsState`, `PhysicsObject`, the
    `.state` `Ball` and `PhysicsEngine`.
  - `PhysicsBall` models `src/physics/ball.py`.
  - Both cover the rest test, semi-implicit Euler, clamp-to-ground with a
    damped reflection and a snap to 0 below the minimum bounce speed, and
    the energies.
  - Floating-point numbers are modelled as `real`.
- **The web engine** (`WebEngine`, `src/physics_engine.py`). The viewport
  bounds and the affine physics↔canvas mapping, with both round trips.
- **The web renderer's conversions and the shadow alpha** (`Renderer`,
  `src/simulation/renderer.py` and its identical archived copy).
- **The widgets.**
  - `Widgets` holds the key editing, press and checkbox protocols that both
    GUI modules share.
  - `Gui` models `src/gui.py`: button, text field, checkbox and the manager
    that dispatches an event to the first element that consumes it.
  - `GuiElements` models the older
    `archive/desktop-version/src/ui/gui_elements.py`.
  - pygame events are abstracted to an `Event` datatype.
  - A callback is recorded as a click counter or a log of reported values.

Supporting modules:

| module | holds |
|---|---|
| `Wrappers` | `Option`, `Result`, `Outcome` |
| `Numbers` | `Abs`, min/max, `Ceil`, and `Trunc` (Python's `int()` on a float) |
| `Bounce` | the damped reflection |
| `Lists` | `Count`, and `list.remove` as `RemoveFirst` |
| `Decimal` | `str()` of an integer |

## Model

`src/simulation/physics_simulation.py`, `src/physics/ball.py` and `src/simulation/renderer.py` are byte-identical to their copies under `archive/desktop-version/`. Each row citing one of them also covers the archived copy at the same lines. For the text field's key editing, the `Widgets` rows also cover `archive/desktop-version/src/ui/gui_elements.py:117-136`.

| member | source | states |
|---|---|---|
| History.Push | src/time_manager.py:30-31 | appending to a deque with `maxlen` grows it by one until full, then keeps the length at the cap; the new entry is last |
| History.PushKeepsNewest | src/time_manager.py:61-65 | a push keeps exactly the newest entries of the old contents followed by the new one (the oldest is dropped when full) |
| History.PushAll | src/simulation/physics_simulation.py:58-59 | a run of appends to a bounded deque never exceeds the capacity; its contents are stated in `History.PushAllKeepsNewest` |
| History.PushAllKeepsNewest | src/simulation/physics_simulation.py:58-59 | any sequence of pushes leaves exactly the newest `min(len, maxlen)` of everything pushed, in order |
| History.Saved | src/time_manager.py:61-65 | `save_state` pushes the snapshot and the current time together: lockstep and the bound are kept, the tail pair is (snapshot, now), the clock is unchanged |
| History.SavedKeepsOrder | src/time_manager.py:61-65 | saving keeps the stored times non-decreasing, non-negative and no later than the clock |
| History.AdvancedKeepsOrder | src/time_manager.py:67-70 | save followed by advancing the clock by a non-negative tick keeps the times ordered |
| History.Advanced | src/time_manager.py:67-70 | save then advance the clock by `h`: lockstep and the bound are kept, the tail pair is (snapshot, old clock), the clock moves by exactly `h`, and while not full the old entries stay as a prefix |
| History.PushKeepsOrder | src/time_manager.py:65 | pushing a time no earlier than every stored one keeps the deque ordered and bounded by it |
| History.Dropped | src/time_manager.py:136-140 | popping `k` pairs removes `min(k, len)` from the tail of both deques and keeps the rest as a prefix |
| History.DroppedKeepsOrder | src/time_manager.py:136-140 | popping keeps the remaining times ordered |
| History.TruncatedKeepsOrder | src/time_manager.py:143-145 | a prefix of an ordered history with the clock set to its newest time is ordered, and that clock is no later than before |
| History.FirstNearest | src/time_manager.py:200-208 | returns the first index whose time is nearest the target: no index is nearer and no earlier index is as near |
| History.FirstNearestIsUnique | src/time_manager.py:204-208 | the strict `<` makes the chosen index unique: two first-nearest indices are equal |
| History.FindNearest | src/time_manager.py:200-208 | the scan with `best_idx`/`best_diff` returns exactly the first nearest index |
| History.Rewound | src/time_manager.py:210-221 | a rewind keeps the entries up to and including the first nearest one, and the clock takes that entry's time |
| History.RewoundNearestAndOrdered | src/time_manager.py:194-221 | after a rewind the clock is at least as near the target as every stored time; an ordered history stays ordered and the clock never moves forward |
| TimeManagement.Tick | src/time_manager.py:105-108 | one forward tick saves (ball, now), updates the ball, and adds `dt` to the clock, keeping lockstep and the bound |
| TimeManagement.Run | src/time_manager.py:105-108 | `n` ticks keep lockstep, the bound and the play flag; clock, length, prefix and order are stated in `RunClock`, `RunHistoryLength`, `RunHistoryPrefix` and `RunKeepsOrder` |
| TimeManagement.RunClock | src/time_manager.py:105-108 | `n` ticks move the clock by exactly `n*dt` |
| TimeManagement.RunHistoryLength | src/time_manager.py:105-108 | `n` ticks leave `min(len + n, cap)` entries |
| TimeManagement.RunHistoryPrefix | src/time_manager.py:105-108 | while nothing is evicted, `n` ticks keep the old history as a prefix |
| TimeManagement.RunKeepsOrder | src/time_manager.py:61-70 | ticks with a non-negative `dt` keep the stored times ordered and no later than the clock |
| TimeManagement.Paused | src/time_manager.py:110-111 | the auto-pause clears the play flag only when enabled, and changes nothing else |
| TimeManagement.AfterReset | src/time_manager.py:90-98 | `reset` empties both histories, sets the clock to 0 and pauses, and leaves the ball untouched |
| TimeManagement.ForwardFrames | src/time_manager.py:100-113 | a non-positive frame count changes nothing, not even the play flag |
| TimeManagement.ForwardFramesEffect | src/time_manager.py:100-113 | `n > 0` frames move the clock by `n*dt`, leave `min(len + n, cap)` entries, keep the order, and honour auto-pause |
| TimeManagement.TickCount | src/time_manager.py:120 | `int(amount/dt)` for positive operands: the largest `k` with `k*dt <= amount` |
| TimeManagement.ForwardTime | src/time_manager.py:115-118 | a non-positive amount changes nothing |
| TimeManagement.ForwardTimeLands | src/time_manager.py:115-129 | a positive amount performs whole ticks only: the clock ends at most `dt` short of `now + amount`, never past it, with order and auto-pause |
| TimeManagement.BackwardFrames | src/time_manager.py:131-134 | a non-positive count changes nothing; otherwise lockstep holds and the history never grows |
| TimeManagement.BackwardFramesEffect | src/time_manager.py:136-152 | `k > 0` keeps the oldest `len - min(k, len)` pairs; the ball and clock take the newest kept pair, or a reset happens when none is left; the clock never moves forward |
| TimeManagement.StepBackWhenRewindable | src/time_manager.py:223-225 | when `can_rewind` holds, one frame back restores the previous snapshot and time instead of resetting |
| TimeManagement.RewindTo | src/time_manager.py:196-198 | an empty history makes the rewind a reset |
| TimeManagement.RewindEffect | src/time_manager.py:194-221 | a rewind keeps the history up to the first nearest entry and restores its ball and time; that time is at least as near the target as every stored one; the play flag is kept |
| TimeManagement.RewindKeepsOrder | src/time_manager.py:194-221 | a rewind keeps the order and never moves the clock forward |
| TimeManagement.BackwardTime | src/time_manager.py:156-158 | a non-positive amount changes nothing |
| TimeManagement.BackwardTimeRoutes | src/time_manager.py:156-170 | stepping back at least the elapsed time resets; stepping back less rewinds to `now - amount`; order kept and the clock never moves forward |
| TimeManagement.Jump | src/time_manager.py:172-176 | a negative target is rejected and changes nothing |
| TimeManagement.JumpRoutes | src/time_manager.py:172-192 | a later target runs whole ticks and stops within `dt` below it; an equal target only auto-pauses; a target of 0 resets; an earlier positive target lands on the nearest stored time; order is kept |
| TimeManagement.ForwardThenBackward | src/time_manager.py:136-145 | `n` frames forward then `n` back restore both histories (when nothing was evicted), but the ball and clock land on the entry stored before the forward run, or reset if there was none: not an exact round trip |
| TimeManagement.OwnHeightLiftsRestingBall | src/time_manager.py:107 | as written, a ball at rest with zero acceleration is moved up by its radius in one frame, because its own height is passed as the ground |
| TimeManagement.LevelGroundKeepsRestingBall | src/time_manager.py:123 | with the scene's ground, as `step_forward_time` passes it, a ball resting on the ground stays put for any number of frames |
| TimeManagement.ModeName | src/time_manager.py:13-16 | the step mode's value is "frames" exactly for frame mode, otherwise "seconds" |
| TimeManagement.TimeManager.constructor | src/time_manager.py:21-31 | `dt = 1/target_fps`, clock 0, paused, seconds mode, no auto-pause, empty histories |
| TimeManagement.TimeManager.SaveState | src/time_manager.py:61-65 | the histories become `Saved(old, ball state)`; lockstep and the bound hold |
| TimeManagement.TimeManager.StepTime | src/time_manager.py:67-70 | the clock grows by the amount; the histories are untouched and stay ordered for a non-negative amount |
| TimeManagement.TimeManager.TogglePlayPause | src/time_manager.py:72-76 | the play flag flips and nothing else changes |
| TimeManagement.TimeManager.Pause | src/time_manager.py:78-82 | afterwards paused; nothing else changes |
| TimeManagement.TimeManager.Play | src/time_manager.py:84-88 | afterwards playing; nothing else changes |
| TimeManagement.TimeManager.Reset | src/time_manager.py:90-98 | clock 0, paused, histories empty; step mode and auto-pause kept |
| TimeManagement.TimeManager.TickOnce | src/time_manager.py:105-108 | one loop iteration equals `Tick` on the controller and ball state |
| TimeManagement.TimeManager.RunTicks | src/time_manager.py:105-108 | the loop equals `Run`, `n` ticks |
| TimeManagement.TimeManager.StepForwardFrames | src/time_manager.py:100-113 | the method equals `ForwardFrames` with the ball's own height as the ground (as written) |
| TimeManagement.TimeManager.StepForwardFramesOnGround | src/time_manager.py:100-113 | the corrected frame step equals `ForwardFrames` with the scene's ground |
| TimeManagement.TimeManager.StepForwardTime | src/time_manager.py:115-129 | the method equals `ForwardTime` (`int(amount/dt)` ticks, remainder dropped) |
| TimeManagement.TimeManager.PopFrames | src/time_manager.py:136-140 | the pop loop equals `Dropped`, `min(k, len)` pairs from the tail |
| TimeManagement.TimeManager.RestoreTail | src/time_manager.py:143-148 | ball and clock take the tail pair, or the controller resets when the history is empty |
| TimeManagement.TimeManager.StepBackwardFrames | src/time_manager.py:131-154 | the method equals `BackwardFrames` |
| TimeManagement.TimeManager.RewindToTime | src/time_manager.py:194-221 | the method equals `RewindTo` |
| TimeManagement.TimeManager.ResetOrRewind | src/time_manager.py:161-165 | a target of 0 resets, any other target rewinds |
| TimeManagement.TimeManager.StepBackwardTime | src/time_manager.py:156-170 | the method equals `BackwardTime` |
| TimeManagement.TimeManager.JumpToTime | src/time_manager.py:172-192 | the method equals `Jump` |
| TimeManagement.TimeManager.CanRewind | src/time_manager.py:223-225 | true exactly when more than one frame is stored |
| TimeManagement.TimeManager.GetHistoryInfo | src/time_manager.py:227-237 | frames stored, at most `maxlen`; seconds stored = frames / fps; `can_rewind`, time, play flag and mode name as held |
| TimeManagement.TimeManager.SetStepMode | src/time_manager.py:239-242 | the mode becomes the argument; nothing else changes |
| TimeManagement.TimeManager.ToggleStepMode | src/time_manager.py:244-249 | the mode flips; nothing else changes |
| TimeManagement.TimeManager.SetAutoPause | src/time_manager.py:251-254 | the flag becomes the argument; nothing else changes |
| TimeManagement.TimeManager.GetSuggestedStepValue | src/time_manager.py:256-261 | "1.0" in seconds mode; in frame mode a digit string whose value is the frame rate |
| Decimal.DigitsRoundTrip | src/time_manager.py:259 | the decimal string of a natural number reads back as that number |
| Decimal.IntToString | src/time_manager.py:259 | `str(n)`: a leading '-' exactly for negatives, followed by digits whose value is `|n|` |
| Simulation.Tick | src/simulation/physics_simulation.py:148-155 | one sub-step saves (ball, now), moves the ball by `h` and the clock by `h`, keeping lockstep and the 500-entry bound |
| Simulation.BallTick | src/simulation/physics_simulation.py:148-153 | no contract of its own; one update and collision check of the unified ball on the scene's ground, whose properties are in `PhysicsBall.CollisionBound` and `PhysicsBall.CollisionSpeed` |
| Simulation.Frames | src/simulation/physics_simulation.py:172-181 | `n` forward frames keep lockstep, the 500-entry bound and the play flag; clock and order are stated in `Simulation.FramesEffect` |
| Simulation.FramesEffect | src/simulation/physics_simulation.py:172-182 | `n` frames move the clock by `n*dt` and keep the order |
| Simulation.Remaining | src/simulation/physics_simulation.py:143-146 | the number of sub-steps left, `ceil((target-now)/dt)`, is positive exactly while the clock is short of the target |
| Simulation.SubStepProgress | src/simulation/physics_simulation.py:145-146 | each `min(dt, remaining)` sub-step decreases that count by one, so the `while` loop terminates |
| Simulation.RunUntil | src/simulation/physics_simulation.py:143-155 | the loop keeps lockstep and the bound, keeps the play flag, and does nothing once the target is reached |
| Simulation.RunUntilLands | src/simulation/physics_simulation.py:140-155 | a forward time step lands exactly on the target after `ceil(s/dt)` pushes (at most 500 kept), keeping the order |
| Simulation.Autopaused | src/simulation/physics_simulation.py:164-165 | the auto-pause clears only the play flag, and only when enabled |
| Simulation.Restarted | src/simulation/physics_simulation.py:121-136 | `reset`: clock 0, paused, histories empty, ball at the start position with zero velocity and acceleration, radius and mass kept |
| Simulation.Updated | src/simulation/physics_simulation.py:66-80 | while paused nothing changes; while playing one snapshot is pushed, the clock grows by `dt`, and play continues |
| Simulation.RewindTo | src/simulation/physics_simulation.py:226-230 | an empty history makes the rewind a reset |
| Simulation.RewindEffect | src/simulation/physics_simulation.py:226-252 | the rewind keeps the history up to the first nearest entry and restores its ball and time, at least as near the target as every stored time; the order is kept and the clock never moves forward |
| Simulation.BackFramesEffect | src/simulation/physics_simulation.py:183-196 | `k` frames back keep the oldest `len - min(k, len)` pairs and restore the newest kept one, or reset; the clock never moves forward |
| Simulation.BackFrames | src/simulation/physics_simulation.py:182-194 | frames back keep lockstep and never grow the history; the kept pairs and the restore are stated in `Simulation.BackFramesEffect` |
| Simulation.TimeMoved | src/simulation/physics_simulation.py:138-162 | a zero step changes nothing; a negative step pauses exactly when it resets |
| Simulation.StepTime | src/simulation/physics_simulation.py:138-168 | `step_simulation_time`: a zero step changes only the auto-pause; the final play flag is stated for every step |
| Simulation.StepTimeForwardLands | src/simulation/physics_simulation.py:140-155 | a positive time step lands exactly on `now + s`, keeping the order |
| Simulation.StepTimeBackwardRoutes | src/simulation/physics_simulation.py:156-162 | a negative step resets when `now + s <= 0`, otherwise rewinds to `now + s` |
| Simulation.FramesMoved | src/simulation/physics_simulation.py:170-196 | a zero frame count changes nothing |
| Simulation.StepFrames | src/simulation/physics_simulation.py:170-202 | `step_simulation_frames`: `n > 0` runs `n` frames then auto-pauses; zero only auto-pauses |
| Simulation.StepBackWhenRewindable | src/simulation/physics_simulation.py:265-267 | when `can_rewind` holds, one frame back restores the previous snapshot instead of resetting |
| Simulation.JumpRoutes | src/simulation/physics_simulation.py:204-224 | a negative target from a positive time resets; a later target is reached exactly; a negative target at time 0 only auto-pauses; an earlier positive target lands on the nearest stored time |
| Simulation.Jump | src/simulation/physics_simulation.py:204-224 | a jump keeps lockstep and the 500-entry bound; its routes are stated in `Simulation.JumpRoutes` |
| Simulation.CoordsName | src/simulation/physics_simulation.py:96 | the coordinate system's name is "screen" exactly for screen coordinates |
| Simulation.DimensionOr | src/simulation/physics_simulation.py:35-36 | `value or default`: the default, or the given non-zero value |
| Simulation.PhysicsSimulation.constructor | src/simulation/physics_simulation.py:26-64 | size with defaults for missing or zero dimensions; ground at `height - 50` in screen coordinates and 0 otherwise; ball at `(width // 2, start y)` at rest; clock 0, paused, flags off, empty histories |
| Simulation.PhysicsSimulation.GetState | src/simulation/physics_simulation.py:87-113 | the reported ball, time and play flag are the current ones; the energy is the ball's, non-negative for a non-negative mass, with total = kinetic + potential |
| Simulation.PhysicsSimulation.SaveState | src/simulation/physics_simulation.py:82-85 | the histories become `Saved(old, ball state)` |
| Simulation.PhysicsSimulation.Advance | src/simulation/physics_simulation.py:148-155 | one save, ball update, collision and clock advance equals `Tick` |
| Simulation.PhysicsSimulation.MoveBall | src/simulation/physics_simulation.py:149-154 | the ball is updated and collided on the scene's ground (given only in screen coordinates) |
| Simulation.PhysicsSimulation.Update | src/simulation/physics_simulation.py:66-80 | the method equals `Updated` and returns the new state |
| Simulation.PhysicsSimulation.TogglePlayPause | src/simulation/physics_simulation.py:115-119 | flips and returns the play flag; nothing else changes |
| Simulation.PhysicsSimulation.Reset | src/simulation/physics_simulation.py:121-136 | the method equals `Restarted` |
| Simulation.PhysicsSimulation.PopFrames | src/simulation/physics_simulation.py:185-189 | the pop loop equals `Dropped` |
| Simulation.PhysicsSimulation.RestoreTail | src/simulation/physics_simulation.py:192-196 | ball and clock take the tail pair, or reset when the history is empty |
| Simulation.PhysicsSimulation.RewindToTime | src/simulation/physics_simulation.py:226-252 | the method equals `RewindTo` |
| Simulation.PhysicsSimulation.KeepThrough | src/simulation/physics_simulation.py:243-248 | pops every pair after the chosen index, so that entry becomes the tail of both histories |
| Simulation.PhysicsSimulation.ResetOrRewind | src/simulation/physics_simulation.py:159-162 | a target of 0 resets, any other target rewinds |
| Simulation.PhysicsSimulation.RunToTarget | src/simulation/physics_simulation.py:142-155 | the `while` loop equals `RunUntil` |
| Simulation.PhysicsSimulation.MoveByTime | src/simulation/physics_simulation.py:140-162 | the method equals `TimeMoved` |
| Simulation.PhysicsSimulation.StepSimulationTime | src/simulation/physics_simulation.py:138-168 | the method equals `StepTime` |
| Simulation.PhysicsSimulation.RunFrames | src/simulation/physics_simulation.py:174-182 | the `for` loop equals `Frames` |
| Simulation.PhysicsSimulation.MoveByFrames | src/simulation/physics_simulation.py:172-196 | the method equals `FramesMoved` |
| Simulation.PhysicsSimulation.StepSimulationFrames | src/simulation/physics_simulation.py:170-202 | the method equals `StepFrames` |
| Simulation.PhysicsSimulation.JumpToTime | src/simulation/physics_simulation.py:204-224 | the method equals `Jump` |
| Simulation.PhysicsSimulation.SetBallStartPosition | src/simulation/physics_simulation.py:254-263 | equals a restart at the given position: clock 0, paused, histories empty, ball at rest there |
| Simulation.PhysicsSimulation.CanRewind | src/simulation/physics_simulation.py:265-267 | true exactly when more than one frame is stored |
| Simulation.PhysicsSimulation.GetHistoryInfo | src/simulation/physics_simulation.py:269-276 | frames stored, at most 500; seconds stored = frames / 144; `can_rewind` exactly when more than one frame |
| Simulation.PhysicsSimulation.ToggleStepUnit | src/simulation/physics_simulation.py:278-283 | flips `step_by_frames` and returns "frames" exactly when it is now set, "seconds" otherwise |
| Simulation.PhysicsSimulation.SetAutoPause | src/simulation/physics_simulation.py:285-288 | the flag becomes the argument; nothing else changes |
| Simulation.PhysicsSimulation.GetBallPosition | src/simulation/physics_simulation.py:290-292 | the ball's current x and y |
| Simulation.PhysicsSimulation.GetBallVelocity | src/simulation/physics_simulation.py:294-296 | the ball's current vertical velocity |
| Bounce.Rebound | src/physics/ball.py:124-127 | the new velocity is `-v*damping` when that is at least the minimum speed, else 0, so it is 0 or at least the minimum |
| PhysicsBall.ParamsFor | src/physics/ball.py:49-57 | gravity is `-6000` in physics coordinates and `+6000` in screen coordinates; damping 0.8 and minimum speed 50 |
| PhysicsBall.OrDefault | src/physics/ball.py:40-41 | `value or default`: the default, or the given non-zero value |
| PhysicsBall.EnergyOf | src/physics/ball.py:210-222 | kinetic and potential energy are non-negative for a non-negative mass; total = kinetic + potential; no kinetic energy without velocity |
| PhysicsBall.AccelerationZeroIffAtRest | src/physics/ball.py:95-107 | after an update the acceleration is 0 exactly when the ball was at rest, and gravity otherwise |
| PhysicsBall.Integrated | src/physics/ball.py:86-111 | no contract of its own; the rest test and semi-implicit Euler step, whose properties are in `PhysicsBall.AccelerationZeroIffAtRest` and `PhysicsBall.RestIsFixedPoint` |
| PhysicsBall.Collided | src/physics/ball.py:113-138 | no contract of its own; the clamp and bounce, whose properties are in `PhysicsBall.CollisionBound` and `PhysicsBall.CollisionSpeed` |
| PhysicsBall.CollisionBound | src/physics/ball.py:120-138 | after the collision check the ball is never past the ground (`y >= radius`, or `y + radius <= ground_y`) |
| PhysicsBall.CollisionSpeed | src/physics/ball.py:120-138 | a collision leaves the speed at 0 or at least the minimum; without contact nothing changes |
| PhysicsBall.RestIsFixedPoint | src/physics/ball.py:95-138 | a ball at rest on the ground is unchanged by update and collision, apart from its acceleration becoming 0 |
| PhysicsBall.Ball.constructor | src/physics/ball.py:26-57 | position as given, radius and mass default when missing or zero, velocity and acceleration 0, coordinate-dependent gravity |
| PhysicsBall.Ball.Update | src/physics/ball.py:86-111 | screen coordinates without a ground fail and leave the ball unchanged; otherwise the rest test and semi-implicit Euler step |
| PhysicsBall.Ball.BounceAt | src/physics/ball.py:123-127 | the ball is clamped to the floor and its velocity rebounds |
| PhysicsBall.Ball.CheckGroundCollision | src/physics/ball.py:113-138 | screen coordinates without a ground fail and leave the ball unchanged; otherwise the ball is clamped and bounced on contact |
| PhysicsBall.Ball.SetState | src/physics/ball.py:187-198 | the ball takes every field of the snapshot, so `set_state(get_state())` changes nothing |
| PhysicsBall.Ball.GetEnergy | src/physics/ball.py:200-222 | fails exactly in screen coordinates without a ground; otherwise returns the ball's energies |
| PhysicsBall.Ball.ResetToPosition | src/physics/ball.py:224-230 | the position is set and the velocity and acceleration are zeroed; radius and mass are kept |
| Physics.KinematicsDisplacement | src/physics.py:40-48 | velocities change by `a*dt` first, then positions move by `v*dt + a*dt²` (semi-implicit Euler) on both axes |
| Physics.Kinematics | src/physics.py:40-48 | no contract of its own; the semi-implicit Euler step, whose displacement is stated in `Physics.KinematicsDisplacement` |
| Physics.Ball.Next | src/physics.py:67-82 | no contract of its own; the rest test, kinematic step and collision, whose properties are in `Physics.GroundBound` and `Physics.AccelerationRule` |
| Physics.Ball.Collided | src/physics.py:84-92 | no contract of its own; the clamp and bounce, whose properties are in `Physics.GroundBound` and `Physics.BounceRule` |
| Physics.PhysicsObject.constructor | src/physics.py:28-34 | mass, gravity and damping as given; state at the position with no velocity or acceleration |
| Physics.PhysicsObject.ApplyGravity | src/physics.py:36-38 | only the vertical acceleration changes, to gravity |
| Physics.PhysicsObject.Update | src/physics.py:40-48 | the state becomes its kinematic step |
| Physics.PhysicsObject.SetState | src/physics.py:54-56 | the state becomes the given snapshot, a value that later updates cannot alter |
| Physics.Ball.constructor | src/physics.py:61-65 | radius, mass, gravity and damping as given; state at the position, at rest |
| Physics.Ball.CheckGroundCollision | src/physics.py:84-92 | the state becomes its collided form |
| Physics.Ball.Update | src/physics.py:67-82 | the rest test, the kinematic step and the collision check, in that order |
| Physics.Ball.SetState | src/physics.py:54-56 | the state becomes the given snapshot |
| Physics.Ball.KineticEnergy | src/physics.py:94-98 | `0.5*m*(vx²+vy²)` is non-negative for a non-negative mass, and 0 without velocity |
| Physics.Ball.PotentialEnergy | src/physics.py:100-103 | non-negative for non-negative mass and gravity, 0 on or below the ground |
| Physics.Ball.TotalEnergy | src/physics.py:105-107 | total = kinetic + potential, and bounds both |
| Physics.GroundBound | src/physics.py:84-87 | after a collision check or an update the ball is never below the ground line |
| Physics.BounceRule | src/physics.py:88-92 | on contact the velocity is reflected and damped, or 0 below the minimum speed |
| Physics.AccelerationRule | src/physics.py:70-76 | the vertical acceleration is 0 exactly at rest, gravity otherwise |
| Physics.FallFromRest | src/test_refactored.py:73-80 | a ball released at rest in mid-air moves down the screen and gains downward velocity on its first update |
| Physics.TickBody | src/physics.py:127-131 | an engine element is updated in place, a ball with the engine's ground |
| Physics.DistinctRefs | src/physics.py:114 | distinct elements of the list are distinct objects |
| Physics.PhysicsEngine.constructor | src/physics.py:112-114 | the ground as given and no objects |
| Physics.PhysicsEngine.AddObject | src/physics.py:116-118 | the object is appended |
| Physics.PhysicsEngine.RemoveObject | src/physics.py:120-123 | the first occurrence is removed if present; otherwise nothing changes |
| Physics.PhysicsEngine.Clear | src/physics.py:133-135 | the list is empty |
| Physics.PhysicsEngine.Update | src/physics.py:125-131 | every listed object is ticked once per occurrence in the list, balls with the engine's ground |
| Lists.RemoveFirst | src/physics.py:120-123 | `list.remove`: removes exactly the first occurrence, one fewer element, multiset minus one copy |
| Lists.Count | src/physics.py:127 | how often an element occurs, 0 exactly when absent |
| WebEngine.ViewportBounds | src/physics_engine.py:36-48 | `min_x = 0`, `max_x = width`, `min_y = -300`, `max_y = max(y + r + 50, 600)`, so the span is at least 900 and the conversions never divide by 0 |
| WebEngine.ToPhysicsY | src/physics_engine.py:57-61 | the conversion is undefined exactly when the canvas height is 0 |
| WebEngine.ToCanvasY | src/physics_engine.py:50-55 | no contract of its own; the scaling of the viewport onto `[h, 0]`, whose properties are in `WebEngine.ToCanvasEndpoints`, `WebEngine.PhysicsRoundTrip` and `WebEngine.CanvasRoundTrip` |
| WebEngine.ToCanvasEndpoints | src/physics_engine.py:54-55 | `min_y` maps to the canvas bottom and `max_y` to 0 |
| WebEngine.PhysicsRoundTrip | src/physics_engine.py:50-61 | canvas→physics after physics→canvas returns the physics y, for every non-zero canvas height |
| WebEngine.CanvasRoundTrip | src/physics_engine.py:50-61 | physics→canvas after canvas→physics returns the canvas y |
| WebEngine.ViewportConversionsInverse | src/physics_engine.py:36-61 | for the simulation's own viewport both conversions are defined and mutually inverse |
| WebEngine.WebSimulation.constructor | src/physics_engine.py:19-32 | physics coordinates, ground 0, size as given, padding 50 and minimum height 600, clock 0, paused, empty history |
| WebEngine.WebSimulation.GetViewportBounds | src/physics_engine.py:36-48 | the bounds for the current ball and width |
| WebEngine.WebSimulation.PhysicsToCanvasY | src/physics_engine.py:50-55 | the conversion through the current viewport |
| WebEngine.WebSimulation.CanvasToPhysicsY | src/physics_engine.py:57-61 | the conversion through the current viewport; undefined exactly for a zero canvas height |
| WebEngine.WebSimulation.GetState | src/physics_engine.py:63-67 | the base state plus the current viewport |
| WebEngine.WebSimulation.SetStartY | src/physics_engine.py:69-78 | a restart with the ball's bottom at `start_y` and its centre at `width // 2`: clock 0, paused, histories empty |
| Renderer.WebSimulationRenderer.PhysicsToCanvasY | src/simulation/renderer.py:265-282 | canvas y + physics y = canvas height - 100 |
| Renderer.WebSimulationRenderer.CanvasToPhysicsY | src/simulation/renderer.py:284-296 | physics y + canvas y = canvas height - 100 |
| Renderer.ConversionsInverse | src/simulation/renderer.py:265-296 | the two conversions are mutual inverses for every canvas height |
| Renderer.GroundAndOrientation | src/simulation/renderer.py:276-282 | physics 0 maps to `h - 100`, and higher in physics is higher on the canvas (smaller canvas y) |
| Renderer.WebSimulationRenderer.constructor | src/simulation/renderer.py:253-263 | keeps the width and height |
| Renderer.ShadowAlphaRange | src/simulation/renderer.py:165-169 | the alpha is within [0, 100], is 100 on the ground, and is positive exactly within 200 units of it |
| Renderer.ShadowAlpha | src/simulation/renderer.py:165-169 | no contract of its own; `max(0, 100 - int(abs(int(y) - ground)/2))`, whose properties are in `Renderer.ShadowAlphaRange` |
| Widgets.Take | src/gui.py:140 | Python's `s[:n]` for a non-negative `n` |
| Widgets.SliceTo | src/gui.py:214 | Python's `s[:n]` for any integer `n`, negative ones counting from the end |
| Widgets.KeyEdit | src/gui.py:136-158 | no contract of its own; `handle_key_event` as written (also `archive/desktop-version/src/ui/gui_elements.py:117-136`), whose effect and bounds are in `Widgets.KeyEditEffect`, `Widgets.KeyEditKeepsRange` and `Widgets.EmptyUnicodeMovesCursorPastEnd` |
| Widgets.KeyEditChecked | src/gui.py:153-157 | no contract of its own; the corrected editing that inserts a key's text only when it is one character, whose properties are in `Widgets.KeyEditCheckedKeepsRange` and `Widgets.KeyEditCheckedAgrees` |
| Widgets.KeyEditEffect | src/gui.py:138-157 | Backspace removes the character before the cursor; Delete removes the one at it; Left/Right clamp to the text; Home gives 0; End gives the length; a printable key is inserted at the cursor while the text is shorter than the maximum |
| Widgets.KeyEditKeepsRange | src/gui.py:138-157 | as written, every key except one with empty text keeps the cursor within the text, and any key of at most one character keeps the length within the maximum |
| Widgets.EmptyUnicodeMovesCursorPastEnd | src/gui.py:153-157 | as written, a key with empty text in an empty field moves the cursor to 1, past the end |
| Widgets.KeyEditCheckedKeepsRange | src/gui.py:153-157 | as intended (one character inserted), every key keeps the cursor within the text and the length within the maximum |
| Widgets.KeyEditCheckedAgrees | src/gui.py:136-158 | the corrected editing agrees with the written one on every key with exactly one character of text |
| Widgets.PressProtocol | src/gui.py:66-79 | a press inside arms the button; a release runs the callback exactly when armed and inside; every release disarms; other events change nothing |
| Widgets.PressReact | src/gui.py:66-80 | no contract of its own; the button's press and release handling, whose properties are in `Widgets.PressProtocol`, `Widgets.ClickRunsCallbackOnce` and `Widgets.ReleaseWithoutPressDoesNothing` |
| Widgets.ClickRunsCallbackOnce | src/gui.py:66-78 | a press and a release inside run the callback exactly once and leave the button idle |
| Widgets.ReleaseWithoutPressDoesNothing | src/gui.py:69-79 | a release on an unarmed button neither runs the callback nor consumes the event |
| Widgets.CheckProtocol | src/gui.py:237-246 | a press inside flips the box and reports the new value; anything else changes nothing and is not consumed |
| Widgets.CheckReact | src/gui.py:237-246 | no contract of its own; the checkbox's press handling, whose properties are in `Widgets.CheckProtocol` and `Widgets.CheckTwiceRestores` |
| Widgets.CheckTwiceRestores | src/gui.py:237-245 | two presses inside restore the box and report the flipped value, then the original one |
| Gui.ButtonStep | src/gui.py:62-80 | an invisible or disabled button changes nothing and returns False; otherwise the press protocol |
| Gui.InputStep | src/gui.py:124-134 | invisible or disabled: nothing; a press sets `active` to inside and is consumed when the field was or is active; keys edit only an active field; other events do nothing |
| Gui.CheckboxStep | src/gui.py:233-246 | an invisible or disabled box changes nothing; otherwise the checkbox protocol |
| Gui.Button.constructor | src/gui.py:54-60 | visible, enabled, unpressed, no clicks yet |
| Gui.Button.HandleEvent | src/gui.py:62-80 | the method equals `ButtonStep` |
| Gui.InputField.constructor | src/gui.py:113-122 | empty text, cursor 0, visible, enabled, inactive |
| Gui.InputField.HandleKeyEvent | src/gui.py:136-158 | the key handling as written (`KeyEdit`); always consumed |
| Gui.InputField.HandleKeyEventChecked | src/gui.py:136-158 | the corrected key handling; keeps the cursor in range and the length within the maximum |
| Gui.InputField.HandleEvent | src/gui.py:124-134 | the method equals `InputStep` |
| Gui.InputField.SetText | src/gui.py:212-215 | the text is truncated to the maximum length and the cursor is put at its end |
| Gui.InputField.Clear | src/gui.py:217-220 | empty text, cursor 0 |
| Gui.Checkbox.constructor | src/gui.py:225-231 | a size × size box, checked as given |
| Gui.Checkbox.HandleEvent | src/gui.py:233-246 | the method equals `CheckboxStep` |
| Gui.HandleElement | src/gui.py:328-330 | one element handles the event in place, by its own step function |
| Gui.DistinctRefs | src/gui.py:308 | distinct elements of the list are distinct objects |
| Gui.Dispatch | src/gui.py:326-331 | the elements are offered the event in order; elements not in the list are untouched |
| Gui.DispatchFirstWins | src/gui.py:326-331 | when the first element consumes the event, the result is True and no other element sees it |
| Gui.DispatchStopsAt | src/gui.py:326-331 | when entry `i` consumes the event on the state the earlier entries left it in, dispatch returns True with exactly that element's new state added: no later entry sees the event |
| Gui.ConsumerOf | src/gui.py:326-331 | a consumed event names the entry that consumed it, after every earlier entry declined it |
| Gui.DispatchConsumedBySome | src/gui.py:326-331 | the manager returns True exactly when some listed element, offered the event after every earlier entry declined it, consumes it on the state it has then |
| Gui.GuiManager.constructor | src/gui.py:305-311 | the size as given and no elements |
| Gui.GuiManager.Snapshots | src/gui.py:308 | there is one snapshot for every listed element |
| Gui.GuiManager.AddElement | src/gui.py:313-315 | the element is appended |
| Gui.GuiManager.RemoveElement | src/gui.py:321-324 | the first occurrence is removed if present |
| Gui.GuiManager.Clear | src/gui.py:473-476 | the list is empty |
| Gui.GuiManager.HandleOne | src/gui.py:328-330 | one listed element reacts to the event by its step function; every other element keeps its state |
| Gui.GuiManager.HandleEvent | src/gui.py:326-331 | the loop equals `Dispatch`, stopping at the first element that consumes |
| GuiElements.ButtonStep | archive/desktop-version/src/ui/gui_elements.py:57-74 | an invisible button changes nothing; otherwise the same press protocol, with no `enabled` gate |
| GuiElements.InputStep | archive/desktop-version/src/ui/gui_elements.py:106-138 | a press sets `active` to inside and is consumed exactly when inside; keys edit only an active field |
| GuiElements.CheckboxStep | archive/desktop-version/src/ui/gui_elements.py:195-206 | an invisible box changes nothing; otherwise a press inside flips it and reports the new value |
| GuiElements.InputVariantsDiffer | archive/desktop-version/src/ui/gui_elements.py:110-115 | the two fields agree on every event except a press outside an active field, which only the newer one reports as consumed |
| GuiElements.Button.constructor | archive/desktop-version/src/ui/gui_elements.py:49-55 | visible, unpressed, no clicks yet |
| GuiElements.Button.HandleEvent | archive/desktop-version/src/ui/gui_elements.py:57-74 | the method equals `ButtonStep` |
| GuiElements.InputField.constructor | archive/desktop-version/src/ui/gui_elements.py:95-104 | empty text, cursor 0, visible, inactive |
| GuiElements.InputField.HandleEvent | archive/desktop-version/src/ui/gui_elements.py:106-138 | the method equals `InputStep` |
| GuiElements.Checkbox.constructor | archive/desktop-version/src/ui/gui_elements.py:187-193 | a size × size box, checked as given |
| GuiElements.Checkbox.HandleEvent | archive/desktop-version/src/ui/gui_elements.py:195-206 | the method equals `CheckboxStep` |

## Left out

- Floating point: times, positions and velocities are `real`. Rounding is not modelled. For example, `1/144` summed 144 times is exactly 1 here.
- Drawing, fonts, textures and assets are not modelled. This covers every `draw` method, `SimulationRenderer`, `src/renderer.py`, `TextureManager`, `BallRenderer` and `Label`.
- The cursor-blink timer in `InputField.update` is not modelled.
- `GUIElement.update`, `GUIManager.update`, `add_label`, `create_control_panel`, `draw_info_panel` and `draw_controls_info` are not modelled. They only wire or draw widgets.
- `set_enabled`, `set_visible`, `Button.set_text`, `Checkbox.set_checked` and `Label.set_text` are not modelled. Each is a plain field assignment.
- The application loops and the Flask/SocketIO server are not modelled. This covers `src/main.py`, `src/main_refactored.py`, the archived `main.py` and `src/server.py`, including its background tick thread.
- Logging is not modelled. The web overrides of `step_simulation_time` and `reset` (`src/physics_engine.py:80-90`) only add logging, so the base methods stand for them.
- `TimeManager`'s observer callbacks (`src/time_manager.py:37-59`) are not modelled. They are foreign calls whose exceptions are swallowed.
- The GUI callbacks are recorded as a click counter (buttons) or a log of reported values (checkboxes). An exception raised by a callback is not modelled.
- Python's `str.isprintable` is approximated by `Widgets.PrintableChar`. A character counts as printable when it is at least a space and outside U+007F..U+00A0.
- `pygame.Rect.collidepoint` is modelled for rectangles of non-negative size only.
- Configuration modules are not modelled. GRAVITY 6000, BOUNCE_DAMPING 0.8, MIN_BOUNCE_VELOCITY 50, default radius 20 and mass 1, TARGET_FPS 144 and MAX_HISTORY_FRAMES 500 are constants here. `src/physics.py`'s defaults are constructor arguments.
- TimeManagement.TimeManager.constructor: requires a positive frame rate and a positive history capacity. `HISTORY_MAX_FRAMES` comes from a configuration module that is not part of this model, so the capacity is a parameter. A zero frame rate would raise `ZeroDivisionError` in the source.
- Coordinate systems are the enum `Screen | Physics`. A string that is neither "screen" nor "physics" (say "Screen") is not modelled. In the source such a string gets different treatment in different files. `src/simulation/physics_simulation.py` tests `== "screen"` (lines 40, 71, 102, 126, 149 and 176), so it would use ground 0, start y 420 and an update without a ground. `src/physics/ball.py` tests `== "physics"` (lines 95 and 120), so it would treat the ball as in screen coordinates, and the first update while playing would raise `ValueError`.
- Inheritance is replaced by composition and datatypes.
  - The web `PhysicsSimulation` holds a base simulation.
  - The `.state` `Ball` repeats `PhysicsObject`'s fields.
  - The engine's and the manager's heterogeneous lists are the datatypes `Physics.Body` and `Gui.Element`.
- `PhysicsState.copy` and the snapshot copies in `get_state`/`set_state` are not separate members. Snapshots are immutable datatype values, so a stored snapshot can never alias the live state.
- `PhysicsBall.Ball.SetState` takes a complete snapshot. The source's optional `radius` and `mass` keys are always present here.
- Simulation.PhysicsSimulation.GetState: the dictionary's `width`, `height`, `ground_y`, `coordinate_system`, `step_by_frames` and `auto_pause_after_step` entries are copied as held. The contract states only the ball, time, play flag and energy.

## Findings

| source | as written | input that shows it | evidently intended | confidence | as-written member | corrected member |
|---|---|---|---|---|---|---|
| src/time_manager.py:107 | `step_forward_frames` passes the ball's own `y` as `ground_y` | a ball resting on the ground with velocity 0 and acceleration 0, stepped one frame | pass the scene's ground, as `step_forward_time` does at line 123; a resting ball then stays put | not executed | TimeManagement.OwnHeightLiftsRestingBall (the ball rises by its radius) and TimeManagement.TimeManager.StepForwardFrames | TimeManagement.LevelGroundKeepsRestingBall and TimeManagement.TimeManager.StepForwardFramesOnGround |
| src/gui.py:153-157 (also archive/desktop-version/src/ui/gui_elements.py:132-136) | a key's `unicode` is inserted when `isprintable()` holds, which is true for the empty string, and the cursor then advances | an empty active field with maximum 20 receives a key with empty `unicode` (Shift): the cursor becomes 1 while the text length is 0 | insert only a single printable character, so the cursor stays within the text | not executed | Widgets.EmptyUnicodeMovesCursorPastEnd and Gui.InputField.HandleKeyEvent | Widgets.KeyEditCheckedKeepsRange and Gui.InputField.HandleKeyEventChecked |
