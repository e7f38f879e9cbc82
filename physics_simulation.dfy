/**
 * The simulation controller of `src/simulation/physics_simulation.py` (the
 * archived desktop copy is byte-identical): it owns a unified ball, a
 * ground line, the clock at `dt = 1/144`, a play/pause flag, an auto-pause
 * flag, a step-unit flag, and two histories of at most 500 entries kept in
 * lockstep. Unlike `TimeManager`, forward time steps take a shorter final
 * sub-step so that the clock lands exactly on the target, negative jump
 * targets are clamped to 0, and a reset also puts the ball back at its
 * start position.
 */
module Simulation {
  import opened Wrappers
  import opened Numbers
  import opened History
  import opened PhysicsBall

  const DEFAULT_WIDTH: int := 800
  const DEFAULT_HEIGHT: int := 600
  const GROUND_OFFSET: int := 50
  const DEFAULT_SCREEN_START_Y: real := 100.0
  const DEFAULT_PHYSICS_START_Y: real := 420.0
  const TARGET_FPS: int := 144
  const DT: real := 1.0 / 144.0
  const MAX_HISTORY_FRAMES: nat := 500

  /** What the simulation fixes at construction: the ball's constants, the ground, and the start position used by `reset`. */
  datatype Scene = Scene(p: Params, groundY: real, startX: real, startY: real)

  /** The histories with the clock, the ball's state, and the play flag. */
  datatype World = World(line: Timeline<BallState>, ball: BallState, playing: bool)

  predicate Fits(w: World) {
    w.line.InLockstep(MAX_HISTORY_FRAMES)
  }

  function StartY(coords: Coords): real {
    if coords == Screen then DEFAULT_SCREEN_START_Y else DEFAULT_PHYSICS_START_Y
  }

  /** The ball's update followed by its collision check, over a sub-step `h`. */
  function BallTick(sc: Scene, s: BallState, h: real): BallState {
    Collided(sc.p, Integrated(sc.p, s, h, sc.groundY), sc.groundY)
  }

  /** One (sub-)step: save at the current time, move the ball by `h`, advance the clock by `h`. */
  function Tick(sc: Scene, w: World, h: real): (r: World)
    requires Fits(w)
    ensures Fits(r) && r.playing == w.playing && r.line.now == w.line.now + h
    ensures 0 < |r.line.times| && r.line.states[|r.line.states| - 1] == w.ball && r.line.times[|r.line.times| - 1] == w.line.now
  {
    World(Advanced(w.line, w.ball, MAX_HISTORY_FRAMES, h), BallTick(sc, w.ball, h), w.playing)
  }

  /** `n` whole frames. */
  function Frames(sc: Scene, w: World, n: nat): (r: World)
    requires Fits(w)
    ensures Fits(r) && r.playing == w.playing
    decreases n
  {
    if n == 0 then w else Frames(sc, Tick(sc, w, DT), n - 1)
  }

  /** After `n` whole frames the clock has moved by `n*dt` and the order of the history is kept. */
  lemma {:induction false} FramesEffect(sc: Scene, w: World, n: nat)
    requires Fits(w)
    ensures Frames(sc, w, n).line.now == w.line.now + n as real * DT
    ensures w.line.Ordered() ==> Frames(sc, w, n).line.Ordered()
    decreases n
  {
    if n > 0 {
      if w.line.Ordered() {
        AdvancedKeepsOrder(w.line, w.ball, MAX_HISTORY_FRAMES, DT);
      }
      FramesEffect(sc, Tick(sc, w, DT), n - 1);
    }
  }

  /** The number of sub-steps still needed to reach `target`: `ceil((target - now)/dt)`, or 0 once there. */
  function Remaining(now: real, target: real): (k: nat)
    ensures now < target <==> 0 < k
  {
    if now < target then Ceil((target - now) * TARGET_FPS as real) else 0
  }

  /** One sub-step of length `min(dt, target - now)` leaves one sub-step fewer. */
  lemma SubStepProgress(now: real, target: real)
    requires now < target
    ensures Remaining(now + MinReal(DT, target - now), target) == Remaining(now, target) - 1
  {
    var x := (target - now) * TARGET_FPS as real;
    if target - now > DT {
      assert (target - (now + DT)) * TARGET_FPS as real == x - 1.0;
      assert Ceil(x - 1.0) == Ceil(x) - 1;
    }
  }

  /** The `while` loop of `step_simulation_time`: sub-steps of `min(dt, target - now)` until the clock reaches the target. */
  function RunUntil(sc: Scene, w: World, target: real): (r: World)
    requires Fits(w)
    ensures Fits(r) && r.playing == w.playing
    ensures target <= w.line.now ==> r == w
    decreases Remaining(w.line.now, target)
  {
    if w.line.now < target then
      SubStepProgress(w.line.now, target);
      RunUntil(sc, Tick(sc, w, MinReal(DT, target - w.line.now)), target)
    else w
  }

  /**
   * A forward time step lands exactly on the target after
   * `ceil((target - now)/dt)` pushes, keeping the order of the history.
   */
  lemma {:induction false} RunUntilLands(sc: Scene, w: World, target: real)
    requires Fits(w) && w.line.now < target
    ensures RunUntil(sc, w, target).line.now == target
    ensures |RunUntil(sc, w, target).line.times| == MinNat(|w.line.times| + Remaining(w.line.now, target), MAX_HISTORY_FRAMES)
    ensures w.line.Ordered() ==> RunUntil(sc, w, target).line.Ordered()
    decreases Remaining(w.line.now, target)
  {
    var h := MinReal(DT, target - w.line.now);
    var t := Tick(sc, w, h);
    SubStepProgress(w.line.now, target);
    if w.line.Ordered() {
      AdvancedKeepsOrder(w.line, w.ball, MAX_HISTORY_FRAMES, h);
    }
    if t.line.now < target {
      RunUntilLands(sc, t, target);
    }
  }

  function Autopaused(w: World, auto: bool): (r: World)
    ensures r.line == w.line && r.ball == w.ball && r.playing == (w.playing && !auto)
  {
    if auto then w.(playing := false) else w
  }

  /** `reset`: clock 0, paused, histories empty, ball back at the start with no velocity or acceleration. */
  function Restarted(sc: Scene, w: World): (r: World)
    ensures r.line.Ordered() && r.line.InLockstep(0) && r.line.now == 0.0 && !r.playing
    ensures r.ball.x == sc.startX && r.ball.y == sc.startY && r.ball.velocityY == 0.0 && r.ball.accelerationY == 0.0
    ensures r.ball.radius == w.ball.radius && r.ball.mass == w.ball.mass
  {
    World(Cleared(), w.ball.(x := sc.startX, y := sc.startY, velocityY := 0.0, accelerationY := 0.0), false)
  }

  /** `update`: nothing while paused; one frame while playing. */
  function Updated(sc: Scene, w: World): (r: World)
    requires Fits(w)
    ensures Fits(r) && (!w.playing ==> r == w)
    ensures w.playing ==> 0 < |r.line.states| && r.line.now == w.line.now + DT && r.line.states[|r.line.states| - 1] == w.ball && r.playing
  {
    if w.playing then Tick(sc, w, DT) else w
  }

  /** `rewind_to_time`: back to the first stored time nearest the target; an empty history restarts. */
  function RewindTo(sc: Scene, w: World, target: real): (r: World)
    requires |w.line.states| == |w.line.times|
    ensures |w.line.times| == 0 ==> r == Restarted(sc, w)
    ensures |r.line.states| == |r.line.times| <= |w.line.times|
  {
    if |w.line.times| == 0 then Restarted(sc, w)
    else
      var l := Rewound(w.line, target);
      World(l, l.states[|l.states| - 1], w.playing)
  }

  /** A rewind keeps the entries up to the nearest stored time, restores it, and never moves the clock forward. */
  lemma RewindEffect(sc: Scene, w: World, target: real)
    requires |w.line.states| == |w.line.times| && 0 < |w.line.times|
    ensures var r := RewindTo(sc, w, target);
      var i := FirstNearest(w.line.times, target);
      && r.line.states == w.line.states[..i + 1] && r.line.times == w.line.times[..i + 1]
      && r.line.now == w.line.times[i] && r.ball == w.line.states[i] && r.playing == w.playing
      && (forall j :: 0 <= j < |w.line.times| ==> Dist(r.line.now, target) <= Dist(w.line.times[j], target))
      && (w.line.Ordered() ==> r.line.Ordered() && r.line.now <= w.line.now)
  {
    RewoundNearestAndOrdered(w.line, target);
  }

  /** The backward branch of `step_simulation_frames`: pop `min(k, len)` pairs, then restore the tail or restart. */
  function BackFrames(sc: Scene, w: World, k: nat): (r: World)
    requires |w.line.states| == |w.line.times|
    ensures |r.line.states| == |r.line.times| <= |w.line.times|
  {
    var l := Dropped(w.line, k);
    if 0 < |l.times| then World(AtTail(l), l.states[|l.states| - 1], w.playing)
    else Restarted(sc, w)
  }

  /** Stepping back `k` frames keeps the oldest `len - min(k, len)` pairs and restores the newest kept one, or restarts. */
  lemma BackFramesEffect(sc: Scene, w: World, k: nat)
    requires |w.line.states| == |w.line.times|
    ensures var r := BackFrames(sc, w, k);
      var kept := |w.line.times| - MinNat(k, |w.line.times|);
      && r.line.states == w.line.states[..kept] && r.line.times == w.line.times[..kept]
      && (0 < kept ==> r.line.now == w.line.times[kept - 1] && r.ball == w.line.states[kept - 1] && r.playing == w.playing)
      && (kept == 0 ==> r == Restarted(sc, w))
      && (w.line.Ordered() ==> r.line.Ordered() && r.line.now <= w.line.now)
  {
    var kept := |w.line.times| - MinNat(k, |w.line.times|);
    if 0 < kept && w.line.Ordered() {
      TruncatedKeepsOrder(w.line, kept);
    }
  }

  /** The move `step_simulation_time` makes before auto-pausing: forward with a partial final sub-step, backward to `max(0, now + s)`. */
  function TimeMoved(sc: Scene, w: World, s: real): (r: World)
    requires Fits(w)
    ensures Fits(r)
    ensures s == 0.0 ==> r == w
    ensures r.playing == (if s < 0.0 && (w.line.now + s <= 0.0 || |w.line.times| == 0) then false else w.playing)
  {
    if s > 0.0 then RunUntil(sc, w, w.line.now + s)
    else if s < 0.0 then
      var target := MaxReal(0.0, w.line.now + s);
      if target == 0.0 then Restarted(sc, w) else RewindTo(sc, w, target)
    else w
  }

  /** `step_simulation_time`: the move, then the auto-pause, which also applies to a zero step. */
  function StepTime(sc: Scene, w: World, s: real, auto: bool): (r: World)
    requires Fits(w)
    ensures Fits(r)
    ensures s == 0.0 ==> r == Autopaused(w, auto)
    ensures r.playing == (if s < 0.0 && (w.line.now + s <= 0.0 || |w.line.times| == 0) then false else w.playing && !auto)
  {
    Autopaused(TimeMoved(sc, w, s), auto)
  }

  /** The move `step_simulation_frames` makes before auto-pausing: `n` whole frames forward, or `|n|` frames back. */
  function FramesMoved(sc: Scene, w: World, n: int): (r: World)
    requires Fits(w)
    ensures Fits(r)
    ensures n == 0 ==> r == w
  {
    if n > 0 then Frames(sc, w, n)
    else if n < 0 then BackFrames(sc, w, -n)
    else w
  }

  /** `step_simulation_frames`: the move, then the auto-pause. */
  function StepFrames(sc: Scene, w: World, n: int, auto: bool): (r: World)
    requires Fits(w)
    ensures Fits(r)
    ensures n == 0 ==> r == Autopaused(w, auto)
    ensures 0 < n ==> r == Autopaused(Frames(sc, w, n), auto)
  {
    Autopaused(FramesMoved(sc, w, n), auto)
  }

  /** `jump_to_time`: a negative target is clamped to 0; then rewind, restart, step forward or stay. */
  function Jump(sc: Scene, w: World, target: real, auto: bool): (r: World)
    requires Fits(w)
    ensures Fits(r)
  {
    var t := if target < 0.0 then 0.0 else target;
    if t < w.line.now then
      if t == 0.0 then Autopaused(Restarted(sc, w), auto) else Autopaused(RewindTo(sc, w, t), auto)
    else if t > w.line.now then Autopaused(StepTime(sc, w, t - w.line.now, auto), auto)
    else Autopaused(w, auto)
  }

  /** A positive time step lands exactly on `now + s`. */
  lemma StepTimeForwardLands(sc: Scene, w: World, s: real, auto: bool)
    requires Fits(w) && 0.0 < s
    ensures StepTime(sc, w, s, auto).line.now == w.line.now + s
    ensures w.line.Ordered() ==> StepTime(sc, w, s, auto).line.Ordered()
  {
    RunUntilLands(sc, w, w.line.now + s);
  }

  /** A negative time step restarts when it reaches 0 and otherwise lands on the nearest stored time. */
  lemma StepTimeBackwardRoutes(sc: Scene, w: World, s: real, auto: bool)
    requires Fits(w) && s < 0.0
    ensures w.line.now + s <= 0.0 ==> StepTime(sc, w, s, auto) == Autopaused(Restarted(sc, w), auto)
    ensures 0.0 < w.line.now + s ==> StepTime(sc, w, s, auto) == Autopaused(RewindTo(sc, w, w.line.now + s), auto)
  {
  }

  /**
   * Jumps: a negative target from a positive time restarts; a later target
   * is reached exactly; an earlier positive target lands on the nearest
   * stored time.
   */
  lemma JumpRoutes(sc: Scene, w: World, target: real, auto: bool)
    requires Fits(w)
    ensures target <= 0.0 < w.line.now ==> Jump(sc, w, target, auto) == Autopaused(Restarted(sc, w), auto)
    ensures 0.0 <= w.line.now && w.line.now < target ==> Jump(sc, w, target, auto).line.now == target
    ensures target < 0.0 && w.line.now == 0.0 ==> Jump(sc, w, target, auto) == Autopaused(w, auto)
    ensures 0.0 < target < w.line.now && 0 < |w.line.times| ==>
      var r := Jump(sc, w, target, auto);
      forall j :: 0 <= j < |w.line.times| ==> Dist(r.line.now, target) <= Dist(w.line.times[j], target)
  {
    if 0.0 <= w.line.now && w.line.now < target {
      StepTimeForwardLands(sc, w, target - w.line.now, auto);
    }
    if 0.0 < target < w.line.now && 0 < |w.line.times| {
      RewindEffect(sc, w, target);
    }
  }

  /** What `get_state` reports (the `energy` entry included). */
  datatype SimulationState = SimulationState(ball: BallState, time: real, isPlaying: bool, width: int, height: int,
                                             groundY: real, coordinateSystem: string, stepByFrames: bool,
                                             autoPauseAfterStep: bool, energy: Energy)

  datatype HistoryInfo = HistoryInfo(framesStored: nat, maxFrames: nat, timeStoredSeconds: real, canRewind: bool)

  function CoordsName(c: Coords): (s: string)
    ensures c == Screen <==> s == "screen"
  {
    if c == Screen then "screen" else "physics"
  }

  /** Python's `value or default` on an optional dimension. */
  function DimensionOr(v: Option<int>, default: int): (r: int)
    ensures r == default || (v.Some? && r == v.value && r != 0)
  {
    if v.Some? && v.value != 0 then v.value else default
  }

  class PhysicsSimulation {
    const width: int
    const height: int
    const coords: Coords
    const groundY: real
    const ball: Ball
    var simulationTime: real
    var isPlaying: bool
    var autoPauseAfterStep: bool
    var stepByFrames: bool
    var history: seq<BallState>
    var timeHistory: seq<real>

    /** The fixed parts of the scene, including where `reset` puts the ball. */
    function SceneOf(): Scene {
      Scene(ball.params, groundY, (width / 2) as real, StartY(coords))
    }

    predicate Valid()
      reads this
    {
      ball.params.coords == coords && (coords == Physics ==> groundY == 0.0) && |history| == |timeHistory| <= MAX_HISTORY_FRAMES
    }

    function Current(): World
      reads this, ball
    {
      World(Timeline(history, timeHistory, simulationTime), ball.State(), isPlaying)
    }

    constructor (width0: Option<int>, height0: Option<int>, coords0: Coords)
      ensures Valid() && fresh(ball)
      ensures width == DimensionOr(width0, DEFAULT_WIDTH) && height == DimensionOr(height0, DEFAULT_HEIGHT)
      ensures coords == coords0 && groundY == if coords0 == Screen then (height - GROUND_OFFSET) as real else 0.0
      ensures ball.params == ParamsFor(coords0)
      ensures ball.State() == BallState((width / 2) as real, StartY(coords0), DEFAULT_BALL_RADIUS, DEFAULT_BALL_MASS, 0.0, 0.0)
      ensures Current().line == Cleared() && !isPlaying && !autoPauseAfterStep && !stepByFrames
    {
      var w := DimensionOr(width0, DEFAULT_WIDTH);
      var h := DimensionOr(height0, DEFAULT_HEIGHT);
      width, height, coords := w, h, coords0;
      groundY := if coords0 == Screen then (h - GROUND_OFFSET) as real else 0.0;
      ball := new Ball((w / 2) as real, StartY(coords0), None, None, coords0);
      simulationTime := 0.0;
      isPlaying := false;
      autoPauseAfterStep := false;
      history, timeHistory := [], [];
      stepByFrames := false;
    }

    /** `get_state`; in physics coordinates the energy is taken without a ground. */
    function GetState(): (st: SimulationState)
      reads this, ball
      ensures st.ball == ball.State() && st.time == simulationTime && st.isPlaying == isPlaying
      ensures st.energy == EnergyOf(ball.params, ball.State(), groundY)
      ensures 0.0 <= ball.mass ==> 0.0 <= st.energy.kinetic && 0.0 <= st.energy.potential
      ensures st.energy.total == st.energy.kinetic + st.energy.potential
    {
      var e := ball.GetEnergy(if coords == Screen then Some(groundY) else None);
      var energy := if e.Success? then e.value else EnergyOf(ball.params, ball.State(), groundY);
      SimulationState(ball.State(), simulationTime, isPlaying, width, height, groundY, CoordsName(coords),
                      stepByFrames, autoPauseAfterStep, energy)
    }

    method SaveState()
      requires Valid()
      modifies this
      ensures Valid()
      ensures Current() == old(Current()).(line := Saved(old(Current()).line, ball.State(), MAX_HISTORY_FRAMES))
      ensures autoPauseAfterStep == old(autoPauseAfterStep) && stepByFrames == old(stepByFrames)
    {
      history := Push(history, ball.State(), MAX_HISTORY_FRAMES);
      timeHistory := Push(timeHistory, simulationTime, MAX_HISTORY_FRAMES);
    }

    /** One (sub-)step of length `h`: save, update and collide the ball on the scene's ground, advance the clock. */
    method Advance(h: real)
      requires Valid()
      modifies this, ball
      ensures Valid() && Current() == Tick(SceneOf(), old(Current()), h)
      ensures autoPauseAfterStep == old(autoPauseAfterStep) && stepByFrames == old(stepByFrames)
    {
      ghost var w0 := Current();
      SaveState();
      MoveBall(h);
      simulationTime := simulationTime + h;
      assert Current().line == Advanced(w0.line, w0.ball, MAX_HISTORY_FRAMES, h);
    }

    /** The ball's part of a step: `ball.update` then `check_ground_collision`, given the ground in screen mode only. */
    method MoveBall(h: real)
      requires Valid()
      modifies ball
      ensures ball.State() == BallTick(SceneOf(), old(ball.State()), h)
    {
      ghost var s0 := ball.State();
      var ground := if coords == Screen then Some(groundY) else None;
      assert ground.GetOr(0.0) == groundY;
      var updated := ball.Update(h, ground);
      ghost var s1 := ball.State();
      assert s1 == Integrated(ball.params, s0, h, groundY);
      var collided := ball.CheckGroundCollision(ground);
      assert ball.State() == Collided(ball.params, s1, groundY);
    }

    method Update() returns (st: SimulationState)
      requires Valid()
      modifies this, ball
      ensures Valid() && Current() == Updated(SceneOf(), old(Current())) && st == GetState()
      ensures autoPauseAfterStep == old(autoPauseAfterStep) && stepByFrames == old(stepByFrames)
    {
      if isPlaying {
        Advance(DT);
      }
      st := GetState();
    }

    method TogglePlayPause() returns (playing: bool)
      modifies this
      ensures isPlaying == !old(isPlaying) && playing == isPlaying
      ensures history == old(history) && timeHistory == old(timeHistory) && simulationTime == old(simulationTime)
      ensures autoPauseAfterStep == old(autoPauseAfterStep) && stepByFrames == old(stepByFrames)
    {
      isPlaying := !isPlaying;
      playing := isPlaying;
    }

    method Reset() returns (st: SimulationState)
      requires Valid()
      modifies this, ball
      ensures Valid() && Current() == Restarted(SceneOf(), old(Current())) && st == GetState()
      ensures autoPauseAfterStep == old(autoPauseAfterStep) && stepByFrames == old(stepByFrames)
    {
      simulationTime := 0.0;
      isPlaying := false;
      var initialY := if coords == Screen then DEFAULT_SCREEN_START_Y else DEFAULT_PHYSICS_START_Y;
      ball.ResetToPosition((width / 2) as real, initialY);
      history, timeHistory := [], [];
      st := GetState();
    }

    /** Pop up to `k` pairs from the tail of both histories. */
    method PopFrames(k: nat)
      requires Valid()
      modifies this
      ensures Valid() && Current() == old(Current()).(line := Dropped(old(Current()).line, k))
      ensures autoPauseAfterStep == old(autoPauseAfterStep) && stepByFrames == old(stepByFrames)
    {
      var n := MinNat(k, |history|);
      for j := 0 to n
        invariant Valid() && |history| == |old(history)| - j
        invariant history == old(history)[..|history|] && timeHistory == old(timeHistory)[..|timeHistory|]
        invariant simulationTime == old(simulationTime) && isPlaying == old(isPlaying)
        invariant autoPauseAfterStep == old(autoPauseAfterStep) && stepByFrames == old(stepByFrames)
      {
        if |history| > 0 && |timeHistory| > 0 {
          history := history[..|history| - 1];
          timeHistory := timeHistory[..|timeHistory| - 1];
        }
      }
    }

    /** Move the ball and the clock to the newest remaining entry, or reset when there is none. */
    method RestoreTail()
      requires Valid()
      modifies this, ball
      ensures Valid()
      ensures 0 < |old(history)| ==> Current() == World(AtTail(old(Current()).line), old(history)[|old(history)| - 1], old(isPlaying))
      ensures |old(history)| == 0 ==> Current() == Restarted(SceneOf(), old(Current()))
      ensures autoPauseAfterStep == old(autoPauseAfterStep) && stepByFrames == old(stepByFrames)
    {
      if |history| > 0 && |timeHistory| > 0 {
        ball.SetState(history[|history| - 1]);
        simulationTime := timeHistory[|timeHistory| - 1];
      } else {
        var _ := Reset();
      }
    }

    method RewindToTime(target: real)
      requires Valid()
      modifies this, ball
      ensures Valid() && Current() == RewindTo(SceneOf(), old(Current()), target)
      ensures autoPauseAfterStep == old(autoPauseAfterStep) && stepByFrames == old(stepByFrames)
    {
      if |timeHistory| == 0 {
        var _ := Reset();
        return;
      }
      ghost var w0 := Current();
      var best := FindNearest(timeHistory, target);
      KeepThrough(best);
      assert Current().line == Dropped(w0.line, |w0.line.times| - best - 1);
      RestoreTail();
      assert Rewound(w0.line, target) == AtTail(Dropped(w0.line, |w0.line.times| - best - 1));
    }

    /** Pop every pair after index `i`, so that entry `i` becomes the tail. */
    method KeepThrough(i: nat)
      requires Valid() && i < |history|
      modifies this
      ensures Valid() && Current() == old(Current()).(line := Dropped(old(Current()).line, |old(history)| - i - 1))
      ensures autoPauseAfterStep == old(autoPauseAfterStep) && stepByFrames == old(stepByFrames)
    {
      var framesToRewind := |history| - i - 1;
      if framesToRewind > 0 {
        PopFrames(framesToRewind);
      } else {
        assert history[..|history|] == history;
        assert timeHistory[..|timeHistory|] == timeHistory;
      }
    }

    /** Reset when the target is 0, otherwise rewind to it. */
    method ResetOrRewind(target: real)
      requires Valid()
      modifies this, ball
      ensures Valid()
      ensures Current() == if target == 0.0 then Restarted(SceneOf(), old(Current())) else RewindTo(SceneOf(), old(Current()), target)
      ensures autoPauseAfterStep == old(autoPauseAfterStep) && stepByFrames == old(stepByFrames)
    {
      if target == 0.0 {
        var _ := Reset();
      } else {
        RewindToTime(target);
      }
    }

    /** The forward branch of `step_simulation_time`. */
    method RunToTarget(target: real)
      requires Valid()
      modifies this, ball
      ensures Valid() && Current() == RunUntil(SceneOf(), old(Current()), target)
      ensures autoPauseAfterStep == old(autoPauseAfterStep) && stepByFrames == old(stepByFrames)
    {
      while simulationTime < target
        invariant Valid() && autoPauseAfterStep == old(autoPauseAfterStep) && stepByFrames == old(stepByFrames)
        invariant RunUntil(SceneOf(), Current(), target) == RunUntil(SceneOf(), old(Current()), target)
        decreases Remaining(simulationTime, target)
      {
        var remainingTime := target - simulationTime;
        var currentDt := MinReal(DT, remainingTime);
        SubStepProgress(simulationTime, target);
        ghost var before := Current();
        Advance(currentDt);
        assert RunUntil(SceneOf(), before, target) == RunUntil(SceneOf(), Current(), target);
      }
    }

    /** The move of `step_simulation_time`, before the auto-pause. */
    method MoveByTime(timeStep: real)
      requires Valid()
      modifies this, ball
      ensures Valid() && Current() == TimeMoved(SceneOf(), old(Current()), timeStep)
      ensures autoPauseAfterStep == old(autoPauseAfterStep) && stepByFrames == old(stepByFrames)
    {
      if timeStep > 0.0 {
        var targetTime := simulationTime + timeStep;
        RunToTarget(targetTime);
      } else if timeStep < 0.0 {
        var targetTime := MaxReal(0.0, simulationTime + timeStep);
        ResetOrRewind(targetTime);
      }
    }

    method StepSimulationTime(timeStep: real) returns (st: SimulationState)
      requires Valid()
      modifies this, ball
      ensures Valid() && Current() == StepTime(SceneOf(), old(Current()), timeStep, autoPauseAfterStep) && st == GetState()
      ensures autoPauseAfterStep == old(autoPauseAfterStep) && stepByFrames == old(stepByFrames)
    {
      MoveByTime(timeStep);
      if autoPauseAfterStep {
        isPlaying := false;
      }
      st := GetState();
    }

    /** The forward branch of `step_simulation_frames`. */
    method RunFrames(n: nat)
      requires Valid()
      modifies this, ball
      ensures Valid() && Current() == Frames(SceneOf(), old(Current()), n)
      ensures autoPauseAfterStep == old(autoPauseAfterStep) && stepByFrames == old(stepByFrames)
    {
      for k := 0 to n
        invariant Valid() && autoPauseAfterStep == old(autoPauseAfterStep) && stepByFrames == old(stepByFrames)
        invariant Frames(SceneOf(), Current(), n - k) == Frames(SceneOf(), old(Current()), n)
      {
        ghost var before := Current();
        Advance(DT);
        assert Frames(SceneOf(), before, n - k) == Frames(SceneOf(), Current(), n - k - 1);
      }
    }

    /** The move of `step_simulation_frames`, before the auto-pause. */
    method MoveByFrames(frameCount: int)
      requires Valid()
      modifies this, ball
      ensures Valid() && Current() == FramesMoved(SceneOf(), old(Current()), frameCount)
      ensures autoPauseAfterStep == old(autoPauseAfterStep) && stepByFrames == old(stepByFrames)
    {
      if frameCount > 0 {
        RunFrames(frameCount);
      } else if frameCount < 0 {
        PopFrames(-frameCount);
        RestoreTail();
      }
    }

    method StepSimulationFrames(frameCount: int) returns (st: SimulationState)
      requires Valid()
      modifies this, ball
      ensures Valid() && Current() == StepFrames(SceneOf(), old(Current()), frameCount, autoPauseAfterStep) && st == GetState()
      ensures autoPauseAfterStep == old(autoPauseAfterStep) && stepByFrames == old(stepByFrames)
    {
      MoveByFrames(frameCount);
      if autoPauseAfterStep {
        isPlaying := false;
      }
      st := GetState();
    }

    method JumpToTime(target: real) returns (st: SimulationState)
      requires Valid()
      modifies this, ball
      ensures Valid() && Current() == Jump(SceneOf(), old(Current()), target, autoPauseAfterStep) && st == GetState()
      ensures autoPauseAfterStep == old(autoPauseAfterStep) && stepByFrames == old(stepByFrames)
    {
      var targetTime := target;
      if targetTime < 0.0 {
        targetTime := 0.0;
      }
      if targetTime < simulationTime {
        ResetOrRewind(targetTime);
      } else if targetTime > simulationTime {
        var _ := StepSimulationTime(targetTime - simulationTime);
      }
      if autoPauseAfterStep {
        isPlaying := false;
      }
      st := GetState();
    }

    /** `set_ball_start_position`: a reset to the given position instead of the default one. */
    method SetBallStartPosition(x: real, y: real) returns (st: SimulationState)
      requires Valid()
      modifies this, ball
      ensures Valid() && Current() == Restarted(SceneOf().(startX := x, startY := y), old(Current())) && st == GetState()
      ensures autoPauseAfterStep == old(autoPauseAfterStep) && stepByFrames == old(stepByFrames)
    {
      simulationTime := 0.0;
      isPlaying := false;
      ball.ResetToPosition(x, y);
      history, timeHistory := [], [];
      st := GetState();
    }

    /** More than one stored frame: a one-frame step back lands on a stored state rather than restarting. */
    function CanRewind(): (r: bool)
      reads this
      ensures r <==> |history| > 1
    {
      |history| > 1
    }

    function GetHistoryInfo(): (info: HistoryInfo)
      requires Valid()
      reads this
      ensures info.framesStored <= info.maxFrames == MAX_HISTORY_FRAMES
      ensures info.canRewind <==> info.framesStored > 1
      ensures info.timeStoredSeconds == info.framesStored as real / TARGET_FPS as real
    {
      HistoryInfo(|history|, MAX_HISTORY_FRAMES, |history| as real / TARGET_FPS as real, CanRewind())
    }

    method ToggleStepUnit() returns (unit: string)
      modifies this
      ensures stepByFrames == !old(stepByFrames)
      ensures unit == "frames" <==> stepByFrames
      ensures unit == "frames" || unit == "seconds"
      ensures history == old(history) && timeHistory == old(timeHistory) && simulationTime == old(simulationTime)
      ensures isPlaying == old(isPlaying) && autoPauseAfterStep == old(autoPauseAfterStep)
    {
      stepByFrames := !stepByFrames;
      unit := if stepByFrames then "frames" else "seconds";
    }

    method SetAutoPause(enabled: bool)
      modifies this
      ensures autoPauseAfterStep == enabled
      ensures history == old(history) && timeHistory == old(timeHistory) && simulationTime == old(simulationTime)
      ensures isPlaying == old(isPlaying) && stepByFrames == old(stepByFrames)
    {
      autoPauseAfterStep := enabled;
    }

    function GetBallPosition(): (pos: (real, real))
      reads ball
      ensures pos.0 == ball.State().x && pos.1 == ball.State().y
    {
      (ball.x, ball.y)
    }

    function GetBallVelocity(): (v: real)
      reads ball
      ensures v == ball.State().velocityY
    {
      ball.velocityY
    }
  }

  /** With more than one stored frame, one frame back restores the previous snapshot instead of restarting. */
  lemma StepBackWhenRewindable(sc: Scene, w: World, auto: bool)
    requires Fits(w) && |w.line.times| > 1
    ensures var r := StepFrames(sc, w, -1, auto);
      r.ball == w.line.states[|w.line.states| - 2] && r.line.now == w.line.times[|w.line.times| - 2]
  {
  }
}
