/**
 * The time controller of `src/time_manager.py`, which drives the ball of
 * `src/physics.py`: a fixed tick `dt = 1/target_fps`, a play/pause flag, a
 * step mode, an auto-pause flag, and two bounded histories kept in lockstep
 * (ball snapshots and the simulation times they were taken at). The ball is
 * passed in to every operation that moves or restores it.
 */
module TimeManagement {
  import opened Numbers
  import opened History
  import opened Physics
  import opened Decimal
  import Bounce

  datatype StepMode = Frames | Seconds

  /** Which ground line a forward tick hands to `Ball.update`. */
  datatype Ground = OwnHeight | Level(y: real)

  function GroundFor(g: Ground, s: PhysicsState): real {
    match g
    case OwnHeight => s.y
    case Level(y) => y
  }

  /** What the time operations read and change: histories with the clock, the ball's state, and the play flag. */
  datatype Machine = Machine(line: Timeline<PhysicsState>, ball: PhysicsState, playing: bool)

  predicate Fits(m: Machine, cap: nat) {
    0 < cap && m.line.InLockstep(cap)
  }

  /** One forward tick: save the snapshot at the current time, update the ball, advance the clock by dt. */
  function Tick(b: Ball, m: Machine, dt: real, cap: nat, g: Ground): (r: Machine)
    requires Fits(m, cap)
    ensures Fits(r, cap) && r.playing == m.playing
    ensures r.line.now == m.line.now + dt
    ensures 0 < |r.line.times| && r.line.states[|r.line.states| - 1] == m.ball && r.line.times[|r.line.times| - 1] == m.line.now
    ensures |m.line.times| < cap ==> r.line.states == m.line.states + [m.ball] && r.line.times == m.line.times + [m.line.now]
  {
    Machine(Advanced(m.line, m.ball, cap, dt), b.Next(m.ball, dt, GroundFor(g, m.ball)), m.playing)
  }

  /** `n` forward ticks. */
  function Run(b: Ball, m: Machine, n: nat, dt: real, cap: nat, g: Ground): (r: Machine)
    requires Fits(m, cap)
    ensures Fits(r, cap) && r.playing == m.playing
    decreases n
  {
    if n == 0 then m else Run(b, Tick(b, m, dt, cap, g), n - 1, dt, cap, g)
  }

  /** After `n` ticks the clock has moved by exactly `n*dt`. */
  lemma {:induction false} RunClock(b: Ball, m: Machine, n: nat, dt: real, cap: nat, g: Ground)
    requires Fits(m, cap)
    ensures Run(b, m, n, dt, cap, g).line.now == m.line.now + n as real * dt
    decreases n
  {
    if n > 0 {
      var t := Tick(b, m, dt, cap, g);
      RunClock(b, t, n - 1, dt, cap, g);
      calc {
        n as real * dt;
        ((n - 1) as real + 1.0) * dt;
        (n - 1) as real * dt + dt;
      }
    }
  }

  /** `n` ticks push `n` entries: both histories hold the newest `cap`. */
  lemma {:induction false} RunHistoryLength(b: Ball, m: Machine, n: nat, dt: real, cap: nat, g: Ground)
    requires Fits(m, cap)
    ensures |Run(b, m, n, dt, cap, g).line.times| == MinNat(|m.line.times| + n, cap)
    decreases n
  {
    if n > 0 {
      var t := Tick(b, m, dt, cap, g);
      assert |t.line.times| == MinNat(|m.line.times| + 1, cap);
      RunHistoryLength(b, t, n - 1, dt, cap, g);
      assert Run(b, m, n, dt, cap, g) == Run(b, t, n - 1, dt, cap, g);
    }
  }

  /** When `n` ticks evict nothing, the old entries remain an untouched prefix of both histories. */
  lemma {:induction false} RunHistoryPrefix(b: Ball, m: Machine, n: nat, dt: real, cap: nat, g: Ground)
    requires Fits(m, cap) && |m.line.times| + n <= cap
    ensures var r := Run(b, m, n, dt, cap, g);
      && |m.line.times| <= |r.line.times|
      && r.line.states[..|m.line.states|] == m.line.states && r.line.times[..|m.line.times|] == m.line.times
    decreases n
  {
    if n > 0 {
      var t := Tick(b, m, dt, cap, g);
      RunHistoryPrefix(b, t, n - 1, dt, cap, g);
      var r := Run(b, t, n - 1, dt, cap, g);
      assert r.line.states[..|m.line.states|] == r.line.states[..|t.line.states|][..|m.line.states|];
      assert r.line.times[..|m.line.times|] == r.line.times[..|t.line.times|][..|m.line.times|];
    }
  }

  /** Ticks with a non-negative dt keep the stored times ordered and no later than the clock. */
  lemma {:induction false} RunKeepsOrder(b: Ball, m: Machine, n: nat, dt: real, cap: nat, g: Ground)
    requires Fits(m, cap) && m.line.Ordered() && 0.0 <= dt
    ensures Run(b, m, n, dt, cap, g).line.Ordered()
    decreases n
  {
    if n > 0 {
      AdvancedKeepsOrder(m.line, m.ball, cap, dt);
      RunKeepsOrder(b, Tick(b, m, dt, cap, g), n - 1, dt, cap, g);
    }
  }

  /** The auto-pause that ends every step and jump when the flag is set. */
  function Paused(m: Machine, auto: bool): (r: Machine)
    ensures r.line == m.line && r.ball == m.ball
    ensures r.playing == (m.playing && !auto)
  {
    if auto then m.(playing := false) else m
  }

  /** `reset`: clock 0, paused, both histories empty; the ball is not touched. */
  function AfterReset(m: Machine): (r: Machine)
    ensures r.line.Ordered() && r.line.InLockstep(0) && r.line.now == 0.0
    ensures !r.playing && r.ball == m.ball
  {
    Machine(Cleared(), m.ball, false)
  }

  /** `step_forward_frames` (with `OwnHeight` as written) and its corrected form (with the scene's `Level`). */
  function ForwardFrames(b: Ball, m: Machine, n: int, auto: bool, dt: real, cap: nat, g: Ground): (r: Machine)
    requires Fits(m, cap)
    ensures n <= 0 ==> r == m
    ensures Fits(r, cap)
  {
    if n <= 0 then m else Paused(Run(b, m, n, dt, cap, g), auto)
  }

  /** A positive frame step advances the clock by n*dt, pushes n entries, keeps the order, and honours auto-pause. */
  lemma ForwardFramesEffect(b: Ball, m: Machine, n: int, auto: bool, dt: real, cap: nat, g: Ground)
    requires Fits(m, cap) && 0 < n
    ensures var r := ForwardFrames(b, m, n, auto, dt, cap, g);
      && r.line.now == m.line.now + n as real * dt
      && |r.line.times| == MinNat(|m.line.times| + n, cap)
      && r.playing == (m.playing && !auto)
      && (m.line.Ordered() && 0.0 <= dt ==> r.line.Ordered())
  {
    RunClock(b, m, n, dt, cap, g);
    RunHistoryLength(b, m, n, dt, cap, g);
    if m.line.Ordered() && 0.0 <= dt {
      RunKeepsOrder(b, m, n, dt, cap, g);
    }
  }

  lemma FloorOfQuotient(amount: real, dt: real)
    requires 0.0 < amount && 0.0 < dt
    ensures var k := (amount / dt).Floor;
      0 <= k && k as real * dt <= amount < k as real * dt + dt
  {
    QuotientTimesDivisor(amount, dt);
    FloorScaled(amount, dt, amount / dt);
  }

  /** `int(amount / dt)` for a positive amount and tick: the number of whole ticks that fit. */
  function TickCount(amount: real, dt: real): (k: nat)
    requires 0.0 < amount && 0.0 < dt
    ensures k as real * dt <= amount < k as real * dt + dt
  {
    FloorOfQuotient(amount, dt);
    (amount / dt).Floor
  }

  /** `step_forward_time`: `int(amount / dt)` whole ticks on the given ground. */
  function ForwardTime(b: Ball, m: Machine, amount: real, auto: bool, dt: real, cap: nat, groundY: real): (r: Machine)
    requires Fits(m, cap) && 0.0 < dt
    ensures amount <= 0.0 ==> r == m
    ensures Fits(r, cap)
  {
    if amount <= 0.0 then m
    else Paused(Run(b, m, TickCount(amount, dt), dt, cap, Level(groundY)), auto)
  }

  /**
   * A positive time step lands on the last tick boundary not beyond the
   * requested time: the remainder, less than dt, is dropped.
   */
  lemma ForwardTimeLands(b: Ball, m: Machine, amount: real, auto: bool, dt: real, cap: nat, groundY: real)
    requires Fits(m, cap) && 0.0 < dt && 0.0 < amount
    ensures var r := ForwardTime(b, m, amount, auto, dt, cap, groundY);
      && r.line.now <= m.line.now + amount < r.line.now + dt
      && r.playing == (m.playing && !auto)
      && (m.line.Ordered() ==> r.line.Ordered())
  {
    var k := TickCount(amount, dt);
    var run := Run(b, m, k, dt, cap, Level(groundY));
    assert ForwardTime(b, m, amount, auto, dt, cap, groundY) == Paused(run, auto);
    RunClock(b, m, k, dt, cap, Level(groundY));
    var kd := k as real * dt;
    assert run.line.now == m.line.now + kd;
    assert kd <= amount < kd + dt;
    if m.line.Ordered() {
      RunKeepsOrder(b, m, k, dt, cap, Level(groundY));
    }
  }

  /** `step_backward_frames`: pop up to `k` pairs, then restore the new tail, or reset when nothing is left. */
  function BackwardFrames(m: Machine, k: int, auto: bool): (r: Machine)
    requires |m.line.states| == |m.line.times|
    ensures k <= 0 ==> r == m
    ensures |r.line.states| == |r.line.times| <= |m.line.times|
  {
    if k <= 0 then m
    else
      var l := Dropped(m.line, k);
      if 0 < |l.times| then Paused(Machine(AtTail(l), l.states[|l.states| - 1], m.playing), auto)
      else Paused(AfterReset(m), auto)
  }

  /**
   * A positive frame step back keeps the oldest `len - min(k, len)` pairs; the
   * ball and clock take the newest kept pair, or reset when none is kept;
   * the clock never moves forward.
   */
  lemma BackwardFramesEffect(m: Machine, k: int, auto: bool)
    requires |m.line.states| == |m.line.times| && 0 < k
    ensures var r := BackwardFrames(m, k, auto);
      var kept := |m.line.times| - MinNat(k, |m.line.times|);
      && r.line.states == m.line.states[..kept] && r.line.times == m.line.times[..kept]
      && (0 < kept ==> r.line.now == m.line.times[kept - 1] && r.ball == m.line.states[kept - 1])
      && (kept == 0 ==> r.line.now == 0.0 && r.ball == m.ball && !r.playing)
      && (auto ==> !r.playing)
      && (m.line.Ordered() ==> r.line.Ordered() && r.line.now <= m.line.now)
  {
    var kept := |m.line.times| - MinNat(k, |m.line.times|);
    if 0 < kept && m.line.Ordered() {
      TruncatedKeepsOrder(m.line, kept);
    }
  }

  /** `rewind_to_time`: back to the first stored time nearest the target; reset on an empty history. */
  function RewindTo(m: Machine, target: real): (r: Machine)
    requires |m.line.states| == |m.line.times|
    ensures |m.line.times| == 0 ==> r == AfterReset(m)
    ensures |r.line.states| == |r.line.times| <= |m.line.times|
  {
    if |m.line.times| == 0 then AfterReset(m)
    else
      var l := Rewound(m.line, target);
      Machine(l, l.states[|l.states| - 1], m.playing)
  }

  /**
   * A rewind keeps the entries up to the first stored time nearest the
   * target, restores that entry's ball and time, leaves the play flag, and
   * never moves the clock forward.
   */
  lemma RewindEffect(m: Machine, target: real)
    requires |m.line.states| == |m.line.times| && 0 < |m.line.times|
    ensures var r := RewindTo(m, target);
      var i := FirstNearest(m.line.times, target);
      && r.line.states == m.line.states[..i + 1] && r.line.times == m.line.times[..i + 1]
      && r.line.now == m.line.times[i] && r.ball == m.line.states[i] && r.playing == m.playing
      && (forall j :: 0 <= j < |m.line.times| ==> Dist(r.line.now, target) <= Dist(m.line.times[j], target))
      && (m.line.Ordered() ==> r.line.Ordered() && r.line.now <= m.line.now)
  {
    RewoundNearestAndOrdered(m.line, target);
  }

  lemma RewindKeepsOrder(m: Machine, target: real)
    requires |m.line.states| == |m.line.times| && m.line.Ordered()
    ensures RewindTo(m, target).line.Ordered() && RewindTo(m, target).line.now <= m.line.now
  {
    if 0 < |m.line.times| {
      RewindEffect(m, target);
    }
  }

  /** `step_backward_time`: target `max(0, now - amount)`; reset at 0, otherwise rewind. */
  function BackwardTime(m: Machine, amount: real, auto: bool): (r: Machine)
    requires |m.line.states| == |m.line.times|
    ensures amount <= 0.0 ==> r == m
    ensures |r.line.states| == |r.line.times| <= |m.line.times|
  {
    if amount <= 0.0 then m
    else
      var target := MaxReal(0.0, m.line.now - amount);
      if target == 0.0 then Paused(AfterReset(m), auto) else Paused(RewindTo(m, target), auto)
  }

  /** Stepping back at least the whole elapsed time resets; less rewinds to `now - amount`; neither moves the clock forward. */
  lemma BackwardTimeRoutes(m: Machine, amount: real, auto: bool)
    requires |m.line.states| == |m.line.times| && 0.0 < amount
    ensures m.line.now <= amount ==> BackwardTime(m, amount, auto) == Paused(AfterReset(m), auto)
    ensures amount < m.line.now ==> BackwardTime(m, amount, auto) == Paused(RewindTo(m, m.line.now - amount), auto)
    ensures m.line.Ordered() ==> BackwardTime(m, amount, auto).line.Ordered() && BackwardTime(m, amount, auto).line.now <= m.line.now
  {
    if m.line.Ordered() && amount < m.line.now {
      RewindKeepsOrder(m, m.line.now - amount);
    }
  }

  /** `jump_to_time`: a negative target is ignored (not even auto-pause); otherwise rewind, reset, step forward or stay. */
  function Jump(b: Ball, m: Machine, target: real, auto: bool, dt: real, cap: nat, groundY: real): (r: Machine)
    requires Fits(m, cap) && 0.0 < dt
    ensures target < 0.0 ==> r == m
    ensures Fits(r, cap)
  {
    if target < 0.0 then m
    else if target < m.line.now then
      if target == 0.0 then Paused(AfterReset(m), auto) else Paused(RewindTo(m, target), auto)
    else if target > m.line.now then Paused(ForwardTime(b, m, target - m.line.now, auto, dt, cap, groundY), auto)
    else Paused(m, auto)
  }

  /**
   * A jump to a later time lands within one tick before the target; a jump
   * to the current time only auto-pauses; a jump to 0 resets; a jump to an
   * earlier positive time lands on the nearest stored time. The order of the
   * history is kept in every case.
   */
  lemma JumpRoutes(b: Ball, m: Machine, target: real, auto: bool, dt: real, cap: nat, groundY: real)
    requires Fits(m, cap) && 0.0 < dt && 0.0 <= target
    ensures var r := Jump(b, m, target, auto, dt, cap, groundY);
      && (m.line.now < target ==> r.line.now <= target < r.line.now + dt && r.playing == (m.playing && !auto))
      && (target == m.line.now ==> r == Paused(m, auto))
      && (target == 0.0 < m.line.now ==> r == AfterReset(m))
      && (0.0 < target < m.line.now && 0 < |m.line.times| ==>
            forall j :: 0 <= j < |m.line.times| ==> Dist(r.line.now, target) <= Dist(m.line.times[j], target))
      && (m.line.Ordered() ==> r.line.Ordered())
  {
    if m.line.now < target {
      ForwardTimeLands(b, m, target - m.line.now, auto, dt, cap, groundY);
    } else if 0.0 < target < m.line.now {
      if 0 < |m.line.times| {
        RewindEffect(m, target);
      }
      if m.line.Ordered() {
        RewindKeepsOrder(m, target);
      }
    }
  }

  /**
   * Stepping forward `n` frames and then back `n` frames restores both
   * histories when nothing was evicted. It is not an exact round trip: the
   * ball and clock land on the newest entry that was stored before the
   * forward run (taken at least one tick earlier), or everything resets
   * when the history started empty.
   */
  lemma {:induction false} ForwardThenBackward(b: Ball, m: Machine, n: int, auto: bool, dt: real, cap: nat, g: Ground)
    requires Fits(m, cap) && 0 < n && |m.line.times| + n <= cap
    ensures var r := BackwardFrames(ForwardFrames(b, m, n, auto, dt, cap, g), n, auto);
      && r.line.states == m.line.states && r.line.times == m.line.times
      && (0 < |m.line.times| ==> r.ball == m.line.states[|m.line.states| - 1] && r.line.now == m.line.times[|m.line.times| - 1])
      && (|m.line.times| == 0 ==> r.line.now == 0.0 && !r.playing)
  {
    var f := ForwardFrames(b, m, n, auto, dt, cap, g);
    RunHistoryLength(b, m, n, dt, cap, g);
    RunHistoryPrefix(b, m, n, dt, cap, g);
    assert |f.line.times| == |m.line.times| + n;
    assert f.line.states[..|m.line.states|] == m.line.states;
    assert f.line.times[..|m.line.times|] == m.line.times;
  }

  /**
   * The model's counterexample for the ground `step_forward_frames` hands to
   * the ball: with its own height as the ground, a ball resting on the real
   * ground is "below" that line after the tick and is lifted by its radius.
   */
  lemma OwnHeightLiftsRestingBall(b: Ball, m: Machine, dt: real, cap: nat)
    requires Fits(m, cap) && 0.0 < b.radius
    requires m.ball.velocityY == 0.0 && m.ball.accelerationY == 0.0
    ensures Run(b, m, 1, dt, cap, OwnHeight).ball.y == m.ball.y - b.radius
  {
    var t := Tick(b, m, dt, cap, OwnHeight);
    assert b.RestingOn(m.ball, m.ball.y);
    assert t.ball.y == m.ball.y - b.radius;
    assert Run(b, m, 1, dt, cap, OwnHeight) == Run(b, t, 0, dt, cap, OwnHeight);
  }

  /** With the scene's ground, a ball resting on it stays put for any number of frames. */
  lemma {:induction false} LevelGroundKeepsRestingBall(b: Ball, m: Machine, n: nat, dt: real, cap: nat, groundY: real)
    requires Fits(m, cap)
    requires m.ball.velocityY == 0.0 && m.ball.velocityX == 0.0 && m.ball.accelerationX == 0.0
    requires m.ball.y + b.radius == groundY
    ensures Run(b, m, n, dt, cap, Level(groundY)).ball == m.ball.(accelerationY := if n == 0 then m.ball.accelerationY else 0.0)
    decreases n
  {
    if n > 0 {
      assert b.RestingOn(m.ball, groundY);
      var k := Kinematics(m.ball.(accelerationY := 0.0), dt);
      assert k == m.ball.(accelerationY := 0.0);
      assert Bounce.Rebound(0.0, b.bounceDamping, b.minBounceVelocity) == 0.0;
      assert b.Next(m.ball, dt, groundY) == m.ball.(accelerationY := 0.0);
      var t := Tick(b, m, dt, cap, Level(groundY));
      assert t.ball == m.ball.(accelerationY := 0.0);
      LevelGroundKeepsRestingBall(b, t, n - 1, dt, cap, groundY);
      assert Run(b, m, n, dt, cap, Level(groundY)) == Run(b, t, n - 1, dt, cap, Level(groundY));
    }
  }

  /** With more than one stored frame, a one-frame step back restores the previous snapshot instead of resetting. */
  lemma StepBackWhenRewindable(m: Machine, auto: bool)
    requires |m.line.states| == |m.line.times| > 1
    ensures var r := BackwardFrames(m, 1, auto);
      && r.ball == m.line.states[|m.line.states| - 2] && r.line.now == m.line.times[|m.line.times| - 2]
      && |r.line.times| == |m.line.times| - 1
  {
  }

  datatype HistoryInfo = HistoryInfo(framesStored: nat, maxFrames: nat, timeStoredSeconds: real,
                                     canRewind: bool, currentTime: real, isPlaying: bool, stepMode: string)

  function ModeName(mode: StepMode): (s: string)
    ensures s == "frames" || s == "seconds"
    ensures mode == Frames <==> s == "frames"
  {
    if mode == Frames then "frames" else "seconds"
  }

  class TimeManager {
    const targetFps: int
    const dt: real
    /** The history `maxlen`, `HISTORY_MAX_FRAMES` in the source's configuration. */
    const capacity: nat
    var simulationTime: real
    var isPlaying: bool
    var stepMode: StepMode
    var autoPauseAfterStep: bool
    var history: seq<PhysicsState>
    var timeHistory: seq<real>

    predicate Valid()
      reads this
    {
      && 0 < targetFps && 0.0 < dt
      && 0 < capacity && |history| == |timeHistory| <= capacity
    }

    function Line(): Timeline<PhysicsState>
      reads this
    {
      Timeline(history, timeHistory, simulationTime)
    }

    function Current(ball: Ball): Machine
      reads this, ball
    {
      Machine(Line(), ball.state, isPlaying)
    }

    constructor (targetFps0: int, capacity0: nat)
      requires 0 < targetFps0 && 0 < capacity0
      ensures Valid() && targetFps == targetFps0 && capacity == capacity0 && dt == 1.0 / targetFps0 as real
      ensures Line() == Cleared() && !isPlaying && stepMode == Seconds && !autoPauseAfterStep
    {
      targetFps := targetFps0;
      dt := 1.0 / targetFps0 as real;
      capacity := capacity0;
      simulationTime := 0.0;
      isPlaying := false;
      stepMode := Seconds;
      autoPauseAfterStep := false;
      history, timeHistory := [], [];
    }

    method SaveState(ball: Ball)
      requires Valid()
      modifies this
      ensures Valid() && Line() == Saved(old(Line()), ball.state, capacity)
      ensures isPlaying == old(isPlaying) && stepMode == old(stepMode) && autoPauseAfterStep == old(autoPauseAfterStep)
    {
      history := Push(history, ball.state, capacity);
      timeHistory := Push(timeHistory, simulationTime, capacity);
    }

    method StepTime(amount: real)
      modifies this
      ensures Line() == old(Line()).(now := old(simulationTime) + amount)
      ensures isPlaying == old(isPlaying) && stepMode == old(stepMode) && autoPauseAfterStep == old(autoPauseAfterStep)
      ensures old(Line().Ordered()) && 0.0 <= amount ==> Line().Ordered()
    {
      simulationTime := simulationTime + amount;
    }

    method TogglePlayPause()
      modifies this
      ensures isPlaying == !old(isPlaying)
      ensures Line() == old(Line()) && stepMode == old(stepMode) && autoPauseAfterStep == old(autoPauseAfterStep)
    {
      isPlaying := !isPlaying;
    }

    method Pause()
      modifies this
      ensures !isPlaying
      ensures Line() == old(Line()) && stepMode == old(stepMode) && autoPauseAfterStep == old(autoPauseAfterStep)
    {
      if isPlaying {
        isPlaying := false;
      }
    }

    method Play()
      modifies this
      ensures isPlaying
      ensures Line() == old(Line()) && stepMode == old(stepMode) && autoPauseAfterStep == old(autoPauseAfterStep)
    {
      if !isPlaying {
        isPlaying := true;
      }
    }

    /** `reset`: only this controller changes; the ball keeps its state. */
    method Reset()
      modifies this
      ensures Line() == Cleared() && !isPlaying
      ensures stepMode == old(stepMode) && autoPauseAfterStep == old(autoPauseAfterStep)
    {
      simulationTime := 0.0;
      isPlaying := false;
      history, timeHistory := [], [];
    }

    /** One forward tick of the controller: save, update the ball on ground `g`, advance the clock. */
    method TickOnce(ball: Ball, g: Ground)
      requires Valid()
      modifies this, ball
      ensures Valid() && Current(ball) == Tick(ball, old(Current(ball)), dt, capacity, g)
      ensures stepMode == old(stepMode) && autoPauseAfterStep == old(autoPauseAfterStep)
    {
      SaveState(ball);
      ball.Update(dt, GroundFor(g, ball.state));
      StepTime(dt);
    }

    /** The loop shared by both forward steps: `n` ticks. */
    method RunTicks(n: nat, ball: Ball, g: Ground)
      requires Valid()
      modifies this, ball
      ensures Valid() && Current(ball) == Run(ball, old(Current(ball)), n, dt, capacity, g)
      ensures stepMode == old(stepMode) && autoPauseAfterStep == old(autoPauseAfterStep)
    {
      for k := 0 to n
        invariant Valid() && stepMode == old(stepMode) && autoPauseAfterStep == old(autoPauseAfterStep)
        invariant Run(ball, Current(ball), n - k, dt, capacity, g) == Run(ball, old(Current(ball)), n, dt, capacity, g)
      {
        ghost var before := Current(ball);
        TickOnce(ball, g);
        assert Run(ball, before, n - k, dt, capacity, g) == Run(ball, Current(ball), n - k - 1, dt, capacity, g);
      }
    }

    /** `step_forward_frames` as written: the ball's own height is passed as the ground. */
    method StepForwardFrames(frameCount: int, ball: Ball)
      requires Valid()
      modifies this, ball
      ensures Valid() && Current(ball) == ForwardFrames(ball, old(Current(ball)), frameCount, autoPauseAfterStep, dt, capacity, OwnHeight)
      ensures stepMode == old(stepMode) && autoPauseAfterStep == old(autoPauseAfterStep)
    {
      if frameCount <= 0 {
        return;
      }
      RunTicks(frameCount, ball, OwnHeight);
      if autoPauseAfterStep {
        Pause();
      }
    }

    /** `step_forward_frames` with the scene's ground, as `step_forward_time` does it. */
    method StepForwardFramesOnGround(frameCount: int, ball: Ball, groundY: real)
      requires Valid()
      modifies this, ball
      ensures Valid() && Current(ball) == ForwardFrames(ball, old(Current(ball)), frameCount, autoPauseAfterStep, dt, capacity, Level(groundY))
      ensures stepMode == old(stepMode) && autoPauseAfterStep == old(autoPauseAfterStep)
    {
      if frameCount <= 0 {
        return;
      }
      RunTicks(frameCount, ball, Level(groundY));
      if autoPauseAfterStep {
        Pause();
      }
    }

    method StepForwardTime(amount: real, ball: Ball, groundY: real)
      requires Valid()
      modifies this, ball
      ensures Valid() && Current(ball) == ForwardTime(ball, old(Current(ball)), amount, autoPauseAfterStep, dt, capacity, groundY)
      ensures stepMode == old(stepMode) && autoPauseAfterStep == old(autoPauseAfterStep)
    {
      if amount <= 0.0 {
        return;
      }
      var steps := (amount / dt).Floor;
      assert steps == TickCount(amount, dt);
      RunTicks(steps, ball, Level(groundY));
      if autoPauseAfterStep {
        Pause();
      }
    }

    /** Pop up to `k` pairs from the tail of both histories. */
    method PopFrames(k: nat)
      requires Valid()
      modifies this
      ensures Valid() && Line() == Dropped(old(Line()), k)
      ensures isPlaying == old(isPlaying) && stepMode == old(stepMode) && autoPauseAfterStep == old(autoPauseAfterStep)
    {
      var n := MinNat(k, |history|);
      for j := 0 to n
        invariant Valid() && |history| == |old(history)| - j
        invariant history == old(history)[..|history|] && timeHistory == old(timeHistory)[..|timeHistory|]
        invariant simulationTime == old(simulationTime) && isPlaying == old(isPlaying)
        invariant stepMode == old(stepMode) && autoPauseAfterStep == old(autoPauseAfterStep)
      {
        if |history| > 0 && |timeHistory| > 0 {
          history := history[..|history| - 1];
          timeHistory := timeHistory[..|timeHistory| - 1];
        }
      }
    }

    /** Move the ball and the clock to the newest remaining entry, or reset when there is none. */
    method RestoreTail(ball: Ball)
      requires Valid()
      modifies this, ball
      ensures Valid()
      ensures 0 < |old(history)| ==> Current(ball) == Machine(AtTail(old(Line())), old(history)[|old(history)| - 1], old(isPlaying))
      ensures |old(history)| == 0 ==> Current(ball) == AfterReset(old(Current(ball)))
      ensures stepMode == old(stepMode) && autoPauseAfterStep == old(autoPauseAfterStep)
    {
      if |history| > 0 && |timeHistory| > 0 {
        ball.SetState(history[|history| - 1]);
        simulationTime := timeHistory[|timeHistory| - 1];
      } else {
        Reset();
      }
    }

    method StepBackwardFrames(frameCount: int, ball: Ball)
      requires Valid()
      modifies this, ball
      ensures Valid() && Current(ball) == BackwardFrames(old(Current(ball)), frameCount, autoPauseAfterStep)
      ensures stepMode == old(stepMode) && autoPauseAfterStep == old(autoPauseAfterStep)
    {
      if frameCount <= 0 {
        return;
      }
      PopFrames(frameCount);
      RestoreTail(ball);
      if autoPauseAfterStep {
        Pause();
      }
    }

    method RewindToTime(target: real, ball: Ball)
      requires Valid()
      modifies this, ball
      ensures Valid() && Current(ball) == RewindTo(old(Current(ball)), target)
      ensures stepMode == old(stepMode) && autoPauseAfterStep == old(autoPauseAfterStep)
    {
      if |timeHistory| == 0 {
        Reset();
        return;
      }
      ghost var m0 := Current(ball);
      var best := FindNearest(timeHistory, target);
      var framesToRewind := |history| - best - 1;
      if framesToRewind > 0 {
        PopFrames(framesToRewind);
      } else {
        assert m0.line.states[..|m0.line.states|] == m0.line.states;
        assert m0.line.times[..|m0.line.times|] == m0.line.times;
      }
      assert Line() == Dropped(m0.line, |m0.line.times| - best - 1);
      RestoreTail(ball);
      assert Current(ball) == RewindTo(m0, target);
    }

    /** Shared by the backward time step and the jump: reset when the target is 0, otherwise rewind. */
    method ResetOrRewind(target: real, ball: Ball)
      requires Valid()
      modifies this, ball
      ensures Valid()
      ensures Current(ball) == if target == 0.0 then AfterReset(old(Current(ball))) else RewindTo(old(Current(ball)), target)
      ensures stepMode == old(stepMode) && autoPauseAfterStep == old(autoPauseAfterStep)
    {
      if target == 0.0 {
        Reset();
      } else {
        RewindToTime(target, ball);
      }
    }

    method StepBackwardTime(amount: real, ball: Ball)
      requires Valid()
      modifies this, ball
      ensures Valid() && Current(ball) == BackwardTime(old(Current(ball)), amount, autoPauseAfterStep)
      ensures stepMode == old(stepMode) && autoPauseAfterStep == old(autoPauseAfterStep)
    {
      if amount <= 0.0 {
        return;
      }
      ghost var m0 := Current(ball);
      var target := MaxReal(0.0, simulationTime - amount);
      ResetOrRewind(target, ball);
      ghost var next := if target == 0.0 then AfterReset(m0) else RewindTo(m0, target);
      assert BackwardTime(m0, amount, autoPauseAfterStep) == Paused(next, autoPauseAfterStep);
      if autoPauseAfterStep {
        Pause();
      }
    }

    method JumpToTime(target: real, ball: Ball, groundY: real)
      requires Valid()
      modifies this, ball
      ensures Valid() && Current(ball) == Jump(ball, old(Current(ball)), target, autoPauseAfterStep, dt, capacity, groundY)
      ensures stepMode == old(stepMode) && autoPauseAfterStep == old(autoPauseAfterStep)
    {
      if target < 0.0 {
        return;
      }
      if target < simulationTime {
        ResetOrRewind(target, ball);
      } else if target > simulationTime {
        StepForwardTime(target - simulationTime, ball, groundY);
      }
      if autoPauseAfterStep {
        Pause();
      }
    }

    /** More than one stored frame: a one-frame step back lands on a stored state (see `StepBackWhenRewindable`). */
    function CanRewind(): (r: bool)
      reads this
      ensures r <==> |history| > 1
    {
      |history| > 1
    }

    function GetHistoryInfo(): (info: HistoryInfo)
      requires Valid()
      reads this
      ensures info.framesStored <= info.maxFrames == capacity
      ensures info.timeStoredSeconds == info.framesStored as real / targetFps as real
      ensures info.canRewind <==> info.framesStored > 1
      ensures info.currentTime == simulationTime && info.isPlaying == isPlaying
      ensures info.stepMode == ModeName(stepMode)
    {
      HistoryInfo(|history|, capacity, |history| as real / targetFps as real, CanRewind(),
                  simulationTime, isPlaying, ModeName(stepMode))
    }

    method SetStepMode(mode: StepMode)
      modifies this
      ensures stepMode == mode
      ensures Line() == old(Line()) && isPlaying == old(isPlaying) && autoPauseAfterStep == old(autoPauseAfterStep)
    {
      stepMode := mode;
    }

    method ToggleStepMode()
      modifies this
      ensures stepMode != old(stepMode)
      ensures Line() == old(Line()) && isPlaying == old(isPlaying) && autoPauseAfterStep == old(autoPauseAfterStep)
    {
      if stepMode == Frames {
        SetStepMode(Seconds);
      } else {
        SetStepMode(Frames);
      }
    }

    method SetAutoPause(enabled: bool)
      modifies this
      ensures autoPauseAfterStep == enabled
      ensures Line() == old(Line()) && isPlaying == old(isPlaying) && stepMode == old(stepMode)
    {
      autoPauseAfterStep := enabled;
    }

    /** One second's worth of steps: the frame rate in frame mode, one second otherwise. */
    function GetSuggestedStepValue(): (s: string)
      reads this
      ensures stepMode == Seconds ==> s == "1.0"
      ensures stepMode == Frames && 0 <= targetFps ==> (forall i :: 0 <= i < |s| ==> IsDigit(s[i])) && ValueOf(s) == targetFps
      ensures stepMode == Frames && 0 < targetFps ==> s[0] != '0'
      ensures stepMode == Frames && targetFps == 0 ==> s == "0"
    {
      if stepMode == Frames then IntToString(targetFps) else "1.0"
    }
  }
}
