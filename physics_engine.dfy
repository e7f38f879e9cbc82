/**
 * The web variant of the simulation controller (`src/physics_engine.py`):
 * the base controller in physics coordinates plus a viewport that always
 * spans from 300 units below the ground up to the ball's top plus padding
 * (at least 600), and the affine map between that viewport and a canvas of
 * a given height. The Python subclass is modelled by composition: the web
 * simulation holds the base one.
 */
module WebEngine {
  import opened Wrappers
  import opened Numbers
  import opened PhysicsBall
  import opened Simulation

  const VIEWPORT_PADDING: int := 50
  const MIN_VIEWPORT_HEIGHT: int := 600
  const VIEWPORT_FLOOR: int := -300

  /** The dictionary `get_viewport_bounds` returns. */
  datatype Bounds = Bounds(minX: int, maxX: int, minY: real, maxY: real)

  /** The viewport for a ball at height `ballY` with radius `radius` on a simulation `width` wide. */
  function ViewportBounds(ballY: real, radius: real, width: int): (b: Bounds)
    ensures b.minX == 0 && b.maxX == width && b.minY == VIEWPORT_FLOOR as real
    ensures b.maxY == MaxReal(ballY + radius + VIEWPORT_PADDING as real, MIN_VIEWPORT_HEIGHT as real)
    ensures MIN_VIEWPORT_HEIGHT as real <= b.maxY && ballY + radius + VIEWPORT_PADDING as real <= b.maxY
    ensures 900.0 <= b.maxY - b.minY
  {
    Bounds(0, width, VIEWPORT_FLOOR as real, MaxReal(ballY + radius + VIEWPORT_PADDING as real, MIN_VIEWPORT_HEIGHT as real))
  }

  /** `physics_to_canvas_y`: the viewport's vertical span scaled onto `[h, 0]`, upside down. */
  function ToCanvasY(b: Bounds, p: real, h: real): (c: real)
    requires b.maxY - b.minY != 0.0
  {
    h - ((p - b.minY) / (b.maxY - b.minY)) * h
  }

  /** `canvas_to_physics_y`: the inverse scaling; a zero canvas height divides by zero. */
  function ToPhysicsY(b: Bounds, c: real, h: real): (p: Option<real>)
    ensures p.None? <==> h == 0.0
  {
    if h == 0.0 then None else Some(b.minY + ((h - c) / h) * (b.maxY - b.minY))
  }

  /** The bottom of the viewport lands on the canvas bottom and its top on the canvas top. */
  lemma ToCanvasEndpoints(b: Bounds, h: real)
    requires b.maxY - b.minY != 0.0
    ensures ToCanvasY(b, b.minY, h) == h
    ensures ToCanvasY(b, b.maxY, h) == 0.0
  {
    QuotientTimesDivisor(b.maxY - b.minY, b.maxY - b.minY);
    assert (b.maxY - b.minY) / (b.maxY - b.minY) == 1.0;
  }

  lemma CancelFactor(x: real, d: real)
    requires d != 0.0
    ensures (x * d) / d == x
  {
  }

  /** A physics height sent to the canvas and back is unchanged, for any non-zero canvas height. */
  lemma PhysicsRoundTrip(b: Bounds, p: real, h: real)
    requires b.maxY - b.minY != 0.0 && h != 0.0
    ensures ToPhysicsY(b, ToCanvasY(b, p, h), h) == Some(p)
  {
    var span := b.maxY - b.minY;
    var n := (p - b.minY) / span;
    var c := ToCanvasY(b, p, h);
    CancelFactor(n, h);
    assert (h - c) / h == n by {
      assert h - c == n * h;
    }
    QuotientTimesDivisor(p - b.minY, span);
    assert n * span == p - b.minY;
    var q := ToPhysicsY(b, c, h);
    assert q.Some?;
    assert q.value == b.minY + ((h - c) / h) * span;
    assert q.value == b.minY + n * span;
  }

  /** A canvas height sent to physics and back is unchanged, for any non-zero canvas height. */
  lemma CanvasRoundTrip(b: Bounds, c: real, h: real)
    requires b.maxY - b.minY != 0.0 && h != 0.0
    ensures ToCanvasY(b, ToPhysicsY(b, c, h).value, h) == c
  {
    var span := b.maxY - b.minY;
    var n := (h - c) / h;
    var p := ToPhysicsY(b, c, h).value;
    CancelFactor(n, span);
    assert (p - b.minY) / span == n by {
      assert p - b.minY == n * span;
    }
    QuotientTimesDivisor(h - c, h);
  }

  /** What the web `get_state` reports: the base state plus the viewport. */
  datatype WebState = WebState(base: SimulationState, viewport: Bounds)

  class WebSimulation {
    const sim: PhysicsSimulation
    const viewportPadding: int
    const minViewportHeight: int

    predicate Valid()
      reads this, sim
    {
      sim.Valid() && sim.coords == Physics && viewportPadding == VIEWPORT_PADDING && minViewportHeight == MIN_VIEWPORT_HEIGHT
    }

    /** The base simulation is always in physics coordinates, with a padding of 50 and a minimum viewport height of 600. */
    constructor (width0: int, height0: int)
      ensures Valid() && fresh(sim) && fresh(sim.ball)
      ensures sim.width == DimensionOr(Some(width0), DEFAULT_WIDTH) && sim.height == DimensionOr(Some(height0), DEFAULT_HEIGHT)
      ensures sim.groundY == 0.0 && sim.ball.params == ParamsFor(Physics)
      ensures sim.Current().line.now == 0.0 && |sim.Current().line.times| == 0 && !sim.isPlaying
    {
      sim := new PhysicsSimulation(Some(width0), Some(height0), Physics);
      viewportPadding := VIEWPORT_PADDING;
      minViewportHeight := MIN_VIEWPORT_HEIGHT;
    }

    /** `get_viewport_bounds` on the ball's current height and radius. */
    function GetViewportBounds(): (b: Bounds)
      reads this, sim, sim.ball
      ensures b == ViewportBounds(sim.ball.y, sim.ball.radius, sim.width)
    {
      ViewportBounds(sim.ball.y, sim.ball.radius, sim.width)
    }

    /** The viewport's span is at least 900, so the conversion never divides by zero. */
    function PhysicsToCanvasY(physicsY: real, canvasHeight: real): (c: real)
      reads this, sim, sim.ball
      ensures c == ToCanvasY(GetViewportBounds(), physicsY, canvasHeight)
    {
      ToCanvasY(GetViewportBounds(), physicsY, canvasHeight)
    }

    function CanvasToPhysicsY(canvasY: real, canvasHeight: real): (p: Option<real>)
      reads this, sim, sim.ball
      ensures p == ToPhysicsY(GetViewportBounds(), canvasY, canvasHeight)
      ensures p.None? <==> canvasHeight == 0.0
    {
      ToPhysicsY(GetViewportBounds(), canvasY, canvasHeight)
    }

    function GetState(): (st: WebState)
      reads this, sim, sim.ball
      ensures st.base == sim.GetState() && st.viewport == GetViewportBounds()
    {
      WebState(sim.GetState(), GetViewportBounds())
    }

    /** `set_start_y`: the ball's bottom at `startY`, centred horizontally, with time 0, paused and cleared history. */
    method SetStartY(startY: real) returns (st: WebState)
      requires Valid()
      modifies sim, sim.ball
      ensures Valid()
      ensures sim.Current() == Restarted(sim.SceneOf().(startX := (sim.width / 2) as real, startY := startY - old(sim.ball.radius)), old(sim.Current()))
      ensures sim.ball.y + sim.ball.radius == startY && sim.ball.x == (sim.width / 2) as real
      ensures st == GetState()
    {
      var ballCenterY := startY - sim.ball.radius;
      var base := sim.SetBallStartPosition((sim.width / 2) as real, ballCenterY);
      st := WebState(base, GetViewportBounds());
    }
  }

  /** For the web simulation's own viewport both conversions are defined and mutually inverse. */
  lemma ViewportConversionsInverse(ballY: real, radius: real, width: int, p: real, c: real, h: real)
    requires h != 0.0
    ensures var b := ViewportBounds(ballY, radius, width);
      ToPhysicsY(b, ToCanvasY(b, p, h), h) == Some(p) && ToCanvasY(b, ToPhysicsY(b, c, h).value, h) == c
  {
    var b := ViewportBounds(ballY, radius, width);
    PhysicsRoundTrip(b, p, h);
    CanvasRoundTrip(b, c, h);
  }
}
