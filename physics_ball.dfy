/**
 * The unified ball of `src/physics/ball.py` (and its byte-identical archive
 * copy): vertical motion under gravity in either screen coordinates (y grows
 * downward, the ground is a caller-supplied `ground_y`) or physics
 * coordinates (y grows upward, the ground is y = 0).
 */
module PhysicsBall {
  import opened Wrappers
  import opened Numbers
  import opened Bounce

  const GRAVITY: real := 6000.0
  const BOUNCE_DAMPING: real := 0.8
  const MIN_BOUNCE_VELOCITY: real := 50.0
  const DEFAULT_BALL_RADIUS: real := 20.0
  const DEFAULT_BALL_MASS: real := 1.0

  datatype Coords = Screen | Physics

  /** The constants a ball fixes at construction. */
  datatype Params = Params(coords: Coords, gravity: real, bounceDamping: real, minBounceVelocity: real)

  /** The dictionary `get_state` returns (less the coordinate-system name, which `set_state` ignores). */
  datatype BallState = BallState(x: real, y: real, radius: real, mass: real, velocityY: real, accelerationY: real)

  datatype Energy = Energy(kinetic: real, potential: real, total: real)

  /** The ValueError raised when screen coordinates are used without a ground. */
  datatype BallError = MissingGround

  /** Gravity points toward the ground: down the screen, or toward y = 0 in physics coordinates. */
  function ParamsFor(coords: Coords): (p: Params)
    ensures p.coords == coords
    ensures coords == Physics ==> p.gravity < 0.0
    ensures coords == Screen ==> p.gravity > 0.0
    ensures Abs(p.gravity) == GRAVITY
    ensures p.bounceDamping == BOUNCE_DAMPING && p.minBounceVelocity == MIN_BOUNCE_VELOCITY
  {
    Params(coords, if coords == Physics then -GRAVITY else GRAVITY, BOUNCE_DAMPING, MIN_BOUNCE_VELOCITY)
  }

  /** Python's `value or default` on an optional float: None and 0 fall back to the default. */
  function OrDefault(v: Option<real>, default: real): (r: real)
    ensures r == default || (v.Some? && r == v.value && r != 0.0)
  {
    if v.Some? && v.value != 0.0 then v.value else default
  }

  /** The coordinate system's ground test: the ball touches or is past the ground. */
  predicate Touching(p: Params, s: BallState, ground: real) {
    if p.coords == Physics then s.y <= s.radius else s.y + s.radius >= ground
  }

  predicate AtRest(p: Params, s: BallState, ground: real) {
    s.velocityY == 0.0 && Touching(p, s, ground)
  }

  /** `update`: gravity unless at rest, then semi-implicit Euler (velocity first, then position). */
  function Integrated(p: Params, s: BallState, dt: real, ground: real): BallState {
    var a := if AtRest(p, s, ground) then 0.0 else p.gravity;
    var v := s.velocityY + a * dt;
    s.(accelerationY := a, velocityY := v, y := s.y + v * dt)
  }

  /** `check_ground_collision`: clamp onto the ground and bounce, or nothing. */
  function Collided(p: Params, s: BallState, ground: real): BallState {
    if Touching(p, s, ground) then
      s.(y := if p.coords == Physics then s.radius else ground - s.radius,
         velocityY := Rebound(s.velocityY, p.bounceDamping, p.minBounceVelocity))
    else s
  }

  function HeightAboveGround(p: Params, s: BallState, ground: real): real {
    if p.coords == Physics then MaxReal(0.0, s.y - s.radius) else MaxReal(0.0, ground - (s.y + s.radius))
  }

  /** `get_energy`: kinetic, potential and total energy; never negative for a non-negative mass. */
  function EnergyOf(p: Params, s: BallState, ground: real): (e: Energy)
    ensures 0.0 <= s.mass ==> 0.0 <= e.kinetic && 0.0 <= e.potential
    ensures e.total == e.kinetic + e.potential
    ensures s.velocityY == 0.0 ==> e.kinetic == 0.0
  {
    var h := HeightAboveGround(p, s, ground);
    var ke := 0.5 * s.mass * s.velocityY * s.velocityY;
    var pe := s.mass * Abs(p.gravity) * h;
    assert 0.0 <= s.mass ==> 0.0 <= s.mass * Abs(p.gravity) * h by {
      if 0.0 <= s.mass {
        assert 0.0 <= s.mass * Abs(p.gravity);
      }
    }
    assert 0.0 <= s.velocityY * s.velocityY;
    Energy(ke, pe, ke + pe)
  }

  /** The acceleration `update` chooses is zero exactly when the ball is at rest. */
  lemma AccelerationZeroIffAtRest(p: Params, s: BallState, dt: real, ground: real)
    requires p.gravity != 0.0
    ensures Integrated(p, s, dt, ground).accelerationY == 0.0 <==> AtRest(p, s, ground)
    ensures Integrated(p, s, dt, ground).accelerationY != 0.0 ==> Integrated(p, s, dt, ground).accelerationY == p.gravity
  {
  }

  /** After a collision check the ball is never past the ground. */
  lemma CollisionBound(p: Params, s: BallState, ground: real)
    ensures var r := Collided(p, s, ground);
      if p.coords == Physics then r.y >= r.radius else r.y + r.radius <= ground
  {
  }

  /** A collision leaves the ball at rest or moving at least at the minimum bounce speed. */
  lemma CollisionSpeed(p: Params, s: BallState, ground: real)
    ensures var r := Collided(p, s, ground);
      Touching(p, s, ground) ==> r.velocityY == 0.0 || p.minBounceVelocity <= Abs(r.velocityY)
    ensures !Touching(p, s, ground) ==> Collided(p, s, ground) == s
  {
  }

  /** A ball resting exactly on the ground stays where it is; only its acceleration is cleared. */
  lemma RestIsFixedPoint(p: Params, s: BallState, dt: real, ground: real)
    requires s.velocityY == 0.0
    requires if p.coords == Physics then s.y == s.radius else s.y + s.radius == ground
    ensures Collided(p, Integrated(p, s, dt, ground), ground) == s.(accelerationY := 0.0)
  {
  }

  /** A ball with vertical motion. `params` is fixed at construction; the other fields change in place. */
  class Ball {
    const params: Params
    var x: real
    var y: real
    var radius: real
    var mass: real
    var velocityY: real
    var accelerationY: real

    /** `get_state`: a value, so a stored snapshot never changes when the ball does. */
    function State(): BallState
      reads this
    {
      BallState(x, y, radius, mass, velocityY, accelerationY)
    }

    constructor (x0: real, y0: real, radius0: Option<real>, mass0: Option<real>, coords: Coords)
      ensures params == ParamsFor(coords)
      ensures State() == BallState(x0, y0, OrDefault(radius0, DEFAULT_BALL_RADIUS), OrDefault(mass0, DEFAULT_BALL_MASS), 0.0, 0.0)
    {
      params := ParamsFor(coords);
      x, y := x0, y0;
      radius := OrDefault(radius0, DEFAULT_BALL_RADIUS);
      mass := OrDefault(mass0, DEFAULT_BALL_MASS);
      velocityY, accelerationY := 0.0, 0.0;
    }

    method Update(dt: real, ground: Option<real>) returns (r: Outcome<BallError>)
      modifies this
      ensures r == if params.coords == Screen && ground.None? then Fail(MissingGround) else Pass
      ensures r.Fail? ==> State() == old(State())
      ensures r.Pass? ==> State() == Integrated(params, old(State()), dt, ground.GetOr(0.0))
    {
      var isAtRest: bool;
      if params.coords == Physics {
        isAtRest := velocityY == 0.0 && y <= radius;
      } else {
        if ground.None? {
          return Fail(MissingGround);
        }
        isAtRest := velocityY == 0.0 && y + radius >= ground.value;
      }
      if !isAtRest {
        accelerationY := params.gravity;
      } else {
        accelerationY := 0.0;
      }
      velocityY := velocityY + accelerationY * dt;
      y := y + velocityY * dt;
      r := Pass;
    }

    /** Clamp the ball onto `floor` and bounce: the step both ground tests share. */
    method BounceAt(floor: real)
      modifies this
      ensures State() == old(State()).(y := floor, velocityY := Rebound(old(velocityY), params.bounceDamping, params.minBounceVelocity))
    {
      y := floor;
      velocityY := -velocityY * params.bounceDamping;
      if Abs(velocityY) < params.minBounceVelocity {
        velocityY := 0.0;
      }
    }

    method CheckGroundCollision(ground: Option<real>) returns (r: Outcome<BallError>)
      modifies this
      ensures r == if params.coords == Screen && ground.None? then Fail(MissingGround) else Pass
      ensures r.Fail? ==> State() == old(State())
      ensures r.Pass? ==> State() == Collided(params, old(State()), ground.GetOr(0.0))
    {
      if params.coords == Physics {
        if y <= radius {
          BounceAt(radius);
        }
      } else {
        if ground.None? {
          return Fail(MissingGround);
        }
        if y + radius >= ground.value {
          BounceAt(ground.value - radius);
        }
      }
      r := Pass;
    }

    /** `set_state` with a dictionary from `get_state`: every field is restored. */
    method SetState(s: BallState)
      modifies this
      ensures State() == s
    {
      x, y, velocityY, accelerationY := s.x, s.y, s.velocityY, s.accelerationY;
      radius, mass := s.radius, s.mass;
    }

    /** `get_energy`; screen coordinates need a ground. */
    function GetEnergy(ground: Option<real>): (r: Result<Energy, BallError>)
      reads this
      ensures r.Failure? <==> params.coords == Screen && ground.None?
      ensures r.Success? ==> r.value == EnergyOf(params, State(), ground.GetOr(0.0))
    {
      if params.coords == Screen && ground.None? then Failure(MissingGround)
      else Success(EnergyOf(params, State(), ground.GetOr(0.0)))
    }

    method ResetToPosition(x0: real, y0: real)
      modifies this
      ensures State() == old(State()).(x := x0, y := y0, velocityY := 0.0, accelerationY := 0.0)
    {
      x, y := x0, y0;
      velocityY, accelerationY := 0.0, 0.0;
    }
  }
}
