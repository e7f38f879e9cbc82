/**
 * The older engine of `src/physics.py`: a `PhysicsState` record per object,
 * objects that integrate it in place, a ball that also collides with a
 * horizontal ground in screen coordinates (y grows downward), and an engine
 * that keeps a list of objects and ticks them all.
 */
module Physics {
  import opened Numbers
  import opened Bounce
  import opened Lists

  /** Position, velocity and acceleration on both axes, as an immutable value. */
  datatype PhysicsState = PhysicsState(x: real, y: real, velocityX: real, velocityY: real,
                                       accelerationX: real, accelerationY: real)

  /** `PhysicsState(x, y)`: at rest, nothing accelerating. */
  function AtPosition(x: real, y: real): PhysicsState {
    PhysicsState(x, y, 0.0, 0.0, 0.0, 0.0)
  }

  /** `PhysicsObject.update`: velocities first (both axes), then positions with the new velocities. */
  function Kinematics(s: PhysicsState, dt: real): PhysicsState {
    var vx := s.velocityX + s.accelerationX * dt;
    var vy := s.velocityY + s.accelerationY * dt;
    s.(velocityX := vx, velocityY := vy, x := s.x + vx * dt, y := s.y + vy * dt)
  }

  /**
   * Because the positions use the updated velocities (semi-implicit Euler),
   * one step moves by v*dt + a*dt^2, a full a*dt^2 rather than the exact
   * a*dt^2/2, and changes each velocity by a*dt.
   */
  lemma KinematicsDisplacement(s: PhysicsState, dt: real)
    ensures var r := Kinematics(s, dt);
      && r.velocityX - s.velocityX == s.accelerationX * dt
      && r.velocityY - s.velocityY == s.accelerationY * dt
      && r.x - s.x == s.velocityX * dt + s.accelerationX * dt * dt
      && r.y - s.y == s.velocityY * dt + s.accelerationY * dt * dt
      && r.accelerationX == s.accelerationX && r.accelerationY == s.accelerationY
  {
  }

  /** An object with mass whose state is integrated in place. */
  class PhysicsObject {
    const mass: real
    const gravity: real
    const bounceDamping: real
    var state: PhysicsState

    constructor (x: real, y: real, mass0: real, gravity0: real, bounceDamping0: real)
      ensures mass == mass0 && gravity == gravity0 && bounceDamping == bounceDamping0
      ensures state == AtPosition(x, y)
    {
      mass, gravity, bounceDamping := mass0, gravity0, bounceDamping0;
      state := AtPosition(x, y);
    }

    /** `apply_gravity`: the vertical acceleration becomes the gravity constant (dt is unused). */
    method ApplyGravity(dt: real)
      modifies this
      ensures state == old(state).(accelerationY := gravity)
    {
      state := state.(accelerationY := gravity);
    }

    method Update(dt: real)
      modifies this
      ensures state == Kinematics(old(state), dt)
    {
      state := state.(velocityX := state.velocityX + state.accelerationX * dt);
      state := state.(velocityY := state.velocityY + state.accelerationY * dt);
      state := state.(x := state.x + state.velocityX * dt);
      state := state.(y := state.y + state.velocityY * dt);
    }

    /** `set_state`: the object takes the given snapshot; a snapshot is a value, so later updates never alter it. */
    method SetState(s: PhysicsState)
      modifies this
      ensures state == s
    {
      state := s;
    }
  }

  /** A ball falling onto the ground line `ground` of screen coordinates. */
  class Ball {
    const radius: real
    const mass: real
    const gravity: real
    const bounceDamping: real
    /** The module-level `MIN_BOUNCE_VELOCITY` the source imports. */
    const minBounceVelocity: real
    var state: PhysicsState

    constructor (x: real, y: real, radius0: real, mass0: real, gravity0: real, bounceDamping0: real, minBounceVelocity0: real)
      ensures radius == radius0 && mass == mass0 && gravity == gravity0
      ensures bounceDamping == bounceDamping0 && minBounceVelocity == minBounceVelocity0
      ensures state == AtPosition(x, y)
    {
      radius, mass, gravity := radius0, mass0, gravity0;
      bounceDamping, minBounceVelocity := bounceDamping0, minBounceVelocity0;
      state := AtPosition(x, y);
    }

    /** The rest test of `update`: not moving vertically and touching or past the ground. */
    predicate RestingOn(s: PhysicsState, ground: real) {
      s.velocityY == 0.0 && s.y + radius >= ground
    }

    /** `check_ground_collision` as a function of the state. */
    function Collided(s: PhysicsState, ground: real): PhysicsState {
      if s.y + radius >= ground then
        s.(y := ground - radius, velocityY := Rebound(s.velocityY, bounceDamping, minBounceVelocity))
      else s
    }

    /** `update` as a function of the state: choose the acceleration, integrate, collide. */
    function Next(s: PhysicsState, dt: real, ground: real): PhysicsState {
      var a := if RestingOn(s, ground) then 0.0 else gravity;
      Collided(Kinematics(s.(accelerationY := a), dt), ground)
    }

    method CheckGroundCollision(ground: real)
      modifies this
      ensures state == Collided(old(state), ground)
    {
      if state.y + radius >= ground {
        state := state.(y := ground - radius);
        state := state.(velocityY := -state.velocityY * bounceDamping);
        if Abs(state.velocityY) < minBounceVelocity {
          state := state.(velocityY := 0.0);
        }
      }
    }

    method Update(dt: real, ground: real)
      modifies this
      ensures state == Next(old(state), dt, ground)
    {
      var isAtRest := state.velocityY == 0.0 && state.y + radius >= ground;
      if !isAtRest {
        state := state.(accelerationY := gravity);
      } else {
        state := state.(accelerationY := 0.0);
      }
      state := state.(velocityX := state.velocityX + state.accelerationX * dt);
      state := state.(velocityY := state.velocityY + state.accelerationY * dt);
      state := state.(x := state.x + state.velocityX * dt);
      state := state.(y := state.y + state.velocityY * dt);
      CheckGroundCollision(ground);
    }

    method SetState(s: PhysicsState)
      modifies this
      ensures state == s
    {
      state := s;
    }

    /** Kinetic energy over both velocity components. */
    function KineticEnergy(): (e: real)
      reads this
      ensures 0.0 <= mass ==> 0.0 <= e
      ensures state.velocityX == 0.0 && state.velocityY == 0.0 ==> e == 0.0
    {
      var v2 := state.velocityX * state.velocityX + state.velocityY * state.velocityY;
      assert 0.0 <= v2;
      0.5 * mass * v2
    }

    /** Potential energy of the height of the ball's bottom above the ground (0 once on or past it). */
    function PotentialEnergy(ground: real): (e: real)
      reads this
      ensures 0.0 <= mass && 0.0 <= gravity ==> 0.0 <= e
      ensures state.y + radius >= ground ==> e == 0.0
    {
      var h := MaxReal(0.0, ground - (state.y + radius));
      assert 0.0 <= mass && 0.0 <= gravity ==> 0.0 <= mass * gravity;
      mass * gravity * h
    }

    function TotalEnergy(ground: real): (e: real)
      reads this
      ensures e == KineticEnergy() + PotentialEnergy(ground)
      ensures 0.0 <= mass && 0.0 <= gravity ==> KineticEnergy() <= e && PotentialEnergy(ground) <= e
    {
      KineticEnergy() + PotentialEnergy(ground)
    }
  }

  /** After a tick the ball is never below the ground line. */
  lemma GroundBound(b: Ball, s: PhysicsState, dt: real, ground: real)
    ensures b.Collided(s, ground).y + b.radius <= ground
    ensures b.Next(s, dt, ground).y + b.radius <= ground
  {
  }

  /** A collision reflects and damps the vertical velocity, or stops the ball below the minimum bounce speed. */
  lemma BounceRule(b: Ball, s: PhysicsState, ground: real)
    requires s.y + b.radius >= ground
    ensures var v := b.Collided(s, ground).velocityY;
      && (v == 0.0 || v == -s.velocityY * b.bounceDamping)
      && (v == 0.0 || b.minBounceVelocity <= Abs(v))
      && (Abs(s.velocityY * b.bounceDamping) < b.minBounceVelocity ==> v == 0.0)
  {
  }

  /** The chosen acceleration is zero exactly at rest, gravity otherwise. */
  lemma AccelerationRule(b: Ball, s: PhysicsState, dt: real, ground: real)
    requires b.gravity != 0.0
    ensures var r := b.Next(s, dt, ground);
      && (r.accelerationY == 0.0 <==> b.RestingOn(s, ground))
      && (!b.RestingOn(s, ground) ==> r.accelerationY == b.gravity)
  {
  }

  /**
   * A ball released from rest in mid-air with downward gravity moves down
   * (y grows) and picks up downward velocity on its first update, as long as
   * that first step does not reach the ground.
   */
  lemma {:induction false} FallFromRest(b: Ball, s: PhysicsState, dt: real, ground: real)
    requires 0.0 < b.gravity && 0.0 < dt
    requires s.velocityY == 0.0 && s.y + b.radius + b.gravity * dt * dt < ground
    ensures b.Next(s, dt, ground).y > s.y
    ensures b.Next(s, dt, ground).velocityY > 0.0
  {
    assert !b.RestingOn(s, ground) by {
      assert 0.0 < b.gravity * dt * dt;
    }
    var k := Kinematics(s.(accelerationY := b.gravity), dt);
    KinematicsDisplacement(s.(accelerationY := b.gravity), dt);
    assert 0.0 < b.gravity * dt;
    assert 0.0 < b.gravity * dt * dt;
    assert k.y == s.y + b.gravity * dt * dt;
    assert k.y + b.radius < ground;
    assert b.Next(s, dt, ground) == k;
    assert k.y > s.y;
    assert k.velocityY == b.gravity * dt;
  }

  /** An element of the engine's list: the engine tells balls and plain objects apart. */
  datatype Body = Plain(obj: PhysicsObject) | Round(ball: Ball) {
    function Ref(): object {
      match this
      case Plain(o) => o
      case Round(b) => b
    }

    function Snapshot(): PhysicsState
      reads Ref()
    {
      match this
      case Plain(o) => o.state
      case Round(b) => b.state
    }

    /** One engine tick of this element: a ball is given the engine's ground. */
    function Tick(s: PhysicsState, dt: real, ground: real): PhysicsState {
      match this
      case Plain(_) => Kinematics(s, dt)
      case Round(b) => b.Next(s, dt, ground)
    }

    function Ticks(s: PhysicsState, n: nat, dt: real, ground: real): PhysicsState {
      if n == 0 then s else Tick(Ticks(s, n - 1, dt, ground), dt, ground)
    }
  }

  /** Distinct list elements are distinct objects. */
  lemma DistinctRefs(a: Body, b: Body)
    requires a != b
    ensures a.Ref() != b.Ref()
  {
  }

  /** Ticks one element in place: `Ball.update` with the ground, or `PhysicsObject.update`. */
  method TickBody(b: Body, dt: real, ground: real)
    modifies b.Ref()
    ensures b.Snapshot() == b.Tick(old(b.Snapshot()), dt, ground)
  {
    match b
    case Plain(o) => o.Update(dt);
    case Round(ball) => ball.Update(dt, ground);
  }

  class PhysicsEngine {
    const groundY: real
    var objects: seq<Body>

    constructor (groundY0: real)
      ensures groundY == groundY0 && objects == []
    {
      groundY := groundY0;
      objects := [];
    }

    ghost function Footprint(): set<object>
      reads this
    {
      set b | b in objects :: b.Ref()
    }

    method AddObject(b: Body)
      modifies this
      ensures objects == old(objects) + [b]
    {
      objects := objects + [b];
    }

    method RemoveObject(b: Body)
      modifies this
      ensures objects == RemoveFirst(old(objects), b)
    {
      if b in objects {
        objects := RemoveFirst(objects, b);
      }
    }

    method Clear()
      modifies this
      ensures objects == []
    {
      objects := [];
    }

    /**
     * Ticks every listed object once per occurrence in the list (an object
     * added twice is updated twice), giving balls the engine's ground; no
     * other object changes.
     */
    method Update(dt: real)
      modifies Footprint()
      ensures forall b :: b in objects ==> b.Snapshot() == b.Ticks(old(b.Snapshot()), Count(objects, b), dt, groundY)
    {
      for i := 0 to |objects|
        invariant forall b :: b in objects ==> b.Snapshot() == b.Ticks(old(b.Snapshot()), Count(objects[..i], b), dt, groundY)
      {
        var cur := objects[i];
        assert cur.Ref() in Footprint();
        label Before:
        TickBody(cur, dt, groundY);
        forall b | b in objects
          ensures b.Snapshot() == b.Ticks(old(b.Snapshot()), Count(objects[..i + 1], b), dt, groundY)
        {
          assert objects[..i + 1][..i] == objects[..i];
          if b != cur {
            DistinctRefs(b, cur);
            assert b.Snapshot() == old@Before(b.Snapshot());
          }
        }
      }
      assert objects[..|objects|] == objects;
    }
  }
}
