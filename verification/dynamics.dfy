/**
 * The lander's flight model as pure functions: the physical constants of the
 * Lander record, the two heading vectors, the force sums and one integration
 * step (semi-implicit Euler).  The class in lander.dfy updates its fields
 * exactly as `Integrated` says.
 */
module Dynamics {
  import opened Vectors

  // Constants of the Lander record (defaults that nothing reassigns).
  const ThrustForce: Vec3 := Vec3(0.0, 2.0, 0.0)
  const DownwardForce: Vec3 := Vec3(0.0, -2.0, 0.0)
  const AngularForces: real := 12.0
  const Damping: real := 0.99
  const Gravity: real := -0.3
  const InitialFuel: real := 120.0
  /** Magnitude of a forward, backward, left or right push. */
  const MoveForce: real := 3.0

  /**
   * The constants have the intended signs: damping slows every velocity
   * without reversing it, gravity and the descend force point down, thrust
   * points straight up and exactly cancels the descend force.
   */
  lemma ConstantsPointTheRightWay()
    ensures 0.0 < Damping < 1.0 && Gravity < 0.0 && InitialFuel > 0.0
    ensures ThrustForce.x == 0.0 && ThrustForce.z == 0.0 && ThrustForce.y > 0.0
    ensures Add(ThrustForce, DownwardForce) == Zero
  {
  }

  /**
   * The sine and cosine of the lander's rotation angle about the y axis.
   * The trigonometry itself is not modelled: callers supply both values.
   */
  datatype Heading = Heading(sin: real, cos: real) {
    predicate OnUnitCircle() {
      sin * sin + cos * cos == 1.0
    }
  }

  /**
   * Direction of forward motion: (sin(a + 180), 0, cos(a + 180)), that is
   * (-sin a, 0, -cos a), normalised.  It is horizontal (its length and its
   * angle to the sideways direction are stated by HeadersOrthonormal).
   */
  function Header(h: Heading): (r: Vec3)
    ensures r.y == 0.0
  {
    Vec3(-h.sin, 0.0, -h.cos)
  }

  /**
   * Direction of leftward motion: (sin(a - 90), 0, cos(a - 90)), that is
   * (-cos a, 0, sin a), normalised.  It is horizontal.
   */
  function LeftRightHeader(h: Heading): (r: Vec3)
    ensures r.y == 0.0
  {
    Vec3(-h.cos, 0.0, h.sin)
  }

  /**
   * Both heading vectors have unit length and are at a right angle to each
   * other, so that normalising them changes nothing.
   */
  lemma HeadersOrthonormal(h: Heading)
    requires h.OnUnitCircle()
    ensures Norm2(Header(h)) == 1.0 && Norm2(LeftRightHeader(h)) == 1.0
    ensures Dot(Header(h), LeftRightHeader(h)) == 0.0
  {
  }

  /** The eight movement intents a Lander carries. */
  datatype Intents = Intents(
    moveForward: bool, moveBackward: bool, moveLeft: bool, moveRight: bool,
    thrustUp: bool, moveDown: bool, rotateLeft: bool, rotateRight: bool)

  const NoIntents: Intents := Intents(false, false, false, false, false, false, false, false)

  predicate AnyMove(i: Intents) {
    i.moveForward || i.moveBackward || i.moveLeft || i.moveRight
  }

  lemma ScaledNorm(v: Vec3, k: real)
    ensures Norm2(Scale(v, k)) == k * k * Norm2(v)
  {
    calc {
      Norm2(Scale(v, k));
      (v.x * k) * (v.x * k) + (v.y * k) * (v.y * k) + (v.z * k) * (v.z * k);
      k * k * (v.x * v.x) + k * k * (v.y * v.y) + k * k * (v.z * v.z);
      k * k * Norm2(v);
    }
  }

  /**
   * The single directional push of one step: the first of forward, backward,
   * left, right that is set wins.  It is horizontal (its magnitude is stated
   * by DirectionalMagnitude).
   */
  function DirectionalForce(i: Intents, h: Heading): (r: Vec3)
    ensures r.y == 0.0
  {
    if i.moveForward then Scale(Header(h), MoveForce)
    else if i.moveBackward then Scale(Header(h), -MoveForce)
    else if i.moveLeft then Scale(LeftRightHeader(h), MoveForce)
    else if i.moveRight then Scale(LeftRightHeader(h), -MoveForce)
    else Zero
  }

  /**
   * The acceleration one step applies: the stored base acceleration, thrust
   * and descend forces, the directional push and the turbulence.  Its vertical
   * part does not depend on the heading or on the directional intents.
   */
  function Acceleration(base: Vec3, turb: Vec3, i: Intents, h: Heading): (r: Vec3)
    ensures r.y == base.y + turb.y
                   + (if i.thrustUp then ThrustForce.y else 0.0)
                   + (if i.moveDown then DownwardForce.y else 0.0)
  {
    var a0 := base;
    var a1 := if i.thrustUp then Add(a0, ThrustForce) else a0;
    var a2 := if i.moveDown then Add(a1, DownwardForce) else a1;
    var a3 := Add(a2, DirectionalForce(i, h));
    Add(a3, turb)
  }

  /**
   * Angular acceleration of one step: rotate-left adds and rotate-right
   * subtracts the angular force, so both together cancel.
   */
  function AngularAcceleration(base: real, i: Intents): (r: real)
    ensures i.rotateLeft == i.rotateRight ==> r == base
    ensures i.rotateLeft && !i.rotateRight ==> r == base + AngularForces
    ensures !i.rotateLeft && i.rotateRight ==> r == base - AngularForces
  {
    var a0 := base;
    var a1 := if i.rotateLeft then a0 + AngularForces else a0;
    if i.rotateRight then a1 - AngularForces else a1
  }

  /** Step length: one unit when the frame rate reads 0, else its reciprocal. */
  function DeltaTime(frameRate: real): (dt: real)
    ensures frameRate == 0.0 ==> dt == 1.0
    ensures frameRate != 0.0 ==> dt * frameRate == 1.0
    ensures frameRate >= 0.0 ==> dt > 0.0
  {
    if frameRate == 0.0 then 1.0 else 1.0 / frameRate
  }

  /** A quantity after changing at `rate` for a step of length `dt`. */
  function Advance(x: real, rate: real, dt: real): real {
    x + rate * dt
  }

  /** The kinematic part of a Lander: what `integrate` reads and writes. */
  datatype BodyState = BodyState(
    position: Vec3, rotation: real,
    velocity: Vec3, acceleration: Vec3,
    angularVelocity: real, angularAcceleration: real,
    turbForce: Vec3)

  /**
   * One integration step.  Position and rotation advance by the velocities
   * held BEFORE the step; the stored accelerations are read and left as they
   * were; the turbulence impulse is consumed.
   */
  function Integrated(b: BodyState, i: Intents, h: Heading, frameRate: real): (r: BodyState)
    ensures r.position == Add(b.position, Scale(b.velocity, DeltaTime(frameRate)))
    ensures r.rotation == b.rotation + b.angularVelocity * DeltaTime(frameRate)
    ensures r.acceleration == b.acceleration
    ensures r.angularAcceleration == b.angularAcceleration
    ensures r.turbForce == Zero
    ensures r.velocity.y == (b.velocity.y + Acceleration(b.acceleration, b.turbForce, i, h).y
                             * DeltaTime(frameRate)) * Damping
  {
    var dt := DeltaTime(frameRate);
    var accel := Acceleration(b.acceleration, b.turbForce, i, h);
    var w := AngularAcceleration(b.angularAcceleration, i);
    BodyState(
      Add(b.position, Scale(b.velocity, dt)),
      Advance(b.rotation, b.angularVelocity, dt),
      Scale(Add(b.velocity, Scale(accel, dt)), Damping),
      b.acceleration,
      Advance(b.angularVelocity, w, dt) * Damping,
      b.angularAcceleration,
      Zero)
  }

  /** No motion and no force of any kind stored in the body. */
  predicate AtRest(b: BodyState) {
    && b.velocity == Zero && b.acceleration == Zero && b.turbForce == Zero
    && b.angularVelocity == 0.0 && b.angularAcceleration == 0.0
  }

  /** Intents whose forces cancel: no directional move, and opposite pairs equal. */
  predicate Balanced(i: Intents) {
    !AnyMove(i) && i.thrustUp == i.moveDown && i.rotateLeft == i.rotateRight
  }

  /**
   * At most one directional force applies, and which one follows the
   * priority forward > backward > left > right; backward is the reverse of
   * forward and right the reverse of left.
   */
  lemma MovePriority(i: Intents, h: Heading)
    ensures i.moveForward ==> DirectionalForce(i, h) == Scale(Header(h), MoveForce)
    ensures !i.moveForward && i.moveBackward ==>
              DirectionalForce(i, h) == Scale(Header(h), -MoveForce)
    ensures !i.moveForward && !i.moveBackward && i.moveLeft ==>
              DirectionalForce(i, h) == Scale(LeftRightHeader(h), MoveForce)
    ensures !i.moveForward && !i.moveBackward && !i.moveLeft && i.moveRight ==>
              DirectionalForce(i, h) == Scale(LeftRightHeader(h), -MoveForce)
    ensures !AnyMove(i) ==> DirectionalForce(i, h) == Zero
  {
  }

  /** The directional push has magnitude 3 when some move is requested and is zero otherwise. */
  lemma DirectionalMagnitude(i: Intents, h: Heading)
    requires h.OnUnitCircle()
    ensures Norm2(DirectionalForce(i, h)) == if AnyMove(i) then MoveForce * MoveForce else 0.0
  {
    if AnyMove(i) {
      var u := if i.moveForward || i.moveBackward then Header(h) else LeftRightHeader(h);
      var k := if i.moveForward || (!i.moveBackward && i.moveLeft) then MoveForce else -MoveForce;
      assert DirectionalForce(i, h) == Scale(u, k);
      HeadersOrthonormal(h);
      ScaledNorm(u, k);
    }
  }

  /** Thrust up and descend are equal and opposite: set together they add nothing. */
  lemma ThrustAndDescendCancel(base: Vec3, turb: Vec3, i: Intents, h: Heading)
    ensures Acceleration(base, turb, i.(thrustUp := true, moveDown := true), h)
         == Acceleration(base, turb, i.(thrustUp := false, moveDown := false), h)
  {
  }

  /** Balanced intents on a body at rest produce no linear or angular acceleration. */
  lemma BalancedForcesVanish(b: BodyState, i: Intents, h: Heading)
    requires AtRest(b) && Balanced(i)
    ensures Acceleration(b.acceleration, b.turbForce, i, h) == Zero
    ensures AngularAcceleration(b.angularAcceleration, i) == 0.0
  {
    assert DirectionalForce(i, h) == Zero;
  }
}
