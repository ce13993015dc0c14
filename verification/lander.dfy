/**
 * The Lander record: its kinematic state, its eight movement intents and its
 * fuel, updated in place by the setters and by `Integrate`.  Gravity, the
 * initial rotation and the model's scene-space bounding box (an asset
 * property) are fixed at construction.
 */
module LanderModel {
  import opened Vectors
  import opened Dynamics

  class Lander {
    var position: Vec3
    /** Rotation angle about the y axis, in degrees. */
    var rotationAngle: real
    var velocity: Vec3
    var acceleration: Vec3
    var angularVelocity: real
    var angularAcceleration: real
    var turbForce: Vec3

    var moveForward: bool
    var moveBackward: bool
    var moveLeft: bool
    var moveRight: bool
    var thrustUp: bool
    var moveDown: bool
    var rotateLeft: bool
    var rotateRight: bool

    var fuelTimeLeft: real

    /** Gravity along y; the application writes it into the acceleration every tick. */
    const gravity: real
    /** Initial rotation angle handed to the model at setup. */
    const rotation: real
    /** Bounding box of the loaded model, relative to its position. */
    const sceneMin: Vec3
    const sceneMax: Vec3

    /** The kinematic state as a value. */
    function Body(): BodyState
      reads this
    {
      BodyState(position, rotationAngle, velocity, acceleration,
                angularVelocity, angularAcceleration, turbForce)
    }

    /** The intent flags as a value. */
    function Intents(): Dynamics.Intents
      reads this
    {
      Dynamics.Intents(moveForward, moveBackward, moveLeft, moveRight,
                       thrustUp, moveDown, rotateLeft, rotateRight)
    }

    /**
     * A new Lander is at rest at the model's origin: no velocity, no stored
     * force, no intent, a full tank of 120 fuel seconds.
     */
    constructor (sceneMin: Vec3, sceneMax: Vec3)
      ensures Body() == BodyState(Zero, 0.0, Zero, Zero, 0.0, 0.0, Zero)
      ensures AtRest(Body())
      ensures Intents() == NoIntents
      ensures fuelTimeLeft == InitialFuel
      ensures gravity == Gravity && rotation == 0.0
      ensures this.sceneMin == sceneMin && this.sceneMax == sceneMax
    {
      position := Zero;
      rotationAngle := 0.0;
      velocity := Zero;
      acceleration := Zero;
      angularVelocity := 0.0;
      angularAcceleration := 0.0;
      turbForce := Zero;
      moveForward, moveBackward, moveLeft, moveRight := false, false, false, false;
      thrustUp, moveDown, rotateLeft, rotateRight := false, false, false, false;
      fuelTimeLeft := InitialFuel;
      gravity := Gravity;
      rotation := 0.0;
      this.sceneMin := sceneMin;
      this.sceneMax := sceneMax;
    }

    /** Moves the model to exactly the given point; nothing else changes. */
    method SetLanderPosition(x: real, y: real, z: real)
      modifies this`position
      ensures position == Vec3(x, y, z)
    {
      position := Vec3(x, y, z);
    }

    /** Sets the rotation about the y axis; nothing else changes. */
    method SetLanderRotation(angle: real)
      modifies this`rotationAngle
      ensures rotationAngle == angle
    {
      rotationAngle := angle;
    }

    /**
     * One physics step.  `h` is the heading of the current rotation angle.
     * Only position, rotation, velocity, angular velocity and the turbulence
     * accumulator change, exactly as `Integrated` says; intents, stored
     * accelerations and fuel are left alone.  The result is the angle the
     * ship light turns by: the new angular velocity times the step length.
     */
    method Integrate(frameRate: real, h: Heading) returns (angularDelta: real)
      requires h.OnUnitCircle()
      modifies this`position, this`rotationAngle, this`velocity,
               this`angularVelocity, this`turbForce
      ensures Body() == Integrated(old(Body()), Intents(), h, frameRate)
      ensures angularDelta == angularVelocity * DeltaTime(frameRate)
    {
      var dt := DeltaTime(frameRate);

      var pos := Add(position, Scale(velocity, dt));
      SetLanderPosition(pos.x, pos.y, pos.z);

      var accel := Acceleration(acceleration, turbForce, Intents(), h);
      velocity := Scale(Add(velocity, Scale(accel, dt)), Damping);

      SetLanderRotation(Advance(rotationAngle, angularVelocity, dt));

      var a := AngularAcceleration(angularAcceleration, Intents());
      angularVelocity := Advance(angularVelocity, a, dt) * Damping;

      turbForce := Zero;
      angularDelta := angularVelocity * dt;
    }
  }
}
