/**
 * The application object: the game flags, the altitude reading, the recorded
 * burn, the score and the Lander it owns.  Its methods are the steps of
 * `update` and the game-state operations around it; each one changes the
 * fields exactly as the matching function of module Game says, so every
 * property proved there holds of the application.
 */
module Application {
  import opened Vectors
  import opened Dynamics
  import opened Collision
  import opened LanderModel
  import opened Game

  class App {
    const lander: Lander
    /** The landing-area centres, in the order the landing check visits them. */
    const landingAreas: seq<Vec3> := Pads

    var bAltitude: bool
    var bCollide: bool
    var clipped: bool
    var bCrash: bool
    var bLanding: bool
    var bFuelOut: bool
    var bStartGame: bool
    var bEndScreen: bool

    var altitude: real
    var startThrust: real
    var finalScore: real

    /** The game flags as a value. */
    function Flags(): Game.Flags
      reads this
    {
      Game.Flags(bAltitude, bCollide, clipped, bCrash, bLanding, bFuelOut, bStartGame, bEndScreen)
    }

    /** Everything a tick reads or writes, as a value. */
    function World(): Game.World
      reads this, lander
    {
      Game.World(lander.Body(), lander.Intents(), lander.fuelTimeLeft, Flags(),
                 altitude, startThrust, finalScore,
                 Craft(Box(lander.sceneMin, lander.sceneMax), lander.gravity))
    }

    /**
     * Setup: a new Lander for a model with the given local box, placed at the
     * start position with its initial rotation; every flag down, the
     * altitude at its sentinel, no burn recorded and no score.
     */
    constructor (sceneMin: Vec3, sceneMax: Vec3)
      ensures World() == InitialWorld(Box(sceneMin, sceneMax))
      ensures fresh(lander)
    {
      bAltitude, bCollide, clipped, bCrash := false, false, false, false;
      bLanding, bFuelOut, bStartGame, bEndScreen := false, false, false, false;
      altitude := NoAltitude;
      startThrust := 0.0;
      finalScore := 0.0;
      lander := new Lander(sceneMin, sceneMax);
      new;
      lander.SetLanderPosition(37.0, 30.0, 57.0);
      lander.SetLanderRotation(lander.rotation);
      lander.turbForce := Zero;
    }

    /**
     * The downward ray from the lander: `bAltitude` records whether it hits
     * the terrain, and the height of the hit point is returned.
     */
    method RayAltitudeSensor(groundBelow: Vec3 -> Option<real>) returns (hit: Option<real>)
      modifies this`bAltitude
      ensures hit == groundBelow(lander.position)
      ensures bAltitude == hit.Some?
    {
      hit := groundBelow(lander.position);
      bAltitude := hit.Some?;
    }

    /** The collision check: the model's box, moved to the lander's position, against the terrain. */
    method CheckCollide(t: TickInput)
      modifies this`bCollide
      ensures World() == CollideChecked(old(World()), t)
    {
      var min := Add(lander.sceneMin, lander.position);
      var max := Add(lander.sceneMax, lander.position);
      bCollide := t.overlaps(Box(min, max));
    }

    /**
     * The collision response with its latch: on the first tick of a contact
     * the crash test, the bounce and the landing check run; `clipped` then
     * records the contact until a tick without it.
     */
    method ApplyCollide()
      modifies this`clipped, this`bCrash, this`bLanding, this`finalScore
      modifies lander`velocity, lander`acceleration
      ensures World() == ApplyCollided(old(World()))
    {
      if !bCollide {
        clipped := false;
      }
      if bCollide {
        if !clipped {
          FirstContact();
        }
        clipped := true;
      }
    }

    /**
     * The first tick of a contact: a crash if the lander was too fast, then
     * the bounce and the landing check.
     */
    method FirstContact()
      modifies this`bCrash, this`bLanding, this`finalScore, lander`velocity, lander`acceleration
      ensures World() == LandingChecked(Bounced(CrashChecked(old(World()))))
    {
      CheckCrash();
      Bounce();
      CheckLanding();
    }

    /** The crash test on the velocity the lander hit the terrain with. */
    method CheckCrash()
      modifies this`bCrash
      ensures World() == CrashChecked(old(World()))
    {
      var v := lander.velocity;
      if Abs(v.x) > CrashSpeed || Abs(v.y) > CrashSpeed || Abs(v.z) > CrashSpeed {
        bCrash := true;
      }
    }

    /** The bounce: velocity reversed and halved, pushed sideways if needed; acceleration reversed and multiplied by 6. */
    method Bounce()
      modifies lander`velocity, lander`acceleration
      ensures World() == Bounced(old(World()))
    {
      lander.velocity := Scale(lander.velocity, BounceDamping);
      lander.acceleration := Scale(lander.acceleration, BounceKick);
      if lander.velocity.x <= 0.0 {
        lander.velocity := lander.velocity.(x := AntiClipSpeed);
      }
    }

    /**
     * The landing check: every landing area in reach, in order, overwrites
     * the score with its award and sets the landing flag, so the last one
     * in reach decides (LastMatchWins); with none in reach nothing changes
     * (NoPadInReach).
     */
    method CheckLanding()
      modifies this`finalScore, this`bLanding
      ensures World() == LandingChecked(old(World()))
    {
      ghost var prior := Verdict(finalScore, bLanding);
      var position := lander.position;
      for i := 0 to 3
        invariant Verdict(finalScore, bLanding) == Scan(position, i, prior)
      {
        if Dist2(position, landingAreas[i]) <= LandingAreaRadius * LandingAreaRadius {
          if Dist2(position, landingAreas[i]) <= (LandingAreaRadius - LanderHalfLength) * (LandingAreaRadius - LanderHalfLength) {
            finalScore := Scores[i];
          } else {
            finalScore := Scores[i] / 2.0;
          }
          bLanding := true;
        }
      }
    }

    /**
     * The thrust key.  With fuel left it records one frame's burn and starts
     * thrust; with an empty tank it stops thrust, empties the tank and
     * raises the fuel-out flag.
     */
    method SampleThrust(t: TickInput)
      requires t.keys.space && lander.fuelTimeLeft > 0.0 ==> t.frameRate != 0.0
      modifies this`startThrust, this`bFuelOut, lander`thrustUp, lander`fuelTimeLeft
      ensures World() == ThrustSampled(old(World()), t)
    {
      if t.keys.space {
        if lander.fuelTimeLeft > 0.0 {
          StartThrust(t);
        } else {
          RefuseThrust(t);
        }
      }
    }

    /** Thrust with fuel left: one frame's burn is recorded and thrust starts. */
    method StartThrust(t: TickInput)
      requires t.keys.space && lander.fuelTimeLeft > 0.0 && t.frameRate != 0.0
      modifies this`startThrust, lander`thrustUp
      ensures World() == ThrustSampled(old(World()), t)
    {
      startThrust := ThrustTime(t.frameRate);
      lander.thrustUp := true;
    }

    /** Thrust with an empty tank: thrust stops, the tank reads exactly 0 and the fuel-out flag rises. */
    method RefuseThrust(t: TickInput)
      requires t.keys.space && lander.fuelTimeLeft <= 0.0
      modifies this`bFuelOut, lander`thrustUp, lander`fuelTimeLeft
      ensures World() == ThrustSampled(old(World()), t)
    {
      lander.thrustUp := false;
      lander.fuelTimeLeft := 0.0;
      bFuelOut := true;
    }

    /** The other keys: each held key sets its intent on the lander, and nothing else changes. */
    method HoldKeys(t: TickInput)
      modifies lander`moveDown, lander`moveForward, lander`moveBackward, lander`moveLeft,
               lander`moveRight, lander`rotateLeft, lander`rotateRight
      ensures World() == KeysHeld(old(World()), t)
    {
      SetIntents(t.keys);
    }

    /** Each held key sets its intent; no intent is cleared. */
    method SetIntents(keys: Keys)
      modifies lander`moveDown, lander`moveForward, lander`moveBackward, lander`moveLeft,
               lander`moveRight, lander`rotateLeft, lander`rotateRight
      ensures lander.Intents() == HeldIntents(old(lander.Intents()), keys)
    {
      HoldDescendKey(keys);
      HoldArrowKeys(keys);
      HoldTurnKeys(keys);
    }

    /** d or D sets the descend intent. */
    method HoldDescendKey(keys: Keys)
      modifies lander`moveDown
      ensures lander.moveDown == (old(lander.moveDown) || keys.descend)
    {
      if keys.descend { lander.moveDown := true; }
    }

    /** The arrow keys set the forward, backward, left and right intents. */
    method HoldArrowKeys(keys: Keys)
      modifies lander`moveForward, lander`moveBackward, lander`moveLeft, lander`moveRight
      ensures lander.moveForward == (old(lander.moveForward) || keys.up)
      ensures lander.moveBackward == (old(lander.moveBackward) || keys.down)
      ensures lander.moveLeft == (old(lander.moveLeft) || keys.left)
      ensures lander.moveRight == (old(lander.moveRight) || keys.right)
    {
      if keys.up { lander.moveForward := true; }
      if keys.down { lander.moveBackward := true; }
      if keys.left { lander.moveLeft := true; }
      if keys.right { lander.moveRight := true; }
    }

    /** z or Z sets the rotate-left intent, x or X the rotate-right intent. */
    method HoldTurnKeys(keys: Keys)
      modifies lander`rotateLeft, lander`rotateRight
      ensures lander.rotateLeft == (old(lander.rotateLeft) || keys.turnLeft)
      ensures lander.rotateRight == (old(lander.rotateRight) || keys.turnRight)
    {
      if keys.turnLeft { lander.rotateLeft := true; }
      if keys.turnRight { lander.rotateRight := true; }
    }

    /** Gravity replaces the stored acceleration; the turbulence increment accumulates. */
    method ResetForces(t: TickInput)
      modifies lander`acceleration, lander`turbForce
      ensures World() == ForcesReset(old(World()), t)
    {
      lander.acceleration := Vec3(0.0, lander.gravity, 0.0);
      lander.turbForce := Add(lander.turbForce, t.turbulence);
    }

    /** The altitude sensor, and the altitude above the hit point when the ray hits. */
    method SenseAltitude(t: TickInput)
      modifies this`bAltitude, this`altitude
      ensures World() == AltitudeSensed(old(World()), t)
    {
      var hit := RayAltitudeSensor(t.groundBelow);
      if bAltitude {
        altitude := lander.position.y - hit.value;
      }
    }

    /**
     * The steps of a frame before the collision response: thrust key, other
     * keys, forces, altitude and the collision check.
     */
    method Sense(t: TickInput)
      requires t.keys.space && lander.fuelTimeLeft > 0.0 ==> t.frameRate != 0.0
      modifies this`startThrust, this`bFuelOut, this`bAltitude, this`altitude, this`bCollide, lander
      ensures World() == Sensed(old(World()), t)
    {
      SampleThrust(t);
      HoldKeys(t);
      ResetForces(t);
      SenseAltitude(t);
      CheckCollide(t);
    }

    /** Integration, unless the mouse drags the lander. */
    method Move(t: TickInput)
      requires t.heading.OnUnitCircle()
      modifies lander`position, lander`rotationAngle, lander`velocity, lander`angularVelocity, lander`turbForce
      ensures World() == Moved(old(World()), t)
    {
      if !t.inDrag {
        var angularChange := lander.Integrate(t.frameRate, t.heading);
      }
    }

    /** While thrust is on, the recorded frame time is burnt from the tank. */
    method BurnFuel()
      modifies lander`fuelTimeLeft
      ensures World() == FuelBurned(old(World()))
    {
      if lander.thrustUp {
        lander.fuelTimeLeft := lander.fuelTimeLeft - startThrust;
      }
    }

    /** The simulation steps of a frame: sensing, collision response, integration unless dragged, fuel. */
    method Simulate(t: TickInput)
      requires t.heading.OnUnitCircle()
      requires t.keys.space && lander.fuelTimeLeft > 0.0 ==> t.frameRate != 0.0
      modifies this`startThrust, this`bFuelOut, this`bAltitude, this`altitude, this`bCollide
      modifies this`clipped, this`bCrash, this`bLanding, this`finalScore, lander
      ensures World() == Simulated(old(World()), t)
    {
      Sense(t);
      ApplyCollide();
      Move(t);
      BurnFuel();
    }

    /** A crash, touching ground with no fuel, or a landing stops play and shows the end screen. */
    method CheckGameOver()
      modifies this`bStartGame, this`bEndScreen
      ensures World() == EndChecked(old(World()))
    {
      if bCrash || (bCollide && bFuelOut) || bLanding {
        bStartGame := false;
        bEndScreen := true;
      }
    }

    /** One frame: the simulation steps during play, then in every frame the game-over test. */
    method Update(t: TickInput)
      requires t.heading.OnUnitCircle() && TickDefined(World(), t)
      modifies this, lander
      ensures World() == Updated(old(World()), t)
    {
      if bStartGame {
        Simulate(t);
      }
      CheckGameOver();
    }

    /**
     * Reset for a new game: the lander back at the start position at rest
     * with a full tank, and every game flag down except the altitude hit.
     */
    method Reset()
      modifies this, lander
      ensures World() == ResetWorld(old(World()))
    {
      StopGame();
      PutLanderAtStart();
      ClearOutcome();
    }

    /** Leaves play and the end screen. */
    method StopGame()
      modifies this`bEndScreen, this`bStartGame
      ensures Flags() == old(Flags()).(startGame := false, endScreen := false)
    {
      bEndScreen := false;
      bStartGame := false;
    }

    /** The lander at the start position, unrotated, at rest, with a full tank. */
    method PutLanderAtStart()
      modifies lander`position, lander`rotationAngle, lander`velocity, lander`acceleration,
               lander`angularVelocity, lander`angularAcceleration, lander`fuelTimeLeft
      ensures lander.Body() == BodyState(StartPosition, 0.0, Zero, Zero, 0.0, 0.0, old(lander.turbForce))
      ensures lander.fuelTimeLeft == InitialFuel
    {
      lander.SetLanderPosition(37.0, 30.0, 57.0);
      lander.SetLanderRotation(0.0);
      lander.velocity := Zero;
      lander.acceleration := Zero;
      lander.angularVelocity := 0.0;
      lander.angularAcceleration := 0.0;
      lander.fuelTimeLeft := InitialFuel;
    }

    /** Clears the contact, crash, landing and fuel-out flags. */
    method ClearOutcome()
      modifies this`bCollide, this`clipped, this`bCrash, this`bLanding, this`bFuelOut
      ensures Flags() == old(Flags()).(collide := false, clipped := false, crash := false,
                                       landing := false, fuelOut := false)
    {
      bCollide := false;
      clipped := false;
      bCrash := false;
      bLanding := false;
      bFuelOut := false;
    }

    /** Play starts; nothing else changes. */
    method GameStart()
      modifies this`bStartGame
      ensures World() == Started(old(World()))
    {
      bStartGame := true;
    }

    /**
     * The score decision of the end screen: a crash, or touching ground with
     * an empty tank and no landing, zeroes the score; a landing keeps it.
     */
    method EndGameMsg() returns (ending: Ending)
      modifies this`finalScore
      ensures ending == EndingOf(Flags())
      ensures finalScore == ScoreAtEnd(Flags(), old(finalScore))
    {
      if bCrash {
        finalScore := 0.0;
        ending := Crashed;
      } else if bCollide && bFuelOut && !bLanding {
        finalScore := 0.0;
        ending := RanOutOfFuel;
      } else if bLanding {
        ending := Landed;
      } else {
        ending := Undecided;
      }
    }
  }
}
