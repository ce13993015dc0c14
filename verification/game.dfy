/**
 * One simulation tick of the game as a function on a value snapshot of the
 * application: input sampling, force reset, altitude, collision check,
 * collision response, integration, fuel, and the game-over test, in that
 * order.  The application class in app.dfy performs the same steps on its
 * fields and is proved to agree with `Updated`.
 */
module Game {
  import opened Vectors
  import opened Dynamics
  import opened Collision

  /** The game flags of the application. */
  datatype Flags = Flags(
    altitudeHit: bool, collide: bool, clipped: bool, crash: bool,
    landing: bool, fuelOut: bool, startGame: bool, endScreen: bool)

  const InitialFlags: Flags := Flags(false, false, false, false, false, false, false, false)

  /** Altitude before any ray has hit the terrain. */
  const NoAltitude: real := -1.0
  /** Where setup and reset place the lander. */
  const StartPosition: Vec3 := Vec3(37.0, 30.0, 57.0)

  /**
   * The keys held during a tick: space (thrust), d or D (descend), the four
   * arrows, z or Z (rotate left) and x or X (rotate right).
   */
  datatype Keys = Keys(
    space: bool, descend: bool, up: bool, down: bool,
    left: bool, right: bool, turnLeft: bool, turnRight: bool)

  /**
   * What one tick reads from outside the model: the frame rate, the held
   * keys, the random turbulence increment, the heading of the lander's
   * current rotation, whether the mouse is dragging the lander, and the two
   * terrain queries.  `groundBelow` answers a downward ray from a point: on a
   * hit, the height the altitude is measured from, which is the y of the
   * first vertex of the terrain cell the ray reached (not of the hit point
   * itself).  `overlaps` says whether a box overlaps the terrain.
   */
  datatype TickInput = TickInput(
    frameRate: real, keys: Keys, turbulence: Vec3, heading: Heading, inDrag: bool,
    groundBelow: Vec3 -> Option<real>, overlaps: Box -> bool)

  /**
   * What a tick reads from the lander but never writes: the model's bounding
   * box relative to its position, and the lander's gravity member.
   */
  datatype Craft = Craft(extent: Box, gravity: real)

  /** A snapshot of everything a tick reads or writes. */
  datatype World = World(
    body: BodyState, intents: Intents, fuel: real, flags: Flags,
    altitude: real, startThrust: real, finalScore: real, craft: Craft)

  /**
   * The state right after setup, for a lander model with the given local box;
   * gravity has its default value.
   */
  function InitialWorld(extent: Box): (w: World)
    ensures AtRest(w.body) && w.body.position == StartPosition && w.body.rotation == 0.0
    ensures w.intents == NoIntents && w.fuel == InitialFuel
    ensures w.flags == InitialFlags && w.altitude == NoAltitude
    ensures w.finalScore == 0.0 && w.startThrust == 0.0
    ensures w.craft == Craft(extent, Gravity)
  {
    World(BodyState(StartPosition, 0.0, Zero, Zero, 0.0, 0.0, Zero), NoIntents, InitialFuel,
          InitialFlags, NoAltitude, 0.0, 0.0, Craft(extent, Gravity))
  }

  /**
   * The burn recorded when thrust starts: the duration of one frame, the one
   * division a tick performs without a guard.
   */
  function ThrustTime(frameRate: real): (r: real)
    requires frameRate != 0.0
    ensures r * frameRate == 1.0
    ensures frameRate > 0.0 ==> r > 0.0
  {
    1.0 / frameRate
  }

  /** A tick is defined unless it starts thrusting at frame rate 0. */
  predicate TickDefined(w: World, t: TickInput) {
    w.flags.startGame && t.keys.space && w.fuel > 0.0 ==> t.frameRate != 0.0
  }

  // ---------------------------------------------------------------------
  // The stages of a tick.  Each stage states what it changes and that
  // every other part of the snapshot is left as it was; these contracts
  // read much like the stages' bodies.  What a whole tick guarantees is
  // stated by the Tick lemmas and the run lemmas further down.

  /**
   * The thrust key.  Held with fuel left, it starts thrust and records one
   * frame's burn; held with an empty tank, it stops thrust, sets the tank to
   * exactly 0 and raises the fuel-out flag.
   */
  function ThrustSampled(w: World, t: TickInput): (r: World)
    requires t.keys.space && w.fuel > 0.0 ==> t.frameRate != 0.0
    ensures r.body == w.body && r.altitude == w.altitude
    ensures r.finalScore == w.finalScore && r.craft == w.craft
    ensures !t.keys.space ==> r == w
    ensures t.keys.space && w.fuel > 0.0 ==>
              && r.intents == w.intents.(thrustUp := true)
              && r.startThrust == ThrustTime(t.frameRate)
              && r.fuel == w.fuel && r.flags == w.flags
    ensures t.keys.space && w.fuel <= 0.0 ==>
              && r.intents == w.intents.(thrustUp := false)
              && r.startThrust == w.startThrust
              && r.fuel == 0.0 && r.flags == w.flags.(fuelOut := true)
  {
    if !t.keys.space then w
    else if w.fuel > 0.0 then
      w.(startThrust := ThrustTime(t.frameRate), intents := w.intents.(thrustUp := true))
    else
      w.(intents := w.intents.(thrustUp := false), fuel := 0.0, flags := w.flags.(fuelOut := true))
  }

  /** The other keys: each held key sets its intent, and no intent is cleared. */
  function HeldIntents(i: Intents, keys: Keys): (r: Intents)
    ensures r.thrustUp == i.thrustUp
    ensures r.moveDown == (i.moveDown || keys.descend)
    ensures r.moveForward == (i.moveForward || keys.up)
    ensures r.moveBackward == (i.moveBackward || keys.down)
    ensures r.moveLeft == (i.moveLeft || keys.left)
    ensures r.moveRight == (i.moveRight || keys.right)
    ensures r.rotateLeft == (i.rotateLeft || keys.turnLeft)
    ensures r.rotateRight == (i.rotateRight || keys.turnRight)
  {
    i.(moveDown := i.moveDown || keys.descend,
       moveForward := i.moveForward || keys.up,
       moveBackward := i.moveBackward || keys.down,
       moveLeft := i.moveLeft || keys.left,
       moveRight := i.moveRight || keys.right,
       rotateLeft := i.rotateLeft || keys.turnLeft,
       rotateRight := i.rotateRight || keys.turnRight)
  }

  function KeysHeld(w: World, t: TickInput): (r: World)
    ensures r.intents == HeldIntents(w.intents, t.keys)
    ensures r.body == w.body && r.fuel == w.fuel && r.flags == w.flags
    ensures r.altitude == w.altitude && r.startThrust == w.startThrust
    ensures r.finalScore == w.finalScore && r.craft == w.craft
  {
    w.(intents := HeldIntents(w.intents, t.keys))
  }

  /** The lander's gravity replaces the stored acceleration; the turbulence increment accumulates. */
  function ForcesReset(w: World, t: TickInput): (r: World)
    ensures r.body.acceleration == Vec3(0.0, w.craft.gravity, 0.0)
    ensures Sub(r.body.turbForce, w.body.turbForce) == t.turbulence
    ensures r.body.position == w.body.position && r.body.rotation == w.body.rotation
    ensures r.body.velocity == w.body.velocity && r.body.angularVelocity == w.body.angularVelocity
    ensures r.body.angularAcceleration == w.body.angularAcceleration
    ensures r.intents == w.intents && r.fuel == w.fuel && r.flags == w.flags
    ensures r.altitude == w.altitude && r.startThrust == w.startThrust
    ensures r.finalScore == w.finalScore && r.craft == w.craft
  {
    w.(body := w.body.(acceleration := Vec3(0.0, w.craft.gravity, 0.0),
                       turbForce := Add(w.body.turbForce, t.turbulence)))
  }

  /**
   * The altitude sensor: a downward ray from the lander.  On a hit the
   * altitude becomes the lander's height above the point `groundBelow`
   * reports; on a miss it keeps its previous value.
   */
  function AltitudeSensed(w: World, t: TickInput): (r: World)
    ensures r.flags == w.flags.(altitudeHit := t.groundBelow(w.body.position).Some?)
    ensures t.groundBelow(w.body.position).None? ==> r.altitude == w.altitude
    ensures t.groundBelow(w.body.position).Some? ==>
              r.altitude + t.groundBelow(w.body.position).value == w.body.position.y
    ensures r.body == w.body && r.intents == w.intents && r.fuel == w.fuel
    ensures r.startThrust == w.startThrust && r.finalScore == w.finalScore && r.craft == w.craft
  {
    match t.groundBelow(w.body.position)
    case None => w.(flags := w.flags.(altitudeHit := false))
    case Some(groundY) =>
      w.(flags := w.flags.(altitudeHit := true), altitude := w.body.position.y - groundY)
  }

  /** The lander's box in world space. */
  function Bounds(w: World): Box {
    WorldBounds(w.craft.extent.min, w.craft.extent.max, w.body.position)
  }

  /** The collision check: the world-space bounding box against the terrain. */
  function CollideChecked(w: World, t: TickInput): (r: World)
    ensures r.flags == w.flags.(collide := t.overlaps(Bounds(w)))
    ensures r.body == w.body && r.intents == w.intents && r.fuel == w.fuel
    ensures r.altitude == w.altitude && r.startThrust == w.startThrust
    ensures r.finalScore == w.finalScore && r.craft == w.craft
  {
    w.(flags := w.flags.(collide := t.overlaps(Bounds(w))))
  }

  /** The landing verdict the snapshot holds. */
  function VerdictOf(w: World): Verdict {
    Verdict(w.finalScore, w.flags.landing)
  }

  /** The crash test: a contact faster than the crash speed is a crash. */
  function CrashChecked(w: World): (r: World)
    ensures r.flags == w.flags.(crash := w.flags.crash || TooFast(w.body.velocity))
    ensures r.body == w.body && r.intents == w.intents && r.fuel == w.fuel
    ensures r.altitude == w.altitude && r.startThrust == w.startThrust
    ensures r.finalScore == w.finalScore && r.craft == w.craft
  {
    w.(flags := w.flags.(crash := w.flags.crash || TooFast(w.body.velocity)))
  }

  /** The bounce: only velocity and the stored acceleration change. */
  function Bounced(w: World): (r: World)
    ensures r.body == w.body.(velocity := BouncedVelocity(w.body.velocity),
                              acceleration := BouncedAcceleration(w.body.acceleration))
    ensures r.intents == w.intents && r.fuel == w.fuel && r.flags == w.flags
    ensures r.altitude == w.altitude && r.startThrust == w.startThrust
    ensures r.finalScore == w.finalScore && r.craft == w.craft
  {
    w.(body := w.body.(velocity := BouncedVelocity(w.body.velocity),
                       acceleration := BouncedAcceleration(w.body.acceleration)))
  }

  /** The landing check at the lander's position: the verdict becomes the scan's. */
  function LandingChecked(w: World): (r: World)
    ensures VerdictOf(r) == Scan(w.body.position, |Pads|, VerdictOf(w))
    ensures r.flags == w.flags.(landing := r.flags.landing)
    ensures r.body == w.body && r.intents == w.intents && r.fuel == w.fuel
    ensures r.altitude == w.altitude && r.startThrust == w.startThrust && r.craft == w.craft
  {
    var v := Scan(w.body.position, |Pads|, VerdictOf(w));
    w.(flags := w.flags.(landing := v.landing), finalScore := v.finalScore)
  }

  /**
   * The collision response.  Without contact the latch re-arms and nothing
   * else changes.  On the first tick of a contact the crash test runs on the
   * velocity as it was, the lander bounces and the landing check runs; on
   * later ticks of the same contact nothing happens.  `clipped` ends equal
   * to the contact flag.
   */
  function ApplyCollided(w: World): (r: World)
    ensures r.flags.clipped == w.flags.collide
    ensures !LatchFires(w.flags.clipped, w.flags.collide) ==>
              && r.body == w.body && r.finalScore == w.finalScore
              && r.flags == w.flags.(clipped := w.flags.collide)
    ensures LatchFires(w.flags.clipped, w.flags.collide) ==>
              && r.flags == w.flags.(clipped := true, crash := r.flags.crash, landing := r.flags.landing)
              && r.flags.crash == (w.flags.crash || TooFast(w.body.velocity))
              && r.body.velocity == BouncedVelocity(w.body.velocity)
              && r.body.acceleration == BouncedAcceleration(w.body.acceleration)
              && VerdictOf(r) == Scan(w.body.position, |Pads|, VerdictOf(w))
    ensures r.body.position == w.body.position && r.body.rotation == w.body.rotation
    ensures r.body.angularVelocity == w.body.angularVelocity
    ensures r.body.angularAcceleration == w.body.angularAcceleration
    ensures r.body.turbForce == w.body.turbForce
    ensures r.intents == w.intents && r.fuel == w.fuel && r.altitude == w.altitude
    ensures r.startThrust == w.startThrust && r.craft == w.craft
  {
    if !w.flags.collide then w.(flags := w.flags.(clipped := false))
    else if w.flags.clipped then w
    else
      var c := LandingChecked(Bounced(CrashChecked(w)));
      c.(flags := c.flags.(clipped := true))
  }

  /** Integration, skipped while the mouse drags the lander. */
  function Moved(w: World, t: TickInput): (r: World)
    ensures t.inDrag ==> r.body == w.body
    ensures !t.inDrag ==> r.body == Integrated(w.body, w.intents, t.heading, t.frameRate)
    ensures r.intents == w.intents && r.fuel == w.fuel && r.flags == w.flags
    ensures r.altitude == w.altitude && r.startThrust == w.startThrust
    ensures r.finalScore == w.finalScore && r.craft == w.craft
  {
    if t.inDrag then w else w.(body := Integrated(w.body, w.intents, t.heading, t.frameRate))
  }

  /** While thrust is on, each tick burns the recorded frame time of fuel. */
  function FuelBurned(w: World): (r: World)
    ensures w.intents.thrustUp ==> r.fuel + w.startThrust == w.fuel
    ensures !w.intents.thrustUp ==> r.fuel == w.fuel
    ensures r.body == w.body && r.intents == w.intents && r.flags == w.flags
    ensures r.altitude == w.altitude && r.startThrust == w.startThrust
    ensures r.finalScore == w.finalScore && r.craft == w.craft
  {
    if w.intents.thrustUp then w.(fuel := w.fuel - w.startThrust) else w
  }

  /** The game ends on a crash, on touching ground with no fuel, or on a landing. */
  predicate GameOver(f: Flags) {
    f.crash || (f.collide && f.fuelOut) || f.landing
  }

  /** When the game is over, play stops and the end screen shows. */
  function EndChecked(w: World): (r: World)
    ensures GameOver(w.flags) ==> r.flags == w.flags.(startGame := false, endScreen := true)
    ensures !GameOver(w.flags) ==> r.flags == w.flags
    ensures r.body == w.body && r.intents == w.intents && r.fuel == w.fuel
    ensures r.altitude == w.altitude && r.startThrust == w.startThrust
    ensures r.finalScore == w.finalScore && r.craft == w.craft
  {
    if GameOver(w.flags) then w.(flags := w.flags.(startGame := false, endScreen := true)) else w
  }

  /**
   * The steps of a tick before the collision response: keys, forces,
   * altitude and the collision check.  Velocity and position are not yet
   * touched, and the crash, landing and latch flags are as they were.
   */
  function Sensed(w: World, t: TickInput): (r: World)
    requires t.keys.space && w.fuel > 0.0 ==> t.frameRate != 0.0
    ensures r.body.position == w.body.position && r.body.velocity == w.body.velocity
    ensures r.body.acceleration == Vec3(0.0, w.craft.gravity, 0.0)
    ensures r.flags.collide == t.overlaps(Bounds(w))
    ensures r.flags.clipped == w.flags.clipped && r.flags.crash == w.flags.crash
    ensures r.flags.landing == w.flags.landing && r.finalScore == w.finalScore
    ensures r.flags.startGame == w.flags.startGame && r.flags.endScreen == w.flags.endScreen
    ensures r.intents.thrustUp == ThrustSampled(w, t).intents.thrustUp
    ensures r.fuel == ThrustSampled(w, t).fuel && r.flags.fuelOut == ThrustSampled(w, t).flags.fuelOut
    ensures r.startThrust == ThrustSampled(w, t).startThrust
    ensures r.craft == w.craft
  {
    var sampled := KeysHeld(ThrustSampled(w, t), t);
    var forced := ForcesReset(sampled, t);
    var sensed := AltitudeSensed(forced, t);
    CollideChecked(sensed, t)
  }

  /** The simulation steps of a tick, which run only while a game is in progress. */
  function Simulated(w: World, t: TickInput): World
    requires t.keys.space && w.fuel > 0.0 ==> t.frameRate != 0.0
  {
    FuelBurned(Moved(ApplyCollided(Sensed(w, t)), t))
  }

  /** One whole tick. */
  function Updated(w: World, t: TickInput): World
    requires TickDefined(w, t)
  {
    EndChecked(if w.flags.startGame then Simulated(w, t) else w)
  }

  /** Every tick of the run is defined in the world it meets. */
  predicate RunDefined(w: World, ts: seq<TickInput>)
    decreases |ts|
  {
    |ts| == 0 || (TickDefined(w, ts[0]) && RunDefined(Updated(w, ts[0]), ts[1..]))
  }

  /** Ticks in order. */
  function Run(w: World, ts: seq<TickInput>): World
    requires RunDefined(w, ts)
    decreases |ts|
  {
    if |ts| == 0 then w else Run(Updated(w, ts[0]), ts[1..])
  }

  // ---------------------------------------------------------------------
  // Between games

  /**
   * Reset: back to the start position at rest with a full tank and every
   * game flag down, except the altitude-hit flag.  The turbulence
   * accumulator, the intents, the altitude, the recorded burn and the final
   * score are not reset.
   */
  function ResetWorld(w: World): World {
    World(
      BodyState(StartPosition, 0.0, Zero, Zero, 0.0, 0.0, w.body.turbForce),
      w.intents, InitialFuel, InitialFlags.(altitudeHit := w.flags.altitudeHit),
      w.altitude, w.startThrust, w.finalScore, w.craft)
  }

  /** A new game: play starts. */
  function Started(w: World): (r: World)
    ensures r.flags.startGame
    ensures r == w.(flags := w.flags.(startGame := true))
  {
    w.(flags := w.flags.(startGame := true))
  }

  /** How a finished game ended, as the end screen reports it. */
  datatype Ending = Crashed | RanOutOfFuel | Landed | Undecided

  function EndingOf(f: Flags): Ending {
    if f.crash then Crashed
    else if f.collide && f.fuelOut && !f.landing then RanOutOfFuel
    else if f.landing then Landed
    else Undecided
  }

  /** The score the end screen shows: zero unless the game ended in a landing. */
  function ScoreAtEnd(f: Flags, finalScore: real): (r: real)
    ensures r == (if EndingOf(f) == Landed then finalScore else 0.0) || EndingOf(f) == Undecided
    ensures EndingOf(f) == Undecided ==> r == finalScore
  {
    if f.crash then 0.0
    else if f.collide && f.fuelOut && !f.landing then 0.0
    else finalScore
  }

  // ---------------------------------------------------------------------
  // Properties

  /** The end screen names an ending exactly when the game-over condition holds. */
  lemma EndingIffGameOver(f: Flags)
    ensures EndingOf(f) != Undecided <==> GameOver(f)
  {
  }

  /** A crash forfeits the score, even when the lander also landed on a pad. */
  lemma CrashForfeitsScore(f: Flags, finalScore: real)
    requires f.crash
    ensures ScoreAtEnd(f, finalScore) == 0.0
    ensures EndingOf(f) == Crashed
  {
  }

  /** Reset leads back to the setup state, except in the fields it does not touch. */
  lemma ResetRestoresSetup(w: World)
    requires w.craft.gravity == Gravity
    ensures ResetWorld(w) == InitialWorld(w.craft.extent).(
              body := InitialWorld(w.craft.extent).body.(turbForce := w.body.turbForce),
              intents := w.intents, altitude := w.altitude, startThrust := w.startThrust,
              finalScore := w.finalScore,
              flags := InitialFlags.(altitudeHit := w.flags.altitudeHit))
    ensures !GameOver(ResetWorld(w).flags)
    ensures ResetWorld(ResetWorld(w)) == ResetWorld(w)
  {
  }

  /** Before a game starts (or after it ends) a tick only re-runs the game-over test. */
  lemma IdleTick(w: World, t: TickInput)
    requires !w.flags.startGame
    ensures Updated(w, t) == EndChecked(w)
    ensures Updated(w, t).body == w.body && Updated(w, t).fuel == w.fuel
  {
  }

  /** Thrust held with an empty tank is refused: thrust off, tank at 0, fuel-out flag up. */
  lemma EmptyTankRefusesThrust(w: World, t: TickInput)
    requires w.flags.startGame && t.keys.space && w.fuel <= 0.0
    ensures !Updated(w, t).intents.thrustUp
    ensures Updated(w, t).fuel == 0.0
    ensures Updated(w, t).flags.fuelOut
  {
    var m := Moved(ApplyCollided(Sensed(w, t)), t);
    assert !m.intents.thrustUp && m.fuel == 0.0 && m.flags.fuelOut;
  }

  /** Thrust held with fuel left burns one frame time, 1 / frame rate, in the same tick. */
  lemma ThrustBurnsFrameTime(w: World, t: TickInput)
    requires w.flags.startGame && t.keys.space && w.fuel > 0.0 && t.frameRate != 0.0
    ensures Updated(w, t).intents.thrustUp
    ensures Updated(w, t).startThrust == ThrustTime(t.frameRate)
    ensures Updated(w, t).fuel == w.fuel - ThrustTime(t.frameRate)
  {
    var m := Moved(ApplyCollided(Sensed(w, t)), t);
    assert m.intents.thrustUp && m.fuel == w.fuel;
    assert m.startThrust == ThrustTime(t.frameRate);
  }

  function Max(a: real, b: real): real {
    if a < b then b else a
  }

  /**
   * With a non-negative frame rate and a non-negative recorded burn, a tick
   * never adds fuel, except that an overdrawn tank is set back to exactly 0.
   * A frame rate of 0 is allowed on every tick that does not start thrust.
   */
  lemma FuelNeverRises(w: World, t: TickInput)
    requires w.startThrust >= 0.0 && t.frameRate >= 0.0 && TickDefined(w, t)
    ensures Updated(w, t).fuel <= Max(w.fuel, 0.0)
    ensures Updated(w, t).startThrust >= 0.0
  {
    if w.flags.startGame {
      var s := ThrustSampled(w, t);
      assert s.fuel <= Max(w.fuel, 0.0) && s.startThrust >= 0.0;
      var m := Moved(ApplyCollided(Sensed(w, t)), t);
      assert m.fuel == s.fuel && m.startThrust == s.startThrust;
    }
  }

  /** Over any run of ticks the tank never holds more than it started with (or 0). */
  lemma {:induction false} RunNeverRefuels(w: World, ts: seq<TickInput>)
    requires w.startThrust >= 0.0 && RunDefined(w, ts)
    requires forall k :: 0 <= k < |ts| ==> ts[k].frameRate >= 0.0
    ensures Run(w, ts).fuel <= Max(w.fuel, 0.0)
    ensures Run(w, ts).startThrust >= 0.0
    decreases |ts|
  {
    if |ts| > 0 {
      FuelNeverRises(w, ts[0]);
      RunNeverRefuels(Updated(w, ts[0]), ts[1..]);
    }
  }

  /** The latch at tick level: during play `clipped` ends equal to the overlap of the lander's box. */
  lemma TickLatch(w: World, t: TickInput)
    requires TickDefined(w, t) && w.flags.startGame
    ensures Updated(w, t).flags.clipped == t.overlaps(Bounds(w))
  {
  }

  /**
   * A bounce turns the freshly reset gravity around and makes it six times
   * as strong (BounceReversesGravity), and the integration step leaves it so.
   */
  lemma TickBounceKick(w: World, t: TickInput)
    requires TickDefined(w, t) && w.flags.startGame
    requires LatchFires(w.flags.clipped, t.overlaps(Bounds(w)))
    ensures Updated(w, t).body.acceleration == BouncedAcceleration(Vec3(0.0, w.craft.gravity, 0.0))
  {
  }

  /** On a tick without a bounce the stored acceleration is the lander's gravity. */
  lemma TickGravity(w: World, t: TickInput)
    requires TickDefined(w, t) && w.flags.startGame
    requires !LatchFires(w.flags.clipped, t.overlaps(Bounds(w)))
    ensures Updated(w, t).body.acceleration == Vec3(0.0, w.craft.gravity, 0.0)
  {
  }

  /**
   * The crash test at tick level: during play a crash is recorded exactly
   * when the latch fires and some component of the velocity the tick started
   * with is faster than the crash speed (or a crash was already recorded).
   */
  lemma TickCrash(w: World, t: TickInput)
    requires TickDefined(w, t) && w.flags.startGame
    ensures Updated(w, t).flags.crash
         == (w.flags.crash || (LatchFires(w.flags.clipped, t.overlaps(Bounds(w))) && TooFast(w.body.velocity)))
  {
  }

  /**
   * Landing at tick level: during play the landing check runs on the ticks
   * where the latch fires, at the position the tick started from.
   */
  lemma TickLanding(w: World, t: TickInput)
    requires TickDefined(w, t) && w.flags.startGame
    requires LatchFires(w.flags.clipped, t.overlaps(Bounds(w)))
    ensures VerdictOf(Updated(w, t)) == Scan(w.body.position, |Pads|, VerdictOf(w))
  {
  }

  /** On every other tick of play the score and the landing flag are kept. */
  lemma TickKeepsVerdict(w: World, t: TickInput)
    requires TickDefined(w, t) && w.flags.startGame
    requires !LatchFires(w.flags.clipped, t.overlaps(Bounds(w)))
    ensures VerdictOf(Updated(w, t)) == VerdictOf(w)
  {
  }

  /**
   * The game-over test at tick level: play stops and the end screen shows
   * exactly when the flags after the tick meet the game-over condition.
   */
  lemma TickEnds(w: World, t: TickInput)
    requires TickDefined(w, t)
    ensures Updated(w, t).flags.startGame == (w.flags.startGame && !GameOver(Updated(w, t).flags))
    ensures Updated(w, t).flags.endScreen == (w.flags.endScreen || GameOver(Updated(w, t).flags))
  {
  }

  // ---------------------------------------------------------------------
  // The debounce latch over a run of play

  /** A game is in progress at the start of every tick of the run. */
  predicate StaysInPlay(w: World, ts: seq<TickInput>)
    requires RunDefined(w, ts)
    decreases |ts|
  {
    |ts| == 0 || (w.flags.startGame && StaysInPlay(Updated(w, ts[0]), ts[1..]))
  }

  /** Whether the lander's box overlaps the terrain at the start of each tick of the run. */
  function Overlaps(w: World, ts: seq<TickInput>): (o: seq<bool>)
    requires RunDefined(w, ts)
    ensures |o| == |ts|
    decreases |ts|
  {
    if |ts| == 0 then []
    else [ts[0].overlaps(Bounds(w))] + Overlaps(Updated(w, ts[0]), ts[1..])
  }

  /** The number of ticks of the run on which the lander bounces. */
  function Bounces(w: World, ts: seq<TickInput>): (n: nat)
    requires RunDefined(w, ts)
    ensures n <= |ts|
    decreases |ts|
  {
    if |ts| == 0 then 0
    else
      var fires := w.flags.startGame && LatchFires(w.flags.clipped, ts[0].overlaps(Bounds(w)));
      (if fires then 1 else 0) + Bounces(Updated(w, ts[0]), ts[1..])
  }

  /**
   * While a game stays in progress, the ticks bounce exactly as the latch
   * count over their overlaps says, starting from the latch the run meets.
   */
  lemma {:induction false} BouncesAreFireCount(w: World, ts: seq<TickInput>)
    requires RunDefined(w, ts) && StaysInPlay(w, ts)
    ensures Bounces(w, ts) == FireCount(w.flags.clipped, Overlaps(w, ts))
    decreases |ts|
  {
    if |ts| > 0 {
      var next := Updated(w, ts[0]);
      TickLatch(w, ts[0]);
      BouncesAreFireCount(next, ts[1..]);
      var o := Overlaps(w, ts);
      assert o[0] == ts[0].overlaps(Bounds(w)) && o[1..] == Overlaps(next, ts[1..]);
    }
  }

  /**
   * A contact that lasts over consecutive ticks of play bounces the lander
   * once if the latch was armed when it began, and never if it was not.
   */
  lemma SustainedContactBouncesOnce(w: World, ts: seq<TickInput>)
    requires RunDefined(w, ts) && StaysInPlay(w, ts) && |ts| > 0
    requires forall k :: 0 <= k < |ts| ==> Overlaps(w, ts)[k]
    ensures Bounces(w, ts) == if w.flags.clipped then 0 else 1
  {
    BouncesAreFireCount(w, ts);
    SustainedOverlapFiresOnce(w.flags.clipped, Overlaps(w, ts));
  }

  /** Ticks of play on which the lander clears the terrain never bounce it. */
  lemma ClearRunNeverBounces(w: World, ts: seq<TickInput>)
    requires RunDefined(w, ts) && StaysInPlay(w, ts)
    requires forall k :: 0 <= k < |ts| ==> !Overlaps(w, ts)[k]
    ensures Bounces(w, ts) == 0
  {
    BouncesAreFireCount(w, ts);
    ClearTicksNeverFire(w.flags.clipped, Overlaps(w, ts));
  }
}
