/**
 * Terrain contact: the lander's world-space bounding box, the debounce latch
 * that lets a bounce happen once per contact episode, the bounce itself and
 * the landing-pad scoring.  Everything here is a pure value function; the
 * application class in app.dfy applies them to its fields.
 */
module Collision {
  import opened Vectors

  /** A contact is a crash when some velocity component exceeds this, in absolute value. */
  const CrashSpeed: real := 1.8
  /** Velocity after a bounce is the old velocity times this. */
  const BounceDamping: real := -0.5
  /** Acceleration after a bounce is the old acceleration times this. */
  const BounceKick: real := -6.0
  /** Sideways speed forced on a bounce whose x velocity would not be positive. */
  const AntiClipSpeed: real := 0.1

  const LandingAreaRadius: real := 2.5
  const LanderHalfLength: real := 1.0

  /** Centres of the three landing areas, in the order they are checked. */
  const Pads: seq<Vec3> := [
    Vec3(0.129794, 0.0, 17.3758),
    Vec3(2.80003, 0.0, -76.8603),
    Vec3(-43.1438, 0.0, 96.1508)]

  /** Full score of each landing area. */
  const Scores: seq<real> := [100.0, 200.0, 300.0]

  /**
   * The pad constants are consistent: one score per pad, increasing scores,
   * and a positive inner radius for a full-score landing.
   */
  lemma PadConstants()
    ensures |Pads| == |Scores| == 3
    ensures 0.0 < Scores[0] < Scores[1] < Scores[2]
    ensures 0.0 < LandingAreaRadius - LanderHalfLength < LandingAreaRadius
  {
  }

  // ---------------------------------------------------------------------
  // Bounding box

  /**
   * The world-space box of the lander: the model's local box translated by
   * its position.  Translation keeps the size and the box invariant.
   */
  function WorldBounds(sceneMin: Vec3, sceneMax: Vec3, position: Vec3): (r: Box)
    ensures Sub(r.min, sceneMin) == position && Sub(r.max, sceneMax) == position
    ensures Sub(r.max, r.min) == Sub(sceneMax, sceneMin)
    ensures WellFormed(Box(sceneMin, sceneMax)) ==> WellFormed(r)
  {
    Box(Add(sceneMin, position), Add(sceneMax, position))
  }

  // ---------------------------------------------------------------------
  // Debounce latch

  /**
   * The bounce runs on a tick when the lander overlaps the terrain and was
   * not already clipped.  After the tick, `clipped` equals the overlap.
   */
  predicate LatchFires(clipped: bool, overlap: bool) {
    overlap && !clipped
  }

  /**
   * Number of bounces over a sequence of ticks with the given overlaps,
   * starting from latch state `clipped`.
   */
  function FireCount(clipped: bool, overlaps: seq<bool>): (n: nat)
    ensures n <= |overlaps|
    decreases |overlaps|
  {
    if |overlaps| == 0 then 0
    else (if LatchFires(clipped, overlaps[0]) then 1 else 0) + FireCount(overlaps[0], overlaps[1..])
  }

  /**
   * Over any run of consecutive overlapping ticks the bounce fires exactly
   * once if the latch was armed on entry, and never if it was not.
   */
  lemma {:induction false} SustainedOverlapFiresOnce(clipped: bool, overlaps: seq<bool>)
    requires |overlaps| > 0
    requires forall k :: 0 <= k < |overlaps| ==> overlaps[k]
    ensures FireCount(clipped, overlaps) == if clipped then 0 else 1
    decreases |overlaps|
  {
    if |overlaps| > 1 {
      SustainedOverlapFiresOnce(true, overlaps[1..]);
    }
  }

  /** Ticks without overlap never bounce, whatever the latch state on entry. */
  lemma {:induction false} ClearTicksNeverFire(clipped: bool, overlaps: seq<bool>)
    requires forall k :: 0 <= k < |overlaps| ==> !overlaps[k]
    ensures FireCount(clipped, overlaps) == 0
    decreases |overlaps|
  {
    if |overlaps| > 0 {
      ClearTicksNeverFire(false, overlaps[1..]);
    }
  }

  /**
   * One tick without overlap re-arms the latch: what follows it bounces as
   * if the run had just begun, whatever came before.
   */
  lemma {:induction false} ClearTickRearms(clipped: bool, before: seq<bool>, after: seq<bool>)
    ensures FireCount(clipped, before + [false] + after)
         == FireCount(clipped, before) + FireCount(false, after)
    decreases |before|
  {
    var s := before + [false] + after;
    if |before| == 0 {
      assert s[1..] == after;
    } else {
      assert s[0] == before[0];
      assert s[1..] == before[1..] + [false] + after;
      ClearTickRearms(before[0], before[1..], after);
    }
  }

  // ---------------------------------------------------------------------
  // Bounce

  /** Some velocity component is strictly faster than the crash speed. */
  predicate TooFast(v: Vec3) {
    Abs(v.x) > CrashSpeed || Abs(v.y) > CrashSpeed || Abs(v.z) > CrashSpeed
  }

  /**
   * Velocity after a bounce: reversed and halved, and then pushed to a small
   * positive x speed when the reversed x speed is not positive.
   */
  function BouncedVelocity(v: Vec3): (r: Vec3)
    ensures r.x > 0.0
    ensures r.y == -v.y / 2.0 && r.z == -v.z / 2.0
    ensures v.x < 0.0 ==> r.x == -v.x / 2.0
    ensures v.x >= 0.0 ==> r.x == AntiClipSpeed
  {
    var reversed := Scale(v, BounceDamping);
    if reversed.x <= 0.0 then reversed.(x := AntiClipSpeed) else reversed
  }

  /** Acceleration after a bounce: reversed and six times as strong. */
  function BouncedAcceleration(a: Vec3): (r: Vec3)
    ensures r.x == -6.0 * a.x && r.y == -6.0 * a.y && r.z == -6.0 * a.z
    ensures a.y < 0.0 ==> r.y > 0.0
  {
    Scale(a, BounceKick)
  }

  /**
   * Bouncing off the terrain right after gravity was reset turns gravity
   * around: with the default gravity of -0.3 the stored acceleration becomes
   * an upward 1.8.
   */
  lemma BounceReversesGravity(g: real)
    ensures BouncedAcceleration(Vec3(0.0, g, 0.0)) == Vec3(0.0, -6.0 * g, 0.0)
    ensures g < 0.0 ==> BouncedAcceleration(Vec3(0.0, g, 0.0)).y > 0.0
    ensures g == -0.3 ==> BouncedAcceleration(Vec3(0.0, g, 0.0)) == Vec3(0.0, 1.8, 0.0)
  {
  }

  /**
   * A bounce takes away at least three quarters of the lander's kinetic
   * energy, apart from the small sideways push it may add: the squared speed
   * after it is at most a quarter of the squared speed before it plus the
   * square of that push.
   */
  lemma BounceDrainsEnergy(v: Vec3)
    ensures Norm2(BouncedVelocity(v)) <= Norm2(v) / 4.0 + AntiClipSpeed * AntiClipSpeed
  {
  }

  // ---------------------------------------------------------------------
  // Landing areas

  /** Squared horizontal distance between the lander and a pad centre. */
  function Dist2(position: Vec3, pad: Vec3): (d: real)
    ensures d >= 0.0
  {
    var dx := position.x - pad.x;
    var dz := position.z - pad.z;
    dx * dx + dz * dz
  }

  /** Within the landing radius of the pad. */
  predicate InLandingArea(position: Vec3, pad: Vec3) {
    Dist2(position, pad) <= LandingAreaRadius * LandingAreaRadius
  }

  /** Within the full-score radius of the pad. */
  predicate OnTarget(position: Vec3, pad: Vec3) {
    var inner := LandingAreaRadius - LanderHalfLength;
    Dist2(position, pad) <= inner * inner
  }

  /**
   * Comparing a distance with a non-negative radius is the same as comparing
   * their squares, so the squared tests agree with the Euclidean distance.
   */
  lemma SquaredComparison(distance: real, radius: real)
    requires distance >= 0.0 && radius >= 0.0
    ensures distance <= radius <==> distance * distance <= radius * radius
  {
    if distance > radius {
      var gap := distance - radius;
      assert distance * distance == radius * radius + gap * (distance + radius);
      assert gap * (distance + radius) > 0.0;
    } else {
      var gap := radius - distance;
      assert radius * radius == distance * distance + gap * (distance + radius);
      assert gap * (distance + radius) >= 0.0;
    }
  }

  /** The score for landing in area `k`: full on target, half otherwise. */
  function PadAward(k: nat, position: Vec3): (r: real)
    requires k < |Pads|
    ensures r == Scores[k] || r == Scores[k] / 2.0
    ensures r == Scores[k] <==> OnTarget(position, Pads[k])
    ensures 50.0 <= r <= 300.0
  {
    if OnTarget(position, Pads[k]) then Scores[k] else Scores[k] / 2.0
  }

  /** The landing flag and the final score, as landing checks leave them. */
  datatype Verdict = Verdict(finalScore: real, landing: bool)

  /**
   * The verdict after checking the first `n` landing areas in order,
   * starting from `prior`: each area the lander is in overwrites the score
   * and sets the landing flag.
   */
  function Scan(position: Vec3, n: nat, prior: Verdict): (r: Verdict)
    requires n <= |Pads|
    ensures prior.landing ==> r.landing
    ensures r.landing ==> prior.landing || exists k :: 0 <= k < n && InLandingArea(position, Pads[k])
    decreases n
  {
    if n == 0 then prior
    else
      if InLandingArea(position, Pads[n - 1]) then Verdict(PadAward(n - 1, position), true)
      else Scan(position, n - 1, prior)
  }

  /** With no area in reach, the verdict is left exactly as it was. */
  lemma {:induction false} NoPadInReach(position: Vec3, n: nat, prior: Verdict)
    requires n <= |Pads|
    requires forall k :: 0 <= k < n ==> !InLandingArea(position, Pads[k])
    ensures Scan(position, n, prior) == prior
  {
    if n > 0 {
      NoPadInReach(position, n - 1, prior);
    }
  }

  /**
   * The last area in reach decides: the verdict is its award and a landing,
   * whatever earlier areas matched and whatever the prior verdict was.
   */
  lemma LastMatchWins(position: Vec3, n: nat, prior: Verdict, j: nat)
    requires j < n <= |Pads|
    requires InLandingArea(position, Pads[j])
    requires forall k :: j < k < n ==> !InLandingArea(position, Pads[k])
    ensures Scan(position, n, prior) == Verdict(PadAward(j, position), true)
  {
    if n - 1 > j {
      LastMatchWins(position, n - 1, prior, j);
    }
  }

  /** (u + v)^2 is at most 2u^2 + 2v^2, since (u - v)^2 is not negative. */
  lemma SquareOfSum(u: real, v: real)
    ensures (u + v) * (u + v) <= 2.0 * (u * u) + 2.0 * (v * v)
  {
    assert (u - v) * (u - v) >= 0.0;
  }

  /** Two points both within the landing radius of a position are at most 5 apart. */
  lemma CloseToBoth(position: Vec3, a: Vec3, b: Vec3)
    requires InLandingArea(position, a) && InLandingArea(position, b)
    ensures Dist2(a, b) <= 25.0
  {
    SquareOfSum(a.x - position.x, position.x - b.x);
    SquareOfSum(a.z - position.z, position.z - b.z);
  }

  /** The landing areas are far apart: no position is in reach of two of them. */
  lemma AtMostOnePad(position: Vec3, j: nat, k: nat)
    requires j < k < |Pads|
    ensures !(InLandingArea(position, Pads[j]) && InLandingArea(position, Pads[k]))
  {
    assert Dist2(Pads[0], Pads[1]) > 25.0;
    assert Dist2(Pads[0], Pads[2]) > 25.0;
    assert Dist2(Pads[1], Pads[2]) > 25.0;
    if InLandingArea(position, Pads[j]) && InLandingArea(position, Pads[k]) {
      CloseToBoth(position, Pads[j], Pads[k]);
    }
  }
}
