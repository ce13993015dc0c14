# Moon lander: one simulation tick

This project models the per-frame simulation of a 3D moon-lander game. The
player steers a lander over a terrain mesh and tries to touch down on one of
three landing areas. The lander can thrust up, descend, move forward, back,
left or right relative to its heading, and turn about the vertical axis.
Thrust burns fuel. A contact that is too fast is a crash. A contact inside a
landing area scores 100, 200 or 300 points, or half of that when off centre.

The model follows the program's own structure.

- `Vectors` holds the 3-vector arithmetic and axis-aligned boxes.
- `Dynamics` holds the Lander's physical constants, the two heading vectors,
  the force sums and one semi-implicit Euler step (`Integrated`), all as pure
  functions.
- `LanderModel.Lander` is the Lander record as a class. Its fields are updated
  in place by `SetLanderPosition`, `SetLanderRotation` and `Integrate`.
  `Integrate` is proved equal to `Dynamics.Integrated` on the body's value.
- `Collision` holds the contact logic as pure functions and lemmas:
  - the world-space bounding box;
  - the `clipped` debounce latch, and a count of how often it fires over a
    run of ticks;
  - the crash test and the bounce;
  - the landing-area scan with its score tiers.
- `Game` describes a tick as a chain of stage functions on a value snapshot
  (`World`) of everything a tick reads or writes. The stages are thrust key,
  other keys, force reset, altitude, collision check, collision response,
  integration, fuel and game-over test. `Updated` composes them.
  The tick-level properties are lemmas about `Updated` and `Run`. Among
  them, `BouncesAreFireCount` shows that the bounces of a run of play are
  exactly the latch count `Collision.FireCount` over the run's overlaps.
- `Application.App` is the application object as a class. It owns the
  `Lander` and holds the game flags, altitude, recorded burn and score.
  Each method that performs a tick stage or a whole tick (`Sense`,
  `ApplyCollide`, `Move`, `Update`, `Reset` and the like) is proved to change
  its fields and the lander's exactly as the matching `Game` function says.
  The helpers they call (`RayAltitudeSensor`, `SetIntents`, the `Hold…Keys`
  methods, `StopGame`, `PutLanderAtStart`, `ClearOutcome`) and `EndGameMsg`
  state their effect field by field instead. `Update` is proved to compute
  `Updated`, so every lemma about `Updated` holds of the class.

What a tick reads from outside is a `TickInput`:

- the frame rate;
- the held keys;
- the random turbulence increment;
- the sine and cosine of the lander's heading;
- whether the mouse is dragging the lander;
- the two terrain queries. The first answers a downward ray from a point:
  on a hit it gives the height the altitude is measured from. In the code
  this is the y of the first vertex of the terrain cell the ray reached,
  not of the point where the ray meets the surface. The second says whether
  a box overlaps the terrain.

Floats are modelled as `real`. The landing test compares squared distances
with squared radii; `Collision.SquaredComparison` shows this agrees with the
square-root test in the code.

## Model

| member | source | states |
|---|---|---|
| Dynamics.ConstantsPointTheRightWay | src/ofApp.h:57-80 | damping is strictly between 0 and 1, gravity is negative, the initial fuel is positive, thrust points straight up, and thrust plus the descend force is zero |
| Dynamics.Header | src/ofApp.h:34-38 | the forward heading vector is horizontal |
| Dynamics.LeftRightHeader | src/ofApp.h:41-44 | the sideways heading vector is horizontal |
| Dynamics.HeadersOrthonormal | src/ofApp.h:34-44 | for a heading on the unit circle both heading vectors have length 1 and are perpendicular, so normalising them changes nothing |
| Dynamics.DirectionalForce | src/ofApp.cpp:37-52 | the directional push is horizontal |
| Dynamics.MovePriority | src/ofApp.cpp:37-52 | at most one directional force applies, chosen in the order forward > backward > left > right: +3 or -3 times the forward vector, +3 or -3 times the sideways vector, zero with no move intent |
| Dynamics.DirectionalMagnitude | src/ofApp.cpp:37-52 | the directional push has squared length 9 when some move intent is set and 0 otherwise |
| Dynamics.Acceleration | src/ofApp.cpp:26-54 | the vertical acceleration is the base plus turbulence plus thrust and descend terms; heading and directional intents never change it |
| Dynamics.ThrustAndDescendCancel | src/ofApp.cpp:29-34 | thrust and descend set together give the same acceleration as neither set |
| Dynamics.AngularAcceleration | src/ofApp.cpp:63-67 | rotate-left adds 12 and rotate-right subtracts 12; both set, or neither, leave the base unchanged |
| Dynamics.BalancedForcesVanish | src/ofApp.cpp:26-67 | balanced intents on a body with no stored force produce zero linear and angular acceleration |
| Dynamics.DeltaTime | src/ofApp.cpp:14-19 | the step is 1 when the frame rate is 0 and otherwise the reciprocal of the frame rate; it is positive for a non-negative frame rate |
| Dynamics.Integrated | src/ofApp.cpp:13-75 | position and rotation advance by the velocities held before the step; the stored accelerations are kept; turbulence is zero afterwards; the new vertical velocity is (v + a dt) times damping |
| LanderModel.Lander.constructor | src/ofApp.h:52-80 | a new Lander is at rest with no stored force, no intent, 120 fuel seconds, gravity -0.3 and initial rotation 0 |
| LanderModel.Lander.SetLanderPosition | src/ofApp.h:24-26 | the position becomes exactly the given point and no other field changes |
| LanderModel.Lander.SetLanderRotation | src/ofApp.h:29-31 | the rotation angle becomes exactly the given angle and no other field changes |
| LanderModel.Lander.Integrate | src/ofApp.cpp:13-75 | only position, rotation, velocity, angular velocity and turbulence change, exactly as `Integrated` says; intents, stored accelerations and fuel are untouched; the result is the new angular velocity times dt |
| Collision.PadConstants | src/ofApp.h:220-231 | three pads with three scores 0 < 100 < 200 < 300, and the inner radius 2.5 - 1 is positive and below the outer radius |
| Collision.WorldBounds | src/ofApp.cpp:532-536 | the world box is the local box translated by the position: same size, and well-formed whenever the local box is |
| Collision.LatchFires | src/ofApp.cpp:545-551 | definition, no contract of its own: the bounce runs when there is contact and the latch is not clipped. `FireCount`, `Game.TickLatch` and `Game.BouncesAreFireCount` are stated against it |
| Collision.FireCount | src/ofApp.cpp:545-576 | the latch fires at most once per tick. `Game.BouncesAreFireCount` shows that this count is the number of bounces in a run of play |
| Collision.SustainedOverlapFiresOnce | src/ofApp.cpp:545-576 | over any run of consecutive overlapping ticks the bounce fires exactly once if the latch was armed, and never if it was not |
| Collision.ClearTicksNeverFire | src/ofApp.cpp:545-548 | ticks without overlap never bounce |
| Collision.ClearTickRearms | src/ofApp.cpp:545-576 | one tick without overlap re-arms the latch: what follows counts bounces as if the run had just begun |
| Collision.TooFast | src/ofApp.cpp:554 | definition, no contract of its own: some velocity component exceeds 1.8 in absolute value. `Game.CrashChecked` and `Game.TickCrash` are stated against it |
| Collision.BouncedVelocity | src/ofApp.cpp:564-571 | after a bounce the velocity is reversed and halved in y and z; its x component is positive: 0.1 when the old x velocity was not negative, and -v.x/2 otherwise |
| Collision.BouncedAcceleration | src/ofApp.cpp:566 | the acceleration is reversed and multiplied by 6; a downward acceleration becomes upward |
| Collision.BounceReversesGravity | src/ofApp.cpp:566 | a bounce right after the gravity reset turns gravity g into -6g; with the default -0.3 that is an upward 1.8 |
| Collision.BounceDrainsEnergy | src/ofApp.cpp:564-571 | the squared speed after a bounce is at most a quarter of the squared speed before it plus 0.1 squared, the sideways push; a bounce never adds more than that push |
| Collision.Dist2 | src/ofApp.cpp:585-587 | the squared horizontal distance to a pad is not negative |
| Collision.SquaredComparison | src/ofApp.cpp:587-590 | for non-negative distance and radius, distance <= radius exactly when distance squared <= radius squared |
| Collision.PadAward | src/ofApp.cpp:590-605 | the award for pad k is its full score exactly when the lander is within the inner radius, and half the score otherwise; it lies between 50 and 300 |
| Collision.Scan | src/ofApp.cpp:582-609 | the landing scan never clears the landing flag, and sets it only when some checked pad is in reach |
| Collision.NoPadInReach | src/ofApp.cpp:582-609 | with no pad in reach the score and the landing flag stay as they were |
| Collision.LastMatchWins | src/ofApp.cpp:582-609 | the last pad in reach decides the verdict: its award and a landing, whatever came before |
| Collision.AtMostOnePad | src/ofApp.h:221-225 | the three pads are more than 5 apart, so no position is within 2.5 of two of them |
| Game.InitialWorld | src/ofApp.cpp:151-155 | after setup the lander is at rest at (37, 30, 57), unrotated, with no intent and a full tank; every flag is down, altitude is -1, and score and burn are 0 |
| Game.ThrustTime | src/ofApp.cpp:243 | the recorded burn is one frame period: the burn times the frame rate is 1, and it is positive for a positive frame rate |
| Game.ThrustSampled | src/ofApp.cpp:241-256 | without the thrust key nothing changes. With it and fuel left, thrust starts and one frame's burn is recorded. With it and an empty tank, thrust stops, the tank reads exactly 0 and the fuel-out flag is raised |
| Game.HeldIntents | src/ofApp.cpp:257-277 | each held key sets its intent, no intent is cleared, and the thrust intent is left alone |
| Game.KeysHeld | src/ofApp.cpp:257-277 | only the intents change, as `HeldIntents` says |
| Game.ForcesReset | src/ofApp.cpp:280-283 | the stored acceleration becomes (0, gravity, 0), the turbulence grows by exactly the tick's increment, and nothing else changes |
| Game.AltitudeSensed | src/ofApp.cpp:286-290 | the altitude-hit flag records whether the ray hits. On a hit, altitude plus the ground height equals the lander's height; on a miss the altitude is kept |
| Game.CollideChecked | src/ofApp.cpp:532-539 | only the contact flag changes; it becomes the terrain overlap of the world-space box |
| Game.CrashChecked | src/ofApp.cpp:554-559 | the crash flag is raised when some velocity component exceeds 1.8 in absolute value and is never lowered; nothing else changes |
| Game.Bounced | src/ofApp.cpp:564-571 | only velocity and the stored acceleration change, as the bounce functions say |
| Game.LandingChecked | src/ofApp.cpp:573 | the score and landing flag become the verdict of the scan over all three pads at the lander's position; nothing else changes |
| Game.ApplyCollided | src/ofApp.cpp:545-577 | `clipped` ends equal to the contact flag. Without a firing latch, body, score and other flags are unchanged. On a firing latch the crash test uses the pre-bounce velocity, the lander bounces and the landing scan runs |
| Game.Moved | src/ofApp.cpp:299-302 | while dragging the body is unchanged; otherwise it takes one `Integrated` step with the tick's heading and frame rate |
| Game.FuelBurned | src/ofApp.cpp:305-307 | with thrust on, the tank drops by exactly the recorded burn; otherwise it is unchanged |
| Game.EndChecked | src/ofApp.cpp:318-321 | when the game-over condition holds, play stops and the end screen shows; otherwise the flags are unchanged |
| Game.GameOver | src/ofApp.cpp:318 | definition, no contract of its own: a crash, contact with no fuel, or a landing. `EndChecked`, `TickEnds` and `EndingIffGameOver` are stated against it |
| Game.Sensed | src/ofApp.cpp:241-293 | before the collision response, position and velocity are untouched, the acceleration is gravity, the contact flag is the overlap, and the latch, crash, landing and score are as they were |
| Game.Simulated | src/ofApp.cpp:216-308 | definition, no contract of its own: sensing, collision response, integration and fuel in source order. `Application.App.Simulate` is proved to compute it |
| Game.Updated | src/ofApp.cpp:215-321 | definition, no contract of its own: the simulation during play, then the game-over test. `Application.App.Update` is proved to compute it, and the `Tick` lemmas state what it guarantees |
| Game.Run | src/ofApp.cpp:215-321 | definition, no contract of its own: the frames of a run in order, each defined in the world it meets (`RunDefined`). `RunNeverRefuels` and `BouncesAreFireCount` are stated against it and its companions |
| Game.ResetWorld | src/ofApp.cpp:1001-1027 | definition, no contract of its own: the state after reset. `ResetRestoresSetup` states what it restores, and `Application.App.Reset` is proved to compute it |
| Game.Started | src/ofApp.cpp:1029-1031 | play starts and nothing else changes |
| Game.ScoreAtEnd | src/ofApp.cpp:1040-1056 | the score shown is kept on a landing or an undecided ending and is 0 on any other ending |
| Game.EndingOf | src/ofApp.cpp:1039-1056 | definition, no contract of its own: the ending the end screen names, tested in its order crash, out of fuel, landed. `EndingIffGameOver`, `CrashForfeitsScore` and `Application.App.EndGameMsg` are stated against it |
| Game.EndingIffGameOver | src/ofApp.cpp:1039-1056 | the end screen names an ending exactly when the game-over condition of the tick holds |
| Game.CrashForfeitsScore | src/ofApp.cpp:1040-1045 | a crash zeroes the score even when the lander also landed |
| Game.ResetRestoresSetup | src/ofApp.cpp:1001-1027 | reset leads back to the setup state, except for turbulence, intents, altitude, recorded burn, score and the altitude-hit flag, which it does not touch. After it the game is not over, and a second reset changes nothing |
| Game.IdleTick | src/ofApp.cpp:215-321 | outside play a tick only re-runs the game-over test; body and fuel are unchanged |
| Game.EmptyTankRefusesThrust | src/ofApp.cpp:251-255 | during play, thrust held with an empty tank ends the tick with thrust off, fuel exactly 0 and the fuel-out flag up |
| Game.ThrustBurnsFrameTime | src/ofApp.cpp:241-307 | during play, thrust held with fuel left ends the tick with thrust on and the tank lower by exactly 1 / frame rate |
| Game.FuelNeverRises | src/ofApp.cpp:241-307 | at a non-negative frame rate, including the frame rate 0 that the step-length fallback handles, a tick never adds fuel, except that an overdrawn tank is set back to 0 |
| Game.RunNeverRefuels | src/ofApp.cpp:215-321 | over any run of defined ticks at non-negative frame rates the tank never exceeds the larger of its starting level and 0 |
| Game.TickLatch | src/ofApp.cpp:293-296 | during play `clipped` ends every tick equal to the terrain overlap of the lander's box |
| Game.TickBounceKick | src/ofApp.cpp:280-302 | on a tick where the latch fires, the stored acceleration ends as the bounced gravity (0, -6g, 0) |
| Game.TickGravity | src/ofApp.cpp:280-302 | on any other tick of play, the stored acceleration ends as (0, g, 0) |
| Game.TickCrash | src/ofApp.cpp:545-560 | during play a crash is recorded exactly when one was already recorded, or when the latch fires and the velocity the tick started with is too fast |
| Game.TickLanding | src/ofApp.cpp:549-574 | on a tick where the latch fires, the verdict is the scan at the position the tick started from |
| Game.TickKeepsVerdict | src/ofApp.cpp:545-577 | on every other tick of play the score and the landing flag are kept |
| Game.TickEnds | src/ofApp.cpp:318-321 | play stops and the end screen shows exactly when the flags after the tick meet crash, or contact with no fuel, or landing |
| Game.Overlaps | src/ofApp.cpp:293 | one overlap answer per tick of the run: the terrain query on the lander's box at the start of that tick |
| Game.Bounces | src/ofApp.cpp:545-576 | the number of ticks of the run that start in play with a firing latch; at most one per tick |
| Game.BouncesAreFireCount | src/ofApp.cpp:215-321 | while a game stays in progress, the number of bounces in a run is `FireCount` of the latch the run meets over the tick-by-tick overlaps |
| Game.SustainedContactBouncesOnce | src/ofApp.cpp:545-576 | a contact held over consecutive ticks of play bounces once if the latch was armed when it began, and never otherwise |
| Game.ClearRunNeverBounces | src/ofApp.cpp:545-548 | ticks of play without terrain contact never bounce the lander |
| Application.App.constructor | src/ofApp.cpp:151-155 | after setup the application is in the state `InitialWorld` describes, with a fresh Lander |
| Application.App.RayAltitudeSensor | src/ofApp.cpp:520-527 | the hit is the terrain query at the lander's position, and the altitude-hit flag records whether there was one |
| Application.App.CheckCollide | src/ofApp.cpp:532-540 | the fields change exactly as `CollideChecked` says |
| Application.App.ApplyCollide | src/ofApp.cpp:545-577 | the fields change exactly as `ApplyCollided` says |
| Application.App.FirstContact | src/ofApp.cpp:551-574 | crash test, then bounce, then landing check, as the three `Game` stages say |
| Application.App.CheckCrash | src/ofApp.cpp:554-559 | the fields change exactly as `CrashChecked` says |
| Application.App.Bounce | src/ofApp.cpp:564-571 | the lander's velocity and acceleration change exactly as `Bounced` says |
| Application.App.CheckLanding | src/ofApp.cpp:582-609 | the loop over the three pads leaves the score and landing flag as `LandingChecked` says, so the last pad in reach decides |
| Application.App.SampleThrust | src/ofApp.cpp:241-256 | the fields change exactly as `ThrustSampled` says |
| Application.App.StartThrust | src/ofApp.cpp:242-244 | with fuel left, the burn is recorded and thrust starts, as `ThrustSampled` says |
| Application.App.RefuseThrust | src/ofApp.cpp:251-255 | with an empty tank, thrust stops, the tank reads 0 and fuel-out is raised, as `ThrustSampled` says |
| Application.App.HoldKeys | src/ofApp.cpp:257-277 | the fields change exactly as `KeysHeld` says |
| Application.App.SetIntents | src/ofApp.cpp:257-277 | the lander's intents become `HeldIntents` of the old intents and the keys |
| Application.App.HoldDescendKey | src/ofApp.cpp:257-259 | the descend intent is set when its key is held, and kept otherwise |
| Application.App.HoldArrowKeys | src/ofApp.cpp:260-271 | each arrow key sets its move intent, and unheld arrows keep theirs |
| Application.App.HoldTurnKeys | src/ofApp.cpp:272-277 | the z and x keys set the rotate intents, which are kept otherwise |
| Application.App.ResetForces | src/ofApp.cpp:280-283 | the fields change exactly as `ForcesReset` says |
| Application.App.SenseAltitude | src/ofApp.cpp:286-290 | the fields change exactly as `AltitudeSensed` says |
| Application.App.Sense | src/ofApp.cpp:241-293 | the fields change exactly as `Sensed` says |
| Application.App.Move | src/ofApp.cpp:299-302 | the fields change exactly as `Moved` says |
| Application.App.BurnFuel | src/ofApp.cpp:305-307 | the fields change exactly as `FuelBurned` says |
| Application.App.Simulate | src/ofApp.cpp:216-308 | the fields change exactly as `Simulated` says: sensing, collision response, integration, fuel |
| Application.App.CheckGameOver | src/ofApp.cpp:318-321 | the fields change exactly as `EndChecked` says |
| Application.App.Update | src/ofApp.cpp:215-321 | one frame changes the fields exactly as `Updated` says, so every `Tick` lemma holds of it |
| Application.App.Reset | src/ofApp.cpp:1001-1027 | the fields change exactly as `ResetWorld` says (see `ResetRestoresSetup`) |
| Application.App.StopGame | src/ofApp.cpp:1002-1003 | play and the end screen are switched off, and no other flag changes |
| Application.App.PutLanderAtStart | src/ofApp.cpp:1004-1010 | the lander is at (37, 30, 57), unrotated and at rest with a full tank; its turbulence is kept |
| Application.App.ClearOutcome | src/ofApp.cpp:1020-1026 | the contact, latch, crash, landing and fuel-out flags are lowered, and no other flag changes |
| Application.App.GameStart | src/ofApp.cpp:1029-1031 | the fields change exactly as `Started` says |
| Application.App.EndGameMsg | src/ofApp.cpp:1036-1056 | the ending named is `EndingOf` the flags, and the score becomes `ScoreAtEnd`: 0 after a crash or running dry on the ground without landing, kept otherwise |

## Left out

- Trigonometry: `header` and `leftRightHeader` take the sine and cosine of the heading as an input on the unit circle. The model does not tie that heading to the rotation angle the lander holds.
- Terrain queries: the octree's ray and box intersections are inputs of a tick (`groundBelow`, `overlaps`). The octree itself is not part of this model.
- Altitude reference point: the code measures altitude from the first vertex of the octree leaf the ray reached, not from the hit point. The model takes that height from `groundBelow` as it comes. It does not relate the height to the terrain surface below the lander.
- Randomness: the `ofRandom` turbulence increment is an input of a tick.
- Frame rate: `ofGetFrameRate` is an input of a tick.
- Floating point: all arithmetic is on `real`, with no rounding, infinities or NaN. The landing test compares squared distances instead of taking a square root.
- Game.ThrustTime: the code divides 1 by the frame rate without a guard when thrust starts. A float division by zero gives infinity; `real` division cannot express that. So `ThrustSampled`, `Sensed`, `Simulated`, `Updated` and the `App` methods that reach this line require a non-zero frame rate when thrust starts with fuel left (`TickDefined`). `Run` requires the same of each of its ticks (`RunDefined`); a frame rate of 0 on any other tick is allowed.
- Fuel bottom: the last burn can overdraw the tank below 0. The tank is set to exactly 0 only on the next tick that holds thrust. The model follows the code here, so fuel is not claimed to stop at exactly 0.
- Key handling: `keyPressed` and `keyReleased` maintain the key map, and `keyReleased` clears intents. The model takes the held keys of a tick as input, and intents cleared between ticks are not modelled.
- Rendering and presentation: drawing, the HUD and the end-screen text, cameras, lights and the ship-light rotation (the value `Integrate` returns is computed but not used), particle emitters, sounds and screenshots.
- Mouse picking and dragging: only the dragging flag, which skips integration, is modelled.
- Model loading: the Lander constructor's asset loading is replaced by the model's local bounding box, passed to the constructor.
- Gravity is a constant member of the Lander (`gravity`), as in the code. The Lander's `rotation` member only feeds the initial rotation at setup, and is modelled as a constant 0.
- Reset's camera and light toggles (ship light, altitude display, camera selection) are presentation state and are not modelled.
- The `update` body and `reset` are written inline in the code. The model splits them into small stage methods (`Sense`, `SampleThrust`, `StopGame` and so on) with the same statements in the same order.
- A "body at rest stays at rest" property is not stated. Gravity and turbulence are re-added on every tick, so no tick of play leaves a body at rest anyway. `Dynamics.BalancedForcesVanish` states the force part.
