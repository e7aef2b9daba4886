# Steering behaviours in Dafny

This project models the steering-behaviour library at the top of `src/init.js`. The library is a 2-D game-AI toolkit in the style of Millington's *Artificial Intelligence for Games*. Its parts are:

- an immutable 2-D `Vector`;
- two angle helpers, `newOrientation` and `mapToRange`;
- three agent integrators (`Kinematic`, `KinematicForWander`, `KinematicSteeringBehaviors`);
- twelve behaviours that compute a steering request each tick:
  - kinematic: `KinematicArrive`, `KinematicFlee`, `KinematicWander`;
  - dynamic: `Seek`, `Flee`, `Arrive`, `VelocityMatch`;
  - orientation: `Align` and `Face`;
  - predictive: `Pursue` and `Evade`;
  - `Wander`;
- the `wrapAround` boundary policy for a 1200 × 800 world.

Numbers are Dafny `real`s. `Math.sqrt`, `Math.atan2`, `Math.sin` and `Math.cos` are foreign code, so they arrive as a `MathLib` value of four function values. `MathLib.Valid()` states the only facts the proofs use:
- `sqrt` never returns a negative number (this is in its type);
- `sqrt(a)` squares back to `a` for `a >= 0`;
- `sin(t)² + cos(t)² = 1`.

Nothing is assumed about `atan2`.

`Math.random()` is replaced by the draws it would return. They are parameters of subset type `Uniform` (values in `[0, 1)`).

JavaScript's `%` truncates toward zero. It is written out as `JsRem(a, b) = a - b·trunc(a/b)`.

How the JavaScript objects are modelled:
- **Agents.** The three agent classes have the same four fields and the same constructor, and every behaviour accepts any of them. So they are one Dafny class, `Agents.Kinematic`, with the three `update` methods `Update`, `UpdateForWander` and `UpdateSteeringBehaviors`.
- **Agent constructor.** `Staticc` only carries a position and an orientation into the agent constructor, so the constructor takes those two values directly.
- **Behaviours.** Each behaviour is a class whose `GetSteering` method changes exactly what the JavaScript method changes, as its `modifies` clause states. Each one is proved against a pure specification function of the old state, such as `KinematicArriveSteering` or `AlignSteering`.
- **Behaviour properties.** The behaviour's properties are proved as lemmas about that function, and the central ones are repeated in the method's `ensures`.
- **Inheritance.** `Face extends Align`, `Wander extends Face`, `Pursue extends Seek` and `Evade extends Flee` become composition: a `const` inner object (`face.align`, `pursue.seek`, …) whose `target` field the outer method reassigns.
- **Globals.** The global objects `explicitTarget` and `explicitTargetToSeek` are passed in as parameters.
- **null.** A null result is `Options.None`.
- **Duck-typed steering.** The integrators read properties of whatever object they are given. `Kinematic.update` reads `linear`, `angular` and `velocity`, `KinematicSteeringBehaviors.update` reads `linear` and `angular`, and `KinematicForWander.update` reads `velocity` and `rotation`. This is `Steering.Steering`, a record with one `Option` per property. It is built from a `SteeringOutput` by `Dynamic`. It is built from a `KinematicSteeringOutput`, or from an agent that `Face` hands back, by `Direct`.
- **Thrown errors.** `Wander` assigns `result.linear` on whatever `Face` returned. When Align returned null, that assignment throws a `TypeError`, which becomes `Options.Failure`.

Behaviour the model keeps from the code:
- **`mapToRange`.** This helper only brings angles at or above −π into [−π, π). Orientations accumulate without wrapping, so `Align` with the character at orientation 2π and the target at 0 still asks for a turn (`AlignFullTurn`).
- **`Face` and `Wander`.** Both pass `0.1` to `Align` as `timeToTarget`, whatever they are given. The super call's argument is the assignment `(timeToTarget = 0.1)`.
- **`Face` with a coincident target.** When the target sits on the character, `Face` returns the target agent itself. The plain integrator then copies that agent's velocity (`PlainIgnoresRotation`, `Direct`).
- **The clamping integrator.** `update(steering, time, maxSpeed)` on `KinematicSteeringBehaviors` never applies a steering's `velocity`. The lines that would do so are commented out.

Domain restrictions, each a subset type on a constructor parameter. No driver passes a value outside them. Where the code would compute NaN or Infinity there, a model over `real` cannot follow it. Elsewhere the excluded values give finite results that the model does not cover:
- `timeToTarget` of `KinematicArrive`, `KinematicFlee`, `Arrive`, `Align` and `VelocityMatch` is `Positive`. Zero is divided by, giving Infinity or NaN. A negative value gives a finite, reversed request.
- `maxPrediction` of `Pursue` and `Evade` is `Positive`. With zero, a positive distance makes `distance / maxPrediction` Infinity, so the prediction is a finite 0. A zero distance with a resting character gives `0/0`. With a negative value:
  - a moving character gets `distance / speed`;
  - a resting character at a positive distance gets `distance / 0`, Infinity;
  - only a zero distance with a resting character gives the negative prediction `maxPrediction`.
- `targetRadius` of `Align` and `Arrive` is `Positive`. With `targetRadius <= 0` and a zero turn, `Align` computes `rotation / rotationSize = 0/0`. `Arrive` at distance zero computes `0/0` only when `slowRadius` is zero too. With a positive `slowRadius` its result is finite (target speed 0).
- `maxAngularAcceleration` of `Align`, `Face` and `Wander` is `NonNeg`. A negative value computes `0/0` when the angular request is zero, and flips the sign of the capped angular otherwise.

## Model

| member | source | states |
|---|---|---|
| Numeric.JsRem | src/init.js:19 | JavaScript's `%`: `a - b·trunc(a/b)`, a remainder with the sign of the dividend (its properties are the MapToRange lemmas) |
| Numeric.Trunc | src/init.js:18-20 | the truncated quotient used by `%` lies within one of its argument, on the side of zero |
| Numeric.RandomBinomial | src/init.js:285-287 | `Math.random() - Math.random()` lies strictly between −1 and 1 |
| Vectors.Vec.Add | src/init.js:29-31 | componentwise sum, a new vector |
| Vectors.Vec.Subtract | src/init.js:33-35 | componentwise difference, a new vector |
| Vectors.Vec.Scale | src/init.js:37-39 | both components multiplied by the scalar |
| Vectors.Vec.LengthSquared | src/init.js:41-43 | the sum of squares passed to `Math.sqrt` |
| Vectors.Vec.Length | src/init.js:41-43 | `Math.sqrt` of the sum of squares (properties in the Length lemmas) |
| Vectors.Vec.Normalize | src/init.js:45-49 | the zero vector when the length is zero, else both components divided by the length (properties in the Normalize lemmas) |
| Vectors.Vec.Angle | src/init.js:51-53 | `Math.atan2(y, x)` |
| Vectors.Vec.InvertX | src/init.js:55-57 | x negated, y kept |
| Vectors.Vec.InvertY | src/init.js:59-61 | y negated, x kept |
| Vectors.Vec.Clone | src/init.js:63-65 | a vector with the same components |
| Vectors.Clamp | src/init.js:172-175 | the shared "if longer than the limit, normalize and scale to the limit" step (properties in the Clamp lemmas) |
| Vectors.AddSubtract | src/init.js:29-35 | subtracting what was added (and the reverse) gives the original vector back |
| Vectors.InvertXInvolution | src/init.js:55-57 | invertX twice is the identity and keeps the length |
| Vectors.InvertYInvolution | src/init.js:59-61 | invertY twice is the identity and keeps the length |
| Vectors.CloneIsCopy | src/init.js:63-65 | clone yields an equal vector |
| Vectors.LengthScale | src/init.js:37-43 | scaling by k multiplies the length by abs(k) |
| Vectors.LengthZero | src/init.js:41-43 | the length is zero exactly for the zero vector |
| Vectors.LengthPositive | src/init.js:41-43 | a non-zero vector has positive length |
| Vectors.LengthOfZero | src/init.js:41-43 | the zero vector has length zero |
| Vectors.NormalizeZero | src/init.js:45-49 | normalize gives the zero vector exactly for the zero vector |
| Vectors.NormalizeOfZero | src/init.js:45-47 | the zero vector normalizes to the zero vector |
| Vectors.NormalizeUnit | src/init.js:45-49 | a non-zero vector normalizes to itself scaled by 1/length, and the result has length 1 |
| Vectors.NormalizeScaleLength | src/init.js:45-49 | normalize then scale by k >= 0 has length k, or is zero for the zero vector |
| Vectors.SubtractZero | src/init.js:33-35 | the difference of two points is zero exactly when they coincide |
| Vectors.DirectionScaleLength | src/init.js:307-311 | the normalized direction between two distinct points, scaled by k >= 0, has length k; it is zero for coincident points |
| Vectors.NormalizeNegate | src/init.js:45-49 | normalizing the reversed vector gives the reversed unit vector |
| Vectors.ClampBound | src/init.js:172-175 | the "normalize and scale to the limit if longer" step yields length at most the limit, for a limit >= 0 |
| Vectors.ClampLength | src/init.js:205-207 | a vector within the limit is unchanged, a longer one comes out exactly at the limit |
| Vectors.ClampDirection | src/init.js:397-400 | clamping only shortens: the result is the input scaled by a factor in (0, 1] |
| Angles.MapToRange | src/init.js:18-20 | `(angle + π) % 2π − π` with the truncating `%` |
| Angles.NewOrientation | src/init.js:8-16 | atan2 of a moving velocity, else the current orientation |
| Angles.Facing | src/init.js:645-647 | `asVector`: (sin, cos) of the angle, normalized; the same helper at 289-294 |
| Angles.MapToRangeBounds | src/init.js:18-20 | for angle >= −π the result is in [−π, π); below −π it stays in (−3π, −π] |
| Angles.MapToRangeTurns | src/init.js:18-20 | the result differs from the input by a whole number of turns 2π |
| Angles.MapToRangeFixed | src/init.js:18-20 | angles already in [−π, π) come back unchanged |
| Angles.MapToRangeNotBoundedBelow | src/init.js:18-20 | −4π maps to −2π, below the range |
| Angles.NewOrientationCases | src/init.js:8-16 | the orientation is kept for a zero velocity, and is atan2(y, x) of any other |
| Angles.FacingUnit | src/init.js:289-294 | asVector (sin, cos, normalized) has length 1 |
| Angles.FacingScaleLength | src/init.js:273-274 | the heading scaled by k >= 0 has length k |
| Steering.Dynamic | src/init.js:68-73 | a `SteeringOutput` seen by the integrators: `linear` and `angular` present, `velocity` and `rotation` absent |
| Steering.Direct | src/init.js:75-80 | a `KinematicSteeringOutput` seen by the integrators: `velocity` and `rotation` present, `linear` and `angular` absent |
| Steering.Reach | src/init.js:514-521 | the gap scaled by 1/timeToTarget, then clamped to the limit |
| Steering.Ramp | src/init.js:387-388 | top beyond slowRadius, else top·distance/slowRadius |
| Steering.ReachBound | src/init.js:514-521 | "cover the gap in timeToTarget, capped" stays within a limit >= 0 and points along the gap |
| Steering.ReachExact | src/init.js:514-521 | when the cap does not bite, the request covers the gap in exactly timeToTarget |
| Steering.RampBounds | src/init.js:386-387 | the slowed speed lies in [0, top] and equals top beyond slowRadius |
| Steering.RampMonotone | src/init.js:386-387 | the slowed speed does not decrease with distance |
| Steering.RampProduct | src/init.js:387 | Arrive's `(max·d)/slow` equals Align's `max·(d/slow)` |
| Agents.PlainStep | src/init.js:106-122 | the plain update as a function of the old state |
| Agents.WanderStep | src/init.js:133-142 | the wander update as a function of the old state |
| Agents.ClampedStep | src/init.js:153-176 | the clamping update as a function of the old state |
| Agents.Kinematic.constructor | src/init.js:98-104 | the agent starts with the given position, orientation, velocity and rotation |
| Agents.Kinematic.Update | src/init.js:106-122 | the new state is `PlainStep` of the old: position and orientation advance first, linear is integrated, a velocity overwrites it, angular is integrated |
| Agents.Kinematic.UpdateForWander | src/init.js:133-142 | the new state is `WanderStep` of the old: integrate, then take velocity and rotation wholesale |
| Agents.Kinematic.UpdateSteeringBehaviors | src/init.js:153-176 | the new state is `ClampedStep` of the old, and the speed is at most maxSpeed when maxSpeed >= 0 |
| Agents.PlainAdvancesWithOldRates | src/init.js:108-110 | position and orientation advance by the velocity and rotation held before the update |
| Agents.PlainVelocityOverwrite | src/init.js:113-118 | a steering's velocity becomes the velocity; the linear that came with it has no effect |
| Agents.PlainLinear | src/init.js:113-114 | without a velocity, linear·time is added to the velocity |
| Agents.PlainIgnoresRotation | src/init.js:106-122 | a steering's rotation is never read; a KinematicSteeringOutput sets the velocity and leaves the rotation |
| Agents.PlainNull | src/init.js:106-122 | a null steering changes only position and orientation |
| Agents.WanderStepSetsRates | src/init.js:133-142 | velocity and rotation become the steering's; this is the plain update plus taking the rotation |
| Agents.ClampedSpeedBound | src/init.js:172-175 | after the clamping update the speed is at most maxSpeed >= 0 |
| Agents.ClampedIsPlainThenClamp | src/init.js:153-176 | the clamping update is the plain update of the steering without velocity and rotation, followed by the clamp |
| Agents.ClampedKeepsSlow | src/init.js:172 | a velocity at or under the limit is left as integrated |
| KinematicBehaviors.KinematicArriveSteering | src/init.js:188-217 | null inside the radius, else the capped velocity toward the target with rotation 0 |
| KinematicBehaviors.KinematicArriveProperties | src/init.js:188-217 | null exactly when distance < radius; otherwise speed at most maxSpeed, rotation 0, velocity pointing at the target |
| KinematicBehaviors.KinematicArrive.constructor | src/init.js:180-186 | stores its arguments; timeToTarget defaults to 0.75 |
| KinematicBehaviors.KinematicArrive.GetSteering | src/init.js:188-217 | result is `KinematicArriveSteering` of the positions; the orientation is newOrientation of the returned velocity, untouched when null |
| KinematicBehaviors.KinematicFleeSteering | src/init.js:229-257 | zero beyond the radius, else the capped velocity away from the target with rotation 0 |
| KinematicBehaviors.KinematicFleeProperties | src/init.js:229-257 | zero velocity beyond the radius; within it, speed at most maxSpeed, pointing away from the target; rotation 0 |
| KinematicBehaviors.KinematicFlee.constructor | src/init.js:221-227 | stores its arguments; timeToTarget defaults to 0.75 |
| KinematicBehaviors.KinematicFlee.GetSteering | src/init.js:229-257 | result is `KinematicFleeSteering`; beyond the radius the orientation is untouched, within it it follows the returned velocity |
| KinematicBehaviors.KinematicWanderSteering | src/init.js:269-283 | the heading scaled by maxSpeed, and random·maxRotation |
| KinematicBehaviors.KinematicWander.constructor | src/init.js:263-267 | stores its arguments |
| KinematicBehaviors.KinematicWander.GetSteering | src/init.js:269-283 | velocity is the heading scaled to exactly maxSpeed; rotation is random·maxRotation, no larger than maxRotation |
| DynamicBehaviors.SeekLinear | src/init.js:306-312 | the normalized direction to the target scaled by maxAcceleration |
| DynamicBehaviors.SeekMagnitude | src/init.js:304-321 | linear has length exactly maxAcceleration, or is zero when the positions coincide |
| DynamicBehaviors.Seek.constructor | src/init.js:298-302 | stores its arguments |
| DynamicBehaviors.Seek.GetSteering | src/init.js:304-321 | linear is `SeekLinear`, angular 0; the orientation follows the character's own velocity |
| DynamicBehaviors.FleeSteering | src/init.js:331-356 | zero beyond 300, else the normalized direction away scaled by maxAcceleration; angular 0 |
| DynamicBehaviors.FleeOpposesSeek | src/init.js:331-356 | beyond 300 the linear is zero; within 300 it is exactly the negation of Seek's; angular 0 |
| DynamicBehaviors.FleeMagnitude | src/init.js:343-346 | within 300, linear has length exactly maxAcceleration unless the positions coincide |
| DynamicBehaviors.Flee.constructor | src/init.js:325-329 | stores its arguments |
| DynamicBehaviors.Flee.GetSteering | src/init.js:331-356 | result is `FleeSteering`; beyond 300 the character's velocity is set to zero and its orientation untouched; within, velocity unchanged and orientation follows it |
| DynamicBehaviors.ArriveTargetVelocity | src/init.js:387-392 | the normalized direction scaled by the ramped speed |
| DynamicBehaviors.ArriveSteering | src/init.js:378-410 | null under targetRadius, else the capped change toward the target velocity with angular 0 |
| DynamicBehaviors.ArriveProperties | src/init.js:378-410 | null exactly when distance < targetRadius; the target velocity has the ramped speed (at most maxSpeed); linear at most maxAcceleration and, for a positive maxAcceleration, a positive multiple of the target velocity minus the character's velocity; angular 0 |
| DynamicBehaviors.Arrive.constructor | src/init.js:360-376 | stores its arguments; timeToTarget defaults to 0.1 |
| DynamicBehaviors.Arrive.GetSteering | src/init.js:378-410 | result is `ArriveSteering`; unless null, the orientation follows the character's own velocity |
| DynamicBehaviors.VelocityMatch.constructor | src/init.js:504-509 | stores its arguments; timeToTarget defaults to 0.1 |
| DynamicBehaviors.VelocityMatch.GetSteering | src/init.js:511-526 | linear at most maxAcceleration; when that suffices, velocity + linear·timeToTarget equals the target's velocity |
| OrientationBehaviors.CapMagnitude | src/init.js:454-459 | an angular larger than the limit is replaced by the limit with its sign |
| OrientationBehaviors.CapMagnitudeBounds | src/init.js:454-459 | the capped angular is at most the limit, unchanged within it, exactly the limit beyond it, same sign |
| OrientationBehaviors.AlignTargetRotation | src/init.js:446-449 | the ramped rotation speed times the sign of the remaining turn |
| OrientationBehaviors.AlignTargetRotationBounds | src/init.js:446-449 | the target rotation is at most maxRotation in size, signed like the remaining turn, and full beyond slowRadius |
| OrientationBehaviors.AlignSteering | src/init.js:435-464 | null under targetRadius, else linear zero and the capped angular toward the target rotation |
| OrientationBehaviors.AlignProperties | src/init.js:435-464 | null exactly when abs(mapToRange(difference)) < targetRadius; otherwise linear zero and abs(angular) <= maxAngularAcceleration |
| OrientationBehaviors.AlignAligned | src/init.js:438-444 | equal orientations give null |
| OrientationBehaviors.AlignFullTurn | src/init.js:438-444 | orientation 2π against 0 maps to −2π and asks for a turn |
| OrientationBehaviors.AlignReachesTargetRotation | src/init.js:449-459 | from rest and within the cap, angular·timeToTarget equals the target rotation |
| OrientationBehaviors.Align.constructor | src/init.js:417-433 | stores its arguments; timeToTarget defaults to 0.1 |
| OrientationBehaviors.Align.GetSteering | src/init.js:435-464 | result is `AlignSteering`, null exactly under targetRadius, else linear zero and angular capped |
| OrientationBehaviors.FaceSteering | src/init.js:490-500 | the target itself on a zero direction, else Align toward atan2 of the direction |
| OrientationBehaviors.FaceProperties | src/init.js:490-500 | the target itself comes back exactly when it shares the character's position; otherwise Align's result (linear zero, angular capped), null when already facing |
| OrientationBehaviors.Face.constructor | src/init.js:470-488 | the Align underneath gets timeToTarget 0.1 whatever is passed |
| OrientationBehaviors.Face.GetSteering | src/init.js:490-500 | result is `FaceSteering` of the old state; unless the direction is zero, the target becomes explicitTarget with orientation atan2 of the direction |
| PredictiveBehaviors.PredictionTime | src/init.js:543-547 | the prediction is in [0, maxPrediction], equals maxPrediction exactly when speed <= distance/maxPrediction, and otherwise covers the distance at the speed |
| PredictiveBehaviors.Prediction | src/init.js:537-547 | the prediction time from the distance to the target and the character's speed |
| PredictiveBehaviors.Predicted | src/init.js:551-553 | the position moved by velocity·prediction |
| PredictiveBehaviors.PredictedStill | src/init.js:551-553 | a resting target, or a zero prediction, leaves the target where it is |
| PredictiveBehaviors.Pursue.constructor | src/init.js:530-533 | builds the Seek and stores maxPrediction |
| PredictiveBehaviors.Pursue.GetSteering | src/init.js:535-555 | the target becomes explicitTarget moved by velocity·prediction (measured to the old target); the result is Seek toward that point |
| PredictiveBehaviors.Evade.constructor | src/init.js:559-562 | builds the Flee and stores maxPrediction |
| PredictiveBehaviors.Evade.GetSteering | src/init.js:564-584 | the target becomes explicitTarget moved by velocity·prediction; the result and the side effects are Flee's from that point |
| WanderBehavior.WanderTargetPosition | src/init.js:621-629 | wanderOffset ahead of the character, then wanderRadius along the wander heading |
| WanderBehavior.WanderTargetOnCircle | src/init.js:621-629 | the circle centre is wanderOffset ahead of the character and the target is wanderRadius from the centre |
| WanderBehavior.WanderSteering | src/init.js:634-639 | Face's result with linear replaced by the heading scaled by maxAcceleration; a TypeError when Face returned null |
| WanderBehavior.WanderSteeringProperties | src/init.js:634-639 | fails exactly when Face returned null; otherwise linear has length maxAcceleration and the rest is Face's |
| WanderBehavior.Wander.constructor | src/init.js:588-616 | stores its arguments; the Align underneath gets timeToTarget 0.1 |
| WanderBehavior.Wander.GetSteering | src/init.js:618-640 | wanderOrientation drifts by random·wanderRate; the target and explicitTargetToSeek move to the wander point; the result is Face's with linear along the heading; unless the point sits on the character, the target becomes explicitTarget with orientation atan2 of the direction to the point, otherwise both stay as they were |
| Boundary.WrapAxis | src/init.js:676-686 | one axis wraps below zero to the edge and beyond the edge to zero, in range afterwards, unchanged when in range |
| Boundary.Wrapped | src/init.js:663-689 | the result is in the world; in-world positions are unchanged; with transportToCenter anything outside goes to (600, 400) |
| Boundary.WrappedIdempotent | src/init.js:663-689 | a second wrap changes nothing |
| Boundary.WrapAround | src/init.js:663-689 | only the position changes, to `Wrapped` of the old one, and it ends in the world |

## Left out

- Phaser scenes, sprites, DOM buttons and the per-tick drivers `updateGame1`–`updateGame12` with their keyboard handling. They are UI and input wiring around the library.
- IEEE floating point: rounding, NaN and Infinity. Numbers are exact reals, and the subset types above exclude the inputs that would produce NaN or Infinity.
- `Math.atan2`, `Math.sin` and `Math.cos` beyond `sin² + cos² = 1`: no trigonometric identity is modelled. `Math.random` is the injected draws `u1`, `u2`.
- Object aliasing of vectors. `Vector` is a value here. In the code, `explicitTargetToSeek.position = this.target.position` (line 632) makes two agents share one vector object, and `wrapAround` writes `position.x`/`.y` in place. So a later wrap of one of them would move the other too. The model copies the value.
- Face, Pursue, Evade and Wander require their global targets (and Wander's current target) to be objects other than the character. The drivers always pass separate agents. The model does not cover a character that is its own target.
- A leftover `linear` property. When Face hands back its target agent inside Wander, the code sets `linear` on that agent object, and the property stays on it for later ticks. `WanderBehavior.Wander.GetSteering` returns a steering with that `linear`; the properties it leaves on the agent object afterwards are not modelled.
- `KinematicForWander.update` called with null or with a `SteeringOutput`. The code would store `undefined` or throw. The model accepts a `KinematicSteeringOutput` only.
- `Staticc` and `Anothercharacter`. Both only carry values into constructors. The agent constructor takes the position and orientation directly.
- JavaScript default arguments that produce `undefined` (an agent built without velocity or rotation). Every constructor argument is given.
