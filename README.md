# Marker tracker and linkage: a Dafny model

The program follows four ArUco markers in a camera feed. Marker 3 is the
reference. Each detection of a marker overwrites that marker's slot in the
`markerData` table. A detection of the reference recomputes the four
smoothed angle channels (`r0y`, `r1y`, `r2x`, `r2y`) from the rotation of
each other stored marker relative to the reference. Every render frame then
places a three-joint linkage from those channels, and lays a straight curve
between joints 0 and 1.

This project models that bookkeeping in `app.js` and proves what it
guarantees.

- `linear.dfy` (module `Linear`): vectors, 3x3 matrices, `makeRotationX` and
  `makeRotationY` as matrices of given cosine and sine, and facts about
  them. Every matrix the program builds has a last row and column of
  (0, 0, 0, 1), so only its 3x3 block is kept; `applyMatrix4` then divides
  by 1.
- `externals.dfy` (module `Externals`): the foreign calls, bundled in one
  `Library` value of total functions the caller supplies. They are
  `cv.Rodrigues`, `Matrix4.getInverse`, `Euler.setFromRotationMatrix`
  (order XYZ), `radToDeg`, `degToRad`, cosine and sine.
- `smoothing.dfy` (module `Smoothing`): `applySmoothing` with its
  `USE_SMOOTHING` switch and blend factor `alpha` (0.1), the channel record,
  and the filter's blend, pass-through and convergence properties.
- `tracking.dfy` (module `Tracking`): the marker store and the channels.
  - Specification functions: `Step` is one `processMarkerData` call, `ReferenceUpdate`
    is `updateReferenceMarker`, and `Run` is a list of detections handled in
    order.
  - The class `Tracker` holds `markerData` and `smoothedAngles` and updates
    them in place. Its `for` loop over ids 0, 1, 2 is proved against
    `ReferenceUpdate`.
- `kinematics.dfy` (module `Kinematics`): `updateScene` as the class `Scene`,
  whose point and axis arrays are written by the loop over `i = 0..2`. It is
  proved against the specification functions `JointPosition`, `JointRotation` and
  `CurvePoints`.

All numbers are Dafny `real`s.

Facts about `app.js` that a reader might not expect, each proved:
- Joint 2's rotation is `makeRotationX(r2x).multiply(makeRotationY(r2y))`
  (app.js:333-335), that is `Rx·Ry`: the point turns about Y first, then
  about X (`Linear.ApplyMul`, `Kinematics.JointTwoPlacement`).
- No slot of `markerData` is ever cleared (app.js:180-183 is its only
  write). A marker that leaves the view keeps its last pose
  (`Tracking.RunKeepsUndetected`). `updateReferenceMarker` tests a slot only for
  presence (app.js:203), not for a detection in the current frame, so that
  stale pose still feeds the marker's channels whenever the reference is
  seen again
  (`Tracking.ReferenceUpdateRoutes`).
- Every id the detector reports is stored, not only 0 to 3. Ids outside 0
  to 3 never reach a channel (`Tracking.ReferenceUpdateIgnoresOtherIds`).
- The null check at app.js:198 cannot fire on its only call path
  (app.js:186-187), because `processMarkerData` has just stored the
  reference (`Tracking.StepTriggersOnlyOnReference`). What the check does
  when reached with no reference is proved for the function on its own
  (`Tracking.ReferenceUpdateFreezesWithoutReference`).

## Model

| member | source | states |
|---|---|---|
| `Linear.ApplyMul` | app.js:333-335 | applying a product `a.multiply(b)` to a point is applying `b` first and then `a` |
| `Linear.LinearFixesOrigin` | app.js:345 | `applyMatrix4` with any matrix leaves the origin at the origin |
| `Linear.RotationYFixesYAxis` | app.js:331 | a Y rotation, whatever its angle, leaves every point on the Y axis where it is |
| `Linear.RotationYPreservesNorm` | app.js:331-332 | a Y rotation whose entries are the cosine and sine of one angle keeps a point's distance from the origin |
| `Linear.RotationXPreservesNorm` | app.js:334 | an X rotation whose entries are the cosine and sine of one angle keeps a point's distance from the origin |
| `Smoothing.SmoothingMovesFractionOfGap` | app.js:248-251 | with smoothing on, a step moves the old value exactly `alpha` of the way to the raw value |
| `Smoothing.SmoothingStaysBetween` | app.js:248-251 | with smoothing on and `alpha` in [0, 1], the result lies between the old value and the raw value |
| `Smoothing.SmoothingOffPassesThrough` | app.js:252-253 | with smoothing off, the result is the raw value, for every old value |
| `Smoothing.SourceFilterMovesOneTenth` | app.js:239-251 | with the program's setting (`USE_SMOOTHING` true, `alpha` 0.1), a step closes a tenth of the gap and stays between old and raw values |
| `Smoothing.RepeatError` | app.js:248-251 | feeding a constant `x` n times from `s0` leaves the error `s_n - x = (1 - alpha)^n (s0 - x)` |
| `Smoothing.RepeatDistanceNeverGrows` | app.js:248-251 | for `alpha` in [0, 1], each further step with the same raw value is no further from it |
| `Smoothing.RepeatStaysBetween` | app.js:248-251 | for `alpha` in [0, 1], every smoothed value lies between the start value and the constant raw value |
| `Smoothing.RepeatConverges` | app.js:248-251 | for `alpha` in (0, 1], the error after n steps is at most the initial error divided by `1 + n alpha`, so the value converges |
| `Smoothing.RepeatWithoutSmoothing` | app.js:252-253 | with smoothing off, every smoothed value after the first step equals the raw value |
| `Tracking.ReferenceUpdateRoutes` | app.js:202-233 | each channel is fed by one marker only: r0y by marker 0's Y angle, r1y by marker 1's Y angle, r2x and r2y by marker 2's X and Y angles. A channel is smoothed toward its raw angle (relative to the reference, in degrees) exactly when its marker and the reference are both stored; otherwise it keeps its value |
| `Tracking.ReferenceUpdateFreezesWithoutReference` | app.js:196-198 | with no reference pose stored, no channel changes, whatever else is stored |
| `Tracking.ReferenceUpdateIgnoresOtherIds` | app.js:202 | storing a pose under an id outside 0..3 changes no channel update |
| `Tracking.StepStoresObservation` | app.js:173-183 | a detection stores its id with the Rodrigues rotation and position `(t0, t1, -t2)`; every other stored id keeps its pose and no id is dropped |
| `Tracking.StepTriggersOnlyOnReference` | app.js:186-188 | a detection of id 0, 1, 2 or any id other than 3 leaves every channel unchanged; a detection of id 3 runs the reference update with the reference present |
| `Tracking.RunAppend` | app.js:103-122 | handling one more detection after a list is handling the longer list |
| `Tracking.RunWithoutReferenceFreezes` | app.js:103-122 | a list of detections that does not contain the reference leaves every channel unchanged |
| `Tracking.RunStoreKeys` | app.js:180-183 | after a list of detections, the store holds exactly the ids it held before plus the detected ids: nothing is ever removed |
| `Tracking.RunKeepsUndetected` | app.js:180-183 | a stored id that no detection of the list reports is still stored afterwards, with the same pose: an occluded marker keeps its last pose |
| `Tracking.RunLastDetectionWins` | app.js:103-122 | after a list of detections, an id holds the pose of its last detection in the list |
| `Tracking.Tracker.constructor` | app.js:138-143 | the tracker starts with every slot empty and every channel at 0 |
| `Tracking.Tracker.ProcessMarkerData` | app.js:146-192 | the new store and channels are `Step` of the old state and the detection |
| `Tracking.Tracker.UpdateReferenceMarker` | app.js:195-236 | the loop over ids 0, 1, 2 leaves the channels at `ReferenceUpdate` of the store and the old channels; nothing else changes |
| `Tracking.Tracker.ProcessDetections` | app.js:103-122 | processing one frame's detections in order leaves the state at `Run` of the old state and the list |
| `Kinematics.JointZeroIsFixed` | app.js:330-348 | joint 0 is at (0, 10, 0) in every frame, whatever `r0y` is |
| `Kinematics.JointOneIsAtOrigin` | app.js:318 | joint 1 is at the origin in every frame, whatever `r1y` is |
| `Kinematics.JointTwoPlacement` | app.js:333-347 | joint 2 is `Rx(r2x)·Ry(r2y)` applied to (7, 0, 0): first about Y, then about X, giving (7 cos y, 7 sin x sin y, -7 cos x sin y) |
| `Kinematics.JointTwoStaysAtArmLength` | app.js:319-347 | when cosine and sine lie on the unit circle, joint 2 is always at distance 7 from the origin |
| `Kinematics.CurveIsFixedSegment` | app.js:360-367 | curve 0's first three coordinates are joint 0's and its last three are joint 1's, so it is always the segment (0, 10, 0) to (0, 0, 0) |
| `Kinematics.Scene.constructor` | app.js:277-301 | the three meshes and the three axis helpers start at the origin, unrotated, and curve 0 starts empty |
| `Kinematics.Scene.UpdateScene` | app.js:315-376 | after the loop, mesh i and axis helper i sit at joint i's position, axis helper i carries joint i's rotation, and curve 0 holds joints 0 and 1. All of it depends only on the channels, so calling it twice with the same channels gives the same scene |

## Left out

- Camera and detection: `startCamera`, `startProcessing`, `processVideo`, and the `requestAnimationFrame` scheduling of both loops. These are browser and video I/O. One frame's markers reach the model as a list of `Observation`s (`Tracker.ProcessDetections`).
- Error handling: the try/catch around a detection frame (app.js:130-132) only logs.
  - The rescheduling call `requestAnimationFrame(processVideo)` (app.js:129) is inside the `try`, so one throw ends the detection loop for good.
  - Nothing is rolled back. Detections handled earlier in the same frame stay applied, and so does a pose stored at app.js:180 even when the throw comes later, inside `updateReferenceMarker` (app.js:200-211).
  - The model's library calls are total and never throw, so it has no partial step.
- Foreign calls: `cv.Rodrigues`, `Matrix4.getInverse`, `Euler.setFromRotationMatrix`, `radToDeg`, `degToRad`, `Math.cos` and `Math.sin`. They are library floating-point code, so they enter as the fields of `Library` and nothing is assumed about them. Consequences:
  - It is not proved that a marker aligned with the reference reads zero angles.
  - The numeric scenario "a 30 degree Y rotation reads as `r0y` = 30" is not proved.
  - The one property of the library that is used, cosine² + sine² = 1, is a stated precondition (`Externals.TrigUnit`).
- Floating point: all arithmetic is exact over the reals. The model has no rounding, no NaN or infinity propagation, and no rounding of curve 0's coordinates to 32-bit floats when they are packed into a `Float32Array`.
- Homogeneous division: Matrix4 is reduced to its 3x3 block, which drops `applyMatrix4`'s perspective divide. Every matrix built here divides by 1.
- Axis orientation: `axis.setRotationFromMatrix` converts the matrix to a quaternion inside the renderer. The model records the matrix itself as the axis helper's rotation.
- Rendering: scene, camera, renderer and controls construction, mesh materials, the second curve (which is created but never given points), `BufferAttribute` upload, `computeBoundingSphere`, and the window-resize handler. These are rendering and UI.
- `app.py`: a Flask endpoint that converts a JPEG frame to grayscale and back to base64. It is network I/O over library calls.
- Concurrency: the two loops never interleave inside a call. `UpdateScene` takes the channels as they are when it runs.
