# Camera calibration and AR projection: a Dafny model

This project models the core of the vision layer of an augmented-reality
overlay library. The core has two parts.

- **The `Calibration` object** (`src/Vision/Calibration.js`) is modelled as an
  immutable record with pure transitions. It collects chessboard samples:
  - the image points of a detected board;
  - the fixed 9×6 board template at 25 mm pitch.

  It is armed to capture the next detected board. It hands the samples to a
  calibration solver and keeps the resulting intrinsics: a row-major 3×3
  camera matrix and five distortion coefficients. It persists the
  intrinsics under the key `${name}/calibration`.
- **The geometry helpers** (`src/Vision/helpers.js`) are modelled over `real`:
  - the letterbox fit that `drawVideoFrameToCanvas` computes before drawing a
    video frame;
  - `computeProjMat`, which multiplies six 4×4 matrices in a fixed order to
    turn a camera pose and the camera matrix into the renderer's projection
    matrix.

Files:

- `matrix4.dfy` (module `Matrix4`): gl-matrix `mat4` values. These are 16 reals
  in column-major order, so element k is row k mod 4, column k div 4.
  `mat4.mul(out, a, b)` stores the mathematical product a·b. The module also
  proves that in a product the right operand acts first.
- `helpers.dfy` (module `Helpers`): the letterbox fit, the five matrix builders
  of `computeProjMat` and the composed projection.
- `calibration.dfy` (module `Calibration`): the chessboard template, the
  object state, every transition, `localStorage` as a map, and runs of
  events.

The corner detector and the solver are parameters:

- A detection is the detector's outcome on one frame: `None` or `Some(corners)`.
- The solver is a function from the samples and the image size to
  `Option<Intrinsics>`. `None` stands for the solver throwing. The exception
  leaves the object and the storage as they were, because nothing is assigned
  before the call returns.

`localStorage` is a `map<string, Intrinsics>`. The model takes the JSON round
trip to be exact.

Facts about the code that the model keeps:

- **Translation position.** gl-matrix's `fromValues` is column-major, so
  `transMat` (`helpers.js:31-36`) puts tvec in the fourth column of the
  mathematical matrix. The principal-point terms of `scaleMat`
  (`helpers.js:52-57`) also land in the fourth column.
- **Identity pose.** Take the identity rotation, zero translation and the
  identity view. The fourth column of the result is then zero, because the
  fourth column of `perspMat` is zero. The flip negates the perspective
  term, so −1/f sits at row 3, column 2, as `ProjMatAtIdentityPose` states.
- **No sample minimum.** `calibrate` (`Calibration.js:132-170`) does not
  check for a minimum number of samples. It has no separate status for a
  solver failure either.

## Model

| member | source | states |
|---|---|---|
| Matrix4.Identity | src/Vision/helpers.js:13 | `mat4.create()` has 1 on the diagonal and 0 elsewhere |
| Matrix4.Mul | src/Vision/helpers.js:29 | the buffer `mat4.mul(out, a, b)` writes holds, at row i and column j, row i of a times column j of b |
| Matrix4.MulApply | src/Vision/helpers.js:29-59 | applying a product a·b to any vector is applying b first, then a |
| Helpers.LetterboxFit | src/Vision/helpers.js:3-6 | the scaled image fits the canvas in both directions and touches it in at least one; the offsets centre it (2x + w·ratio = canvas width, likewise for y) and are non-negative |
| Helpers.LetterboxFitIsLargest | src/Vision/helpers.js:4 | every uniform scale at which the image fits inside the canvas is at most the chosen ratio |
| Helpers.FlipMatLayout | src/Vision/helpers.js:15-20 | the flip is diag(1, -1, -1, 1) |
| Helpers.FlipMatAction | src/Vision/helpers.js:15-20 | the flip negates y and z of a point and keeps x and w |
| Helpers.RotMatLayout | src/Vision/helpers.js:22-27 | entry (i, j) of the upper-left block is rmat[3i + j], i.e. rmat read row-major; the last row and column are (0, 0, 0, 1) |
| Helpers.RotMatAction | src/Vision/helpers.js:22-27 | the rotation stage multiplies (x, y, z) by the row-major rmat and keeps w |
| Helpers.TransMatLayout | src/Vision/helpers.js:31-36 | the translation matrix is the identity except for its fourth column, (tvec[0], tvec[1], tvec[2], 1) |
| Helpers.TransMatAction | src/Vision/helpers.js:31-36 | the translation stage adds w·tvec to (x, y, z), so a point with w = 1 moves by tvec |
| Helpers.PerspMatLayout | src/Vision/helpers.js:41-48 | the first three rows are the identity's; the last row is (0, 0, 1/f, 0) with f = cameraMatrix[0] |
| Helpers.PerspMatAction | src/Vision/helpers.js:43-48 | the perspective stage maps (x, y, z, w) to (x, y, z, z/f): the incoming w is discarded |
| Helpers.ScaleMatLayout | src/Vision/helpers.js:52-57 | ratio on the first three diagonal entries, 1 in the corner, fourth column (cameraMatrix[2]·ratio, cameraMatrix[5]·ratio, 0, 1), zeros elsewhere |
| Helpers.ScaleMatAction | src/Vision/helpers.js:52-57 | the scale stage scales (x, y, z) by ratio and shifts x, y by w times the scaled principal point |
| Helpers.ComputeProjMat | src/Vision/helpers.js:11-60 | the matrix built by successive `mat4.mul` calls, each new factor on the left, acts on any point as flip, rotation, translation, view, perspective and scale applied in that order, i.e. it is the product S·P·V·T·R·F |
| Helpers.ProjMatReadsFocalAndPrincipalPoint | src/Vision/helpers.js:41-57 | two camera matrices that agree at indices 0, 2 and 5 give the same projection |
| Helpers.ProjMatAtIdentityPose | src/Vision/helpers.js:11-60 | with identity rotation, zero translation and identity view the result is [r,0,0,0, 0,-r,0,0, -cx·r/f, -cy·r/f, -r, -1/f, 0,0,0,0] |
| Calibration.Template | src/Vision/Calibration.js:80-89 | the template has 9·6 = 54 corners, every one with z = 0, x in [0, 200] and y in [0, 125] |
| Calibration.TemplateRowMajor | src/Vision/Calibration.js:80-87 | the corner in column i and row j sits at index 9j + i and equals (25i, 25j, 0): rows outer, columns inner |
| Calibration.TemplateDistinct | src/Vision/Calibration.js:80-89 | no two template corners coincide |
| Calibration.Flatten | src/Vision/Calibration.js:83-85 | the flat array has three numbers per point, and numbers 3k, 3k+1, 3k+2 are x, y, z of point k |
| Calibration.PointsFromArray | src/Vision/Calibration.js:89 | reading a flat array as three-channel points gives one point per three numbers |
| Calibration.PointsFromFlatten | src/Vision/Calibration.js:89 | reading a flattened point list back as three-channel points gives the same points |
| Calibration.FlattenOfPoints | src/Vision/Calibration.js:89 | flattening the points read from an array whose length is a multiple of 3 gives back the array |
| Calibration.FlattenSnoc | src/Vision/Calibration.js:83-85 | appending one point to the list appends its x, y, z to the flat array |
| Calibration.TemplatePrefixSnoc | src/Vision/Calibration.js:83-85 | one more corner in row-major order adds exactly (25i, 25j, 0) to the flat array |
| Calibration.ConstructChessboardCoordinates | src/Vision/Calibration.js:76-90 | the nested loops push 162 numbers, exactly the flattened template, and reading them back as three-channel points gives the template |
| Calibration.Key | src/Vision/Calibration.js:50 | the storage key is the profile name followed by `/calibration` |
| Calibration.KeyInjective | src/Vision/Calibration.js:50 | distinct profile names have distinct storage keys `${name}/calibration` |
| Calibration.RemoveCalibrationData | src/Vision/Calibration.js:37-47 | returns true iff intrinsics were present; afterwards none are, and nothing else changes |
| Calibration.LoadCalibrationData | src/Vision/Calibration.js:49-61 | returns true iff the profile's key is stored; then the intrinsics are the stored ones; otherwise the state is untouched; only the intrinsics ever change |
| Calibration.StoreCalibrationData | src/Vision/Calibration.js:63-74 | returns true iff intrinsics are present; then they are stored under the profile's key; without them storage is unchanged; no other key is added or changed |
| Calibration.Init | src/Vision/Calibration.js:8-17 | a new object is unarmed, has no samples, satisfies the invariant, and holds the stored intrinsics for its name if there are any, none otherwise |
| Calibration.InitDefault | src/Vision/Calibration.js:8-17 | a new object built without a name uses the profile `default_camera`: it is unarmed, empty and valid, and it holds intrinsics iff `default_camera/calibration` is stored, namely the stored ones |
| Calibration.SetCaptureNext | src/Vision/Calibration.js:123-125 | afterwards the object is armed and nothing else has changed |
| Calibration.CaptureCalibrationPoints | src/Vision/Calibration.js:127-130 | exactly one sample is appended to each sequence, the earlier samples are kept, and nothing else changes |
| Calibration.FindChessBoardCorners | src/Vision/Calibration.js:92-121 | a detection while armed appends the corners and the template and disarms, changing nothing else; an unarmed object or a failed detection changes nothing, so an armed object stays armed |
| Calibration.Calibrate | src/Vision/Calibration.js:132-170 | the result is None iff the solver throws; otherwise the intrinsics become the solver's output on all samples; the result is stored under the profile's key, no other key changes, and the returned pair equals the stored one |
| Calibration.SetCaptureNextIdempotent | src/Vision/Calibration.js:123-125 | arming twice is the same as arming once |
| Calibration.RemoveTwice | src/Vision/Calibration.js:37-47 | a second removal right after the first returns false and changes nothing |
| Calibration.StoreThenLoad | src/Vision/Calibration.js:49-74 | storing and then loading under the same profile name restores exactly the stored camera matrix and distortion coefficients |
| Calibration.StoreKeepsOtherProfiles | src/Vision/Calibration.js:63-74 | storing under one profile does not change what another profile loads |
| Calibration.CalibrationSurvivesRestart | src/Vision/Calibration.js:156-164 | after a successful calibration, a new object with the same name starts out holding the solver's intrinsics |
| Calibration.CaptureOnlyOncePerArm | src/Vision/Calibration.js:110-117 | arm, then two detections: the first is captured and disarms, and the second changes nothing |
| Calibration.Step | src/Vision/Calibration.js:37-170 | no transition renames the object, drops or rewrites an image-point or object-point sample, or adds or changes a storage key other than the profile's own |
| Calibration.StepPreservesValid | src/Vision/Calibration.js:110-130 | every transition keeps the invariant: equal-length sample sequences and every object-point sample equal to the template |
| Calibration.RunPreservesValid | src/Vision/Calibration.js:110-130 | the invariant holds after any sequence of transitions |
| Calibration.RunKeepsHistory | src/Vision/Calibration.js:37-170 | over any sequence of transitions, image-point and object-point samples are only appended, the name stays, and no storage key other than the profile's own is added or changed |
| Calibration.ReachableIsValid | src/Vision/Calibration.js:8-17 | every object reachable from construction satisfies the invariant |

## Left out

- Helpers.LetterboxFit requires positive image sizes. A zero image dimension divides by zero in JavaScript (`helpers.js:4`). Suppose one image dimension is zero and the canvas dimension in that direction is positive. Then `Math.min` picks the other, finite ratio, and that offset is half the canvas size. If that canvas dimension is also 0, the quotient is 0/0 = `NaN`, so the ratio and both offsets are `NaN`. With both image dimensions zero, the ratio is `Infinity` or `NaN`. Division by zero and IEEE special values are not modelled.
- Helpers.PerspMatLayout, Helpers.PerspMatAction, Helpers.ComputeProjMat, Helpers.ProjMatReadsFocalAndPrincipalPoint and Helpers.ProjMatAtIdentityPose require cameraMatrix[0] ≠ 0. JavaScript's `1/0 = Infinity` is not modelled.
- Floating point: every number is a `real`, and rounding is not modelled. This covers:
  - float32 storage of the template (`CV_32FC3`);
  - float64 storage of the intrinsics;
  - gl-matrix `mat4` values, which are `Float32Array`s, so every `mat4.mul` in `computeProjMat` (`helpers.js:29-59`) rounds to float32.
- OpenCV corner detection (`cv.findChessboardCorners`) and the solver (`cv.calibrateCameraExtended`) are external numerics. They are parameters here. The solver's extra outputs (per-view rotations and translations, standard deviations, per-view errors) are discarded by the code and are not modelled.
- Corner highlighting (`cv.circle`) and `drawImage` are drawing I/O. Only the arithmetic before `drawImage` is modelled.
- `destroy` (`Calibration.js:19-26`) does to the modelled state what `RemoveCalibrationData` does: it clears the intrinsics. It also deletes both sample vectors through `removeCalibrationPoints`, after which the object cannot capture or calibrate and is not used again. The model has no destroyed state. `Mat`/`MatVector` allocation, every `delete()` call and the resulting leaks are native memory management and are not modelled.
- `localStorage` and `JSON.stringify`/`JSON.parse` are abstracted to a map with an exact round trip. A stored value that does not parse, or parses to arrays of the wrong length, is not modelled. Neither is an empty stored string, which the code's truthiness test would treat as absent. `window.localStorage`, `getItem` and `setItem` are taken never to throw. In reality `setItem` can throw a quota error, and accessing `window.localStorage` can throw a security error. If `setItem` threw inside `calibrate`, the object would keep the new intrinsics (`Calibration.js:156-157`) without persisting them (`Calibration.js:164`), and nothing would be returned. `Calibration.Calibrate` does not model that outcome.
- gl-matrix is not part of this model. Its conventions are encoded in `Matrix4`: column-major `fromValues`, and `mul(out, a, b)` = a·b.
