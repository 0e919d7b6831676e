# Behavioural screening services, modelled in Dafny

This project models the two pieces of self-contained logic in the services of
a browser-based behavioural screening tool:

- **The streaming score** (`InferenceService.processStreamingData`). It takes a
  window of behavioural samples. A window of fewer than 10 samples scores 0.
  Otherwise the score is the sum of the horizontal gaze steps
  `|gazeX[i] - gazeX[i-1]|` over consecutive samples, divided by the window
  length, times 50, capped at 100.
- **The simple pose service** (`SimplePoseService`). It locates a face by skin
  tone:
  - One pass over the RGBA bytes of a 320x240 canvas counts the skin-coloured
    pixels, sums their coordinates and keeps their bounding box.
  - More than 500 such pixels make a face. The face's centre, size and
    confidence are clamped.
  - A face is turned into a synthetic 33-keypoint body pose. When no face is
    found, a fixed fallback pose is returned.
  - The service also has a small lifecycle: lazy initialisation, the
    remembered last face position, and disposal.

Files:

- `inference_service.dfy`: the score as a recursive left fold, plus lemmas.
- `face_detection.dfy`:
  - the pixel scan as a specification function (`Scan`) and its lemmas;
  - the imperative scan loop (`DetectFace`), proved against `Scan`.
- `pose_generation.dfy`:
  - the keypoint table (`FaceKeypoint`);
  - the imperative keypoint loop (`GeneratePoseFromFace`), proved against that
    table;
  - the fallback pose, and lemmas about ranges, scores and symmetry.
- `pose_service.dfy`: the `SimplePoseService` class with the same fields the
  source updates.
- `types.dfy`, `real_math.dfy`, `option.dfy`: value types mirrored from
  types.ts, `Math.min`/`max`/`abs` and clamping on reals, and `Option` for
  results that may be `null`.

The browser's part is passed in as parameters:

- `Dom.canCreateCanvas`: `document.createElement` throws when it is false.
- `Dom.has2DContext`: `getContext` returns null when it is false.
- `VideoFrame.readyState`: the video's ready state.
- `VideoFrame.pixels`: the bytes `getImageData` returns after `drawImage`. It is
  `None` when drawing or reading throws.
- `sqrt`: `Math.sqrt`, as a function-typed parameter. No property depends on
  its value.

## Model

| member | source | states |
|---|---|---|
| `InferenceService.GazeVariability` | services/InferenceService.ts:12-15 | The gazeX variability accumulated by the `reduce` is never negative. |
| `InferenceService.ProcessStreamingData` | services/InferenceService.ts:8-18 | A window of fewer than 10 samples scores exactly 0. Every score lies in [0, 100]. |
| `InferenceService.ScoreIsCappedScaledMean` | services/InferenceService.ts:17 | When the mean step times 50 is at most 100, the score equals it exactly. Above 100 the score is 100. |
| `InferenceService.VariabilityFromFront` | services/InferenceService.ts:12-15 | The sum runs over consecutive pairs. The first sample contributes no term of its own and enters only through its step to the second sample. |
| `InferenceService.OnlyGazeXMatters` | services/InferenceService.ts:12-17 | Two windows that agree on every gazeX have the same variability and the same score, whatever their other fields. |
| `InferenceService.SteadyGazeScoresZero` | services/InferenceService.ts:12-17 | A window in which gazeX never changes scores 0. |
| `InferenceService.VariabilityAtMostPairCount` | services/InferenceService.ts:12-15 | If every gazeX is in [0, 1], the variability is at most the number of consecutive pairs. |
| `InferenceService.NormalisedGazeScoresBelowFifty` | services/InferenceService.ts:12-17 | If every gazeX is in [0, 1], the score is below 50, so the cap at 100 never binds. |
| `FaceDetection.Scan` | services/poseDetectionService.ts:72-104 | After the first n pixels, the skin count is at most n. |
| `FaceDetection.SkinCountIsCardinality` | services/poseDetectionService.ts:80-97 | The scan's count equals the number of pixels whose (r, g, b) satisfy the skin-tone test. |
| `FaceDetection.IsSkinTone` | services/poseDetectionService.ts:86-89 | The eight colour conditions are equivalent to three ranges: red in (100, 220), green in (40, red - 15) and blue in (20, red). The test `r > 95` is implied by `r > 100`, and `r > g` with `|r - g| > 15` means `g < r - 15`. |
| `FaceDetection.InitialStats` | services/poseDetectionService.ts:72-78 | Count and sums start at 0. The box starts at minima (width, height) and maxima (0, 0). These are neutral, so the first skin pixel inside the canvas sets every edge to its own column and row. |
| `FaceDetection.Visit` | services/poseDetectionService.ts:86-102 | A pixel that fails the colour test leaves the statistics unchanged. A skin pixel raises the count by one and widens the box just enough to hold it: each edge either stays or moves to the pixel's column or row. |
| `FaceDetection.BoundingBoxCoversSkin` | services/poseDetectionService.ts:75-102 | Every skin pixel's column (`index % width`) and row (`index / width`) lies in [minX, maxX] x [minY, maxY]. Once a skin pixel has been seen, each of the four edges is the column or row of some skin pixel, and minX <= maxX < width and minY <= maxY < height. Before that, the statistics are the initial ones. |
| `FaceDetection.SumsWithinBox` | services/poseDetectionService.ts:95-102 | The coordinate sums lie between count x minimum and count x maximum of the bounding box. |
| `FaceDetection.FaceFromStats` | services/poseDetectionService.ts:106-121 | With 500 or fewer skin pixels there is no face. Otherwise x and y lie in [0.1, 0.9], size lies in [0.1, 0.5], and confidence = min(1, count/2000), which lies in (0, 1]. |
| `FaceDetection.CentreInsideBox` | services/poseDetectionService.ts:107-108 | Before clamping, the mean centre of the skin pixels lies inside their bounding box, measured in fractions of the canvas. |
| `FaceDetection.DetectFace` | services/poseDetectionService.ts:69-121 | The byte loop in steps of four computes exactly the scan's result. There is no face if and only if at most 500 pixels pass the skin-tone test. |
| `RealMath.Clamp` | services/poseDetectionService.ts:114-116 | `Math.max(lo, Math.min(hi, v))` lies in [lo, hi]. It is v when v is already in range, lo below it and hi above it. |
| `PoseGeneration.FaceKeypoint` | services/poseDetectionService.ts:130-177 | Body keypoints 5-32 lie in the unit square. Head keypoints 0-4 sit on the face centre's row or at most a tenth of the face size above it. Every score lies between 0.3 and 0.9 times a non-negative confidence. |
| `PoseGeneration.FacePose` | services/poseDetectionService.ts:124-185 | The pose has 33 keypoints and scores the face confidence. For a positive confidence every keypoint scores strictly less than the pose. |
| `PoseGeneration.GeneratePoseFromFace` | services/poseDetectionService.ts:124-185 | The loop builds exactly 33 keypoints, each equal to the table entry for its index. The pose score is the face confidence. |
| `PoseGeneration.PoseScoreTable` | services/poseDetectionService.ts:128-171 | Keypoint scores are the confidence times 0.9 (index 0), 0.8 (1-4), 0.7 (5-10), 0.6 (11-14), 0.5 (15-18), 0.4 (19-22), 0.5 (23-26), 0.4 (27-30) and 0.3 (31-32). |
| `PoseGeneration.BodyKeypointsInFrame` | services/poseDetectionService.ts:173-177 | Keypoints 5-32 have x and y in [0, 1] for every face. |
| `PoseGeneration.PairSharesBand` | services/poseDetectionService.ts:147-171 | An odd body index from 11 on and the next even index fall in the same band, which has a positive spread. |
| `PoseGeneration.MirroredBodyPairs` | services/poseDetectionService.ts:147-177 | Paired left (odd) and right (even) keypoints have the same y and score. Before clamping, their x lie at faceX - d·size and faceX + d·size. |
| `PoseGeneration.DetectorRangePoseInFrame` | services/poseDetectionService.ts:130-137 | For a face with centre in [0.1, 0.9], size in [0.1, 0.5] and confidence in (0, 1], all 33 keypoints, including the unclamped head points 0-4, have x, y and score in [0, 1]. |
| `PoseGeneration.DetectedPoseInFrame` | services/poseDetectionService.ts:45-51 | Feeding the detector's face into the pose generator gives 33 keypoints, all of them inside the unit square with scores in [0, 1]. |
| `PoseGeneration.FallbackPose` | services/poseDetectionService.ts:187-198 | The fallback pose has 33 keypoints on the line x = 0.5, all with score 0.3. They start at y = 0.5 and step down by 0.02. The overall score is 0.3. |
| `PoseGeneration.FallbackLeavesFrame` | services/poseDetectionService.ts:190-194 | The fallback y is not clamped: keypoint i has y <= 1 exactly when i <= 25. |
| `PoseService.Remembered` | services/poseDetectionService.ts:48 | The remembered position keeps the detected face's centre, size and confidence. Because it has a confidence, it is never the initial guess (0.5, 0.5, 0.2). |
| `PoseService.SimplePoseService.constructor` | services/poseDetectionService.ts:5-8 | A new service is uninitialised, has no canvas or context, and remembers the face position (0.5, 0.5, 0.2). |
| `PoseService.SimplePoseService.Initialize` | services/poseDetectionService.ts:10-24 | It succeeds exactly when the canvas can be created. It then holds a 320x240 canvas, a context if the browser gives one, and is initialised. On failure nothing changes. |
| `PoseService.SimplePoseService.DetectFaceInCanvas` | services/poseDetectionService.ts:61-62 | With no canvas or no context there is no face. Otherwise the answer is the detector's result for the canvas bytes. |
| `PoseService.SimplePoseService.EstimatePose` | services/poseDetectionService.ts:26-59 | It initialises lazily when not initialised. With no canvas, no context, ready state below 2 or a frame that cannot be drawn, it returns the fallback pose. A detected face overwrites the last face position and yields the face pose. Otherwise it returns the fallback pose and the last position is unchanged. |
| `PoseService.SimplePoseService.Dispose` | services/poseDetectionService.ts:232-237 | The canvas, the context and the initialised flag are cleared. The last face position stays. |
| `PoseService.EstimatedPoseShape` | services/poseDetectionService.ts:45-57 | Both kinds of estimated pose have 33 keypoints. A face pose lies inside the unit square, but the fallback pose's last keypoint lies below it. |

## Left out

- `estimatePoseFromImage` (services/poseDetectionService.ts:200-230) is not modelled. It draws the image onto a new canvas of the image's size (640x480 when the image reports no size). It then replaces the service's canvas and context with that canvas for good, without touching `isInitialized`. It runs `detectFaceInCanvas` and `generatePoseFromFace` on it and returns their pose, or the fallback pose, and it does not update `lastFacePosition`. The two video elements it creates are never used. Because it is left out, the model keeps the invariant that any canvas is the service's own 320x240 canvas (`SimplePoseService.Valid`), and `EstimatePose` requires frame bytes of that size. In the source neither holds after this method: a later `estimatePose` on an initialised service draws into and scans the image-sized canvas.
- Canvas creation, `drawImage` and `getImageData` (lines 12-15, 37-42, 64-68) are not modelled. The outcomes they produce are parameters of the model (`Dom`, `VideoFrame`).
- Only the failure of `document.createElement` is modelled as an exception inside `initialize`. No other statement in that `try` block throws.
- `Date.now()` timestamps on returned poses are not modelled, because a clock is not part of the model.
- The `console` logging is not modelled.
- The value of `Math.sqrt` is left abstract, as the parameter `sqrt`.
- All JavaScript numbers are modelled as mathematical reals. The model says nothing about IEEE-754 rounding, NaN or infinities. With a non-empty canvas no division by zero can arise.
- `async`/`await` is not modelled: each method runs to completion. Two overlapping `estimatePose` calls that interleave at the `await` of `initialize` are not modelled.
- The module-level singleton instance (lines 240-242) is not modelled; the class is modelled on its own.
- The optional `Keypoint.name` and `PoseResult.normalized` fields of types.ts are omitted, because this core never sets them.
- App.tsx awaits `processStreamingData` through a default import and reads `.score` from it. The model keeps the method as written, a static function returning a plain number.
- The other files are not part of this model: App.tsx, the components, server.js, geminiService.ts and cameraService.ts. They are UI, camera I/O, or calls to a remote language model.
