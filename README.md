# Pose-driven punch detector: a verified model of its decision logic

The repository is a webcam application that classifies a person's pose as
"neutral" or "punch". It has two front ends:

- a browser front end, in which a pose model yields named keypoints per frame,
  a detector compares them with the previous frame (movement) and checks whether a
  wrist is well above its shoulder (punch), and a context provider keeps the latest
  reading, a 20-value confidence history and an idle flag; a camera-shake wrapper
  starts a shake animation each time a punch begins;
- a desktop driver, which counts frames, skips a 60-frame warm-up, flattens each
  frame's landmarks into four values each, hands every 20 flattened frames to a
  sequence classifier, turns its output into a label, keeps an alert sound playing
  exactly while the label is "punch", and draws a box around the landmarks.

This project models that logic in Dafny, one module per source file:

| module | file | source |
|---|---|---|
| `Wrappers` | `wrappers.dfy` | optional values and error results |
| `PoseContext` | `pose_context.dfy` | `frontend/src/contexts/PoseContext.tsx` |
| `PoseDetector` | `pose_detector.dfy` | `frontend/src/components/PoseDetector.tsx` |
| `CameraShake` | `camera_shake.dfy` | `frontend/src/components/effects/CameraShake.tsx` |
| `LstmDriver` | `lstm_driver.dfy` | `main.py` |

State that the source updates in place is a class: the provider's state
(`PoseProvider`), the detector's cached previous estimate (`PoseDetector`), the
shake effect's `wasActive` ref (`ShakeEffect`) and the driver's counter, buffer,
label and alert flag (`Driver`). Loops of the source are methods with loop
invariants (`DetectMovement`, `Flatten`, `PixelCoordinates`); the expressions are
functions, and what the source promises about them is proved as lemmas.

Coordinates are `real`. The source's test `sqrt(dx*dx + dy*dy) > 10` is modelled as
`dx*dx + dy*dy > 100`, which is equivalent for reals. The clock (`Date.now()`), the
pose model's output, the sequence classifier's output and the frame size are
parameters. Sound calls are recorded in a ghost log, handed-off buffers in a ghost
list, and started shake animations in a counter.

In two places the code does less than its names suggest; the model follows the code:

- A reading's `lastMovementTime` looks meant to be carried forward from the previous
  reading when no movement is seen. The code (PoseDetector.tsx line 134) instead
  reads `lastMovementTime` from the cached pose estimate, which by then is the current
  estimate, and falls back to the clock when that property is absent or zero. The
  pose model never sets that property, so every classified frame is stamped with the
  current time (`PoseDetector.ModelEstimateStampedNow`), and the idle rule never holds
  within 10 seconds of a classified frame, even for a still but visible pose.
- Movement compares keypoints by their position in the list, not by name, and a
  current estimate longer than the cached one throws (modelled as
  `MissingPreviousKeypoint`).

## Model

| member | source | states |
|---|---|---|
| `PoseContext.InitialHistory` | frontend/src/contexts/PoseContext.tsx:39 | the history starts as exactly 20 zeros |
| `PoseContext.ShiftIn` | frontend/src/contexts/PoseContext.tsx:60-62 | pushing a value keeps a non-empty history's length, puts the value last and moves every other entry one place towards the front, dropping the oldest |
| `PoseContext.HistoryWindow` | frontend/src/contexts/PoseContext.tsx:60-62 | after any number of pushes a non-empty history keeps its length and holds the last entries of old history followed by the pushed values: it is a sliding window |
| `PoseContext.HistoryForgetsInitialZeros` | frontend/src/contexts/PoseContext.tsx:39-62 | after 20 or more pushes onto the initial history, it holds exactly the last 20 pushed values |
| `PoseContext.IdleBoundary` | frontend/src/contexts/PoseContext.tsx:46-52 | exactly 10000 ms since the last movement is not idle, 10001 ms is, and once idle the session stays idle as time passes |
| `PoseContext.UsePose` | frontend/src/contexts/PoseContext.tsx:82-88 | the lookup fails, with the provider error message, exactly when no provider is present, and otherwise returns the provider's value |
| `PoseContext.PoseProvider.constructor` | frontend/src/contexts/PoseContext.tsx:31-40 | the session starts neutral with confidence 0, no keypoints, the mount time as last movement, not detecting, not idle, and the all-zero history |
| `PoseContext.PoseProvider.IsPunchDetected` | frontend/src/contexts/PoseContext.tsx:58 | a punch is detected exactly when the current reading's action is punch |
| `PoseContext.PoseProvider.SetPoseData` | frontend/src/contexts/PoseContext.tsx:31-36 | the reading is replaced wholesale and nothing else changes |
| `PoseContext.PoseProvider.SetIsDetecting` | frontend/src/contexts/PoseContext.tsx:38 | the detecting flag is replaced and nothing else changes |
| `PoseContext.PoseProvider.AddConfidenceValue` | frontend/src/contexts/PoseContext.tsx:60-62 | the history becomes the shifted-in history and keeps exactly 20 entries |
| `PoseContext.PoseProvider.CheckIdle` | frontend/src/contexts/PoseContext.tsx:43-56 | one timer tick sets the idle flag to whether strictly more than 10000 ms have passed since the reading's last movement |
| `PoseDetector.MovementCases` | frontend/src/components/PoseDetector.tsx:65-87 | the first check reports no movement; later checks report movement iff some keypoint at the same list index moved more than 10 pixels, and no movement iff none did; a current estimate longer than the cached one is an error |
| `PoseDetector.DisplacedSymmetric` | frontend/src/components/PoseDetector.tsx:76-80 | whether a keypoint moved does not depend on which of the two positions is the earlier one |
| `PoseDetector.MovedSinceSymmetric` | frontend/src/components/PoseDetector.tsx:74-83 | movement between two equally long estimates is the same in both directions |
| `PoseDetector.StillPoseHasNoMovement` | frontend/src/components/PoseDetector.tsx:74-83 | an estimate compared with an identical one shows no movement |
| `PoseDetector.FindKeypoint` | frontend/src/components/PoseDetector.tsx:110-113 | the lookup finds nothing iff no keypoint has the name, and otherwise returns the first keypoint with that name |
| `PoseDetector.LocateJoints` | frontend/src/components/PoseDetector.tsx:110-118 | the four joints are available iff all four names occur among the keypoints, and then each is the first keypoint of the estimate with its name |
| `PoseDetector.Classify` | frontend/src/components/PoseDetector.tsx:119-128 | the action is punch iff a wrist is more than 100 pixels above its shoulder; confidence is 0.95 iff both are, 0.75 iff exactly one is, 0.9 iff neither is, so it is always one of 0.75, 0.9, 0.95 |
| `PoseDetector.OneSidedPunchExample` | frontend/src/components/PoseDetector.tsx:119-128 | left wrist at y 50 with its shoulder at 200 and right wrist at y 250 with its shoulder at 260 give punch with confidence 0.75 |
| `PoseDetector.ModelEstimateStampedNow` | frontend/src/components/PoseDetector.tsx:134 | a pose estimate without its own last-movement time is stamped with the current time, with or without movement, so the idle rule evaluated at that moment is false |
| `PoseDetector.PoseDetector.constructor` | frontend/src/components/PoseDetector.tsx:18 | the detector starts with no cached estimate |
| `PoseDetector.PoseDetector.DetectMovement` | frontend/src/components/PoseDetector.tsx:65-87 | the method reports the movement check's outcome and afterwards caches the current estimate, leaving the cache alone only when the comparison throws |
| `PoseDetector.PoseDetector.DetectPose` | frontend/src/components/PoseDetector.tsx:89-145 | no ready video or no pose changes nothing; otherwise movement is checked and cached even when joints are missing; missing joints leave reading and history unchanged; with all four joints the reading becomes the classification, the estimate's keypoints and the movement timestamp, and the same confidence is pushed onto the history |
| `CameraShake.EffectStep` | frontend/src/components/effects/CameraShake.tsx:14-24 | after the effect the remembered value equals the input, and a shake starts exactly when the input is on and was off |
| `CameraShake.ShakesAreRisingEdges` | frontend/src/components/effects/CameraShake.tsx:13-26 | over any run of inputs, the shakes started equal the false-to-true changes between consecutive values, counting the remembered value as the first |
| `CameraShake.ShakesFromMount` | frontend/src/components/effects/CameraShake.tsx:11-26 | from mount, the shakes started equal the number of times the input switches from off to on |
| `CameraShake.ShakeEffect.constructor` | frontend/src/components/effects/CameraShake.tsx:11 | the effect starts inactive with no shake started |
| `CameraShake.ShakeEffect.OnActive` | frontend/src/components/effects/CameraShake.tsx:13-26 | one run of the effect updates the remembered value and the shake count as the effect step says |
| `LstmDriver.FlattenedLayout` | main.py:32-36 | a flattened frame has four values per landmark, x, y, z and visibility in that order |
| `LstmDriver.Flatten` | main.py:32-36 | the loop produces the flattened frame |
| `LstmDriver.Truncate` | main.py:87 | the integer conversion drops the fraction towards zero |
| `LstmDriver.PixelCoordinates` | main.py:84-89 | the pixel lists have one entry per landmark, the landmark's coordinate scaled by the frame size and truncated |
| `LstmDriver.Min` | main.py:92 | the result is an element no larger than any element |
| `LstmDriver.Max` | main.py:92 | the result is an element no smaller than any element |
| `LstmDriver.BoundingBox` | main.py:84-92 | the box exists iff there are coordinates; its left and right edges are the smallest and largest column, its bottom the largest row and its top 25 above the smallest row, so every landmark lies inside |
| `LstmDriver.LandmarkBoxFromPixels` | main.py:84-92 | the pixel lists built landmark by landmark give the box of the landmarks |
| `LstmDriver.LabelFor` | main.py:52-58 | the label is punch iff the classifier output is strictly above 0.5 |
| `LstmDriver.Driver.constructor` | main.py:28-30 | the driver starts with no frames, an empty buffer, label neutral and no alert |
| `LstmDriver.Driver.Detect` | main.py:47-62 | the label follows the output; the alert starts only on a change to punch while silent and stops only on a change to neutral while playing, so it plays exactly while the label is punch and the sound calls alternate play, stop |
| `LstmDriver.Driver.BufferFrame` | main.py:78-82 | a frame is appended to the buffer; a buffer reaching 20 frames is handed to exactly one classifier call and cleared, the label follows the verdict and the alert is started or stopped only on a label change |
| `LstmDriver.Driver.ProcessFrame` | main.py:64-92 | every pass counts the frame; during the first 60 frames or without landmarks nothing is buffered and no box is drawn; afterwards the flattened frame is buffered, full buffers are classified with the label following the verdict and the alert toggled only on a label change, the box is drawn, and the buffer stays below 20 frames |

## Left out

- Pose model and camera (PoseDetector.tsx 28-63, 104): model loading, `estimatePoses` and camera permission are not modelled; the estimates and the video readiness are parameters of `DetectPose`.
- Model load failure and camera denial states (PoseDetector.tsx 42-62, 147-162) and the canvas resize (99-102): view state with no logic beyond flags.
- Animation-frame rescheduling and the one-second idle timer (PoseDetector.tsx 141-143, PoseContext.tsx 43-56): one step is modelled, with the time passed in.
- PoseContext.PoseProvider.CheckIdle: the model lets a tick run at any moment, but in the source the interval is cleared and re-created whenever `lastMovementTime` changes (PoseContext.tsx 56), so a tick runs only after `lastMovementTime` has stayed unchanged for 1000 ms; while frames are classified more often than that, no tick runs and the idle flag keeps its old value.
- `Math.sqrt` and floating point: coordinates are exact reals; NaN, which JavaScript's `||` also treats as false, is not modelled.
- PoseDetector.PoseDetector.DetectPose: an estimate longer than the cached one throws inside the asynchronous call, which ends the loop; the model returns the error instead.
- LstmDriver.BoundingBox: `min` of an empty landmark list raises an error that ends the program; the model returns no box.
- LstmDriver.Driver.ProcessFrame: the classifier runs in a worker thread, so in the source the label may change some frames later and may race with drawing; the model runs it at once.
- Capture, drawing and shutdown of the driver (main.py 14-27, 38-45, 68-72, 91-103): OpenCV, MediaPipe, the model file, pygame, the colour choice, the exit on a failed read or the `q` key, and the unused DataFrame are I/O.
- Rendering components (`App.tsx`, `IdleDetector.tsx`, `ConfidenceGraph.tsx`, `ActionEffect.tsx`, `PoseLandmarks.tsx`, `HolographicHUD.tsx`, `AppHeader.tsx`), `ui.py` (a Tkinter window with a thread) and `model/try.py` (model plotting): no decision logic.
- The shake animation itself (CameraShake.tsx 15-18): a framer-motion call, counted as one started shake.
