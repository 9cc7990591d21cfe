# Push-up tracker: verified model of the rep counter and its helpers

This project is a Dafny model of the sequential logic in an Android push-up tracker. The model covers four parts:

- **Rep counter** (`PoseGraphic`, module `PoseDetector`). A two-field state machine (`inDownPhase`, `repCount`) is driven by the heights of the left shoulder and left elbow in image coordinates, where Y grows downwards.
  - Up → down happens when the shoulder is below the elbow.
  - Down → up happens only when the shoulder is more than 10 pixels above the elbow. This call also counts one rep.
  - `draw` guards the call: it returns early on an empty pose, and it throws (Kotlin `!!`) when one of the six landmarks it draws is missing.
- **Camera configuration helpers** (`CameraSource`, module `MlKitUtils`): facing validation, zoom-index lookup, preview/picture size pairing, nearest preview size, preview FPS range choice, rotation angles and the preview buffer size. The Android `Camera.Parameters` lists become plain sequences.
- **Frame throttle and NV21 packing** (`PoseProcessor`, module `Camera`).
  - Frames that arrive less than 150 ms after the last accepted frame are dropped.
  - An accepted frame's Y, V and U planes are copied into one byte array.
  - The detector's result is passed to a callback.
  - The image proxy is closed on every path.
- **Workout form** (`StartWorkoutScreen`, module `Home`): the digit-only text filter, the parse that maps an empty field to 0, the slider, the totals `reps*sets` and `interval*(sets-1)` as 32-bit Kotlin `Int`s, and the "M min S sec" duration text.

Module `JavaInts` holds the Java/Kotlin semantics the others need. These are `null` as `Option`, `Int` wrap-around, truncating `/` and `%`, and bytes.

The rep counter is the two fields `inDownPhase` and `repCount` of `PoseGraphic`; there is no `reset`, no event type and no configurable margin. `draw` throws a `NullPointerException` (`!!`) when a landmark it draws is missing; `PoseDetector.PoseGraphic.Draw` returns `NullLandmark` for that throw.

Clock readings, the display rotation, the camera's `CameraInfo` and the detector's behaviour are parameters of the operations that use them.

## Model

| member | source | states |
|---|---|---|
| `PoseDetector.PoseGraphic.constructor` | app/src/main/java/com/cmp/pushuptracker/mlKit/posedetector/PoseGraphic.kt:51-52 | A new graphic starts up (not down), with a rep count of 0 |
| `PoseDetector.PoseGraphic.UpdateRepCount` | app/src/main/java/com/cmp/pushuptracker/mlKit/posedetector/PoseGraphic.kt:55-70 | The new counter fields are exactly one `Step` of the old ones on the given shoulder and elbow heights |
| `PoseDetector.Step` | app/src/main/java/com/cmp/pushuptracker/mlKit/posedetector/PoseGraphic.kt:55-70 | One update never lowers the count and raises it by at most one |
| `PoseDetector.StepCountsIff` | app/src/main/java/com/cmp/pushuptracker/mlKit/posedetector/PoseGraphic.kt:64-67 | The count goes up exactly when the call starts down and shoulderY < elbowY − 10; that call also returns the phase to up |
| `PoseDetector.StepEntersDown` | app/src/main/java/com/cmp/pushuptracker/mlKit/posedetector/PoseGraphic.kt:56-63 | In the up phase, shoulderY > elbowY enters the down phase and keeps the count |
| `PoseDetector.StepSelfLoop` | app/src/main/java/com/cmp/pushuptracker/mlKit/posedetector/PoseGraphic.kt:58-70 | Up with shoulderY ≤ elbowY, or down with shoulderY ≥ elbowY − 10, changes neither phase nor count |
| `PoseDetector.StepIdempotent` | app/src/main/java/com/cmp/pushuptracker/mlKit/posedetector/PoseGraphic.kt:53-70 | Two updates with the same heights give the same state as one (the margin is non-negative) |
| `PoseDetector.RunMonotone` | app/src/main/java/com/cmp/pushuptracker/mlKit/posedetector/PoseGraphic.kt:55-70 | Over any frame sequence the count never decreases and grows by at most the number of frames |
| `PoseDetector.TransitionsAlternate` | app/src/main/java/com/cmp/pushuptracker/mlKit/posedetector/PoseGraphic.kt:61-67 | Phase changes strictly alternate between entering down and completing a rep, starting from the current phase; the final phase is the start phase flipped once per change |
| `PoseDetector.RunCountsEntries` | app/src/main/java/com/cmp/pushuptracker/mlKit/posedetector/PoseGraphic.kt:61-67 | Count plus "currently down" grows by exactly the number of up→down entries along the run |
| `PoseDetector.FreshRunCount` | app/src/main/java/com/cmp/pushuptracker/mlKit/posedetector/PoseGraphic.kt:51-67 | From a fresh graphic, reps = number of up→down entries, minus 1 while still down |
| `PoseDetector.JitterWhileDownIsIgnored` | app/src/main/java/com/cmp/pushuptracker/mlKit/posedetector/PoseGraphic.kt:64-67 | Once down, frames that never clear the 10-pixel margin leave the state unchanged (anti-jitter) |
| `PoseDetector.GetPoseLandmark` | app/src/main/java/com/cmp/pushuptracker/mlKit/posedetector/PoseGraphic.kt:113-118 | The lookup returns a landmark of the asked type from the pose, and null exactly when the pose has none of that type |
| `PoseDetector.PoseGraphic.Draw` | app/src/main/java/com/cmp/pushuptracker/mlKit/posedetector/PoseGraphic.kt:84-153 | An empty pose returns early and leaves the counter alone. A missing shoulder, hip or elbow (left or right) throws and leaves the counter alone. Otherwise the counter takes one step on the left shoulder and elbow heights and the new count is drawn |
| `MlKitUtils.CameraSource.constructor` | app/src/main/java/com/cmp/pushuptracker/mlKit/utils/CameraSource.java:80-83 | The source starts with the front camera, and its facing is valid |
| `MlKitUtils.CameraSource.SetFacing` | app/src/main/java/com/cmp/pushuptracker/mlKit/utils/CameraSource.java:230-235 | Accepts exactly back or front and stores it. Any other value is refused (the exception) and leaves `facing` unchanged, so `facing` stays valid |
| `MlKitUtils.GetZoomValue` | app/src/main/java/com/cmp/pushuptracker/mlKit/utils/CameraSource.java:279-289 | Result in [0, maxZoom]. Every ratio at indices 1..result is ≤ zoom. Below maxZoom, the next ratio exceeds zoom (the first such index) |
| `MlKitUtils.FirstAspectMatch` | app/src/main/java/com/cmp/pushuptracker/mlKit/utils/CameraSource.java:466-472 | Returns the earliest picture size with the preview's aspect ratio, and null exactly when there is none |
| `MlKitUtils.MatchedPairsAreSubsequence` | app/src/main/java/com/cmp/pushuptracker/mlKit/utils/CameraSource.java:460-473 | Matched pairs follow the preview list in order (strictly increasing positions, so each preview entry is used at most once), each with its first same-aspect picture size |
| `MlKitUtils.MatchedPairsComplete` | app/src/main/java/com/cmp/pushuptracker/mlKit/utils/CameraSource.java:460-473 | Every preview size that has a same-aspect picture size is in the matched list |
| `MlKitUtils.MatchedPairsEmptyIff` | app/src/main/java/com/cmp/pushuptracker/mlKit/utils/CameraSource.java:460-478 | The matched list is empty exactly when no preview size has a same-aspect picture size |
| `MlKitUtils.ValidPreviewSizesProperties` | app/src/main/java/com/cmp/pushuptracker/mlKit/utils/CameraSource.java:475-486 | The result is empty only when there are no preview sizes. With no match, it holds every preview size in order with a null picture. Otherwise it is the matched list |
| `MlKitUtils.GenerateValidPreviewSizeList` | app/src/main/java/com/cmp/pushuptracker/mlKit/utils/CameraSource.java:455-487 | The list built by appending in the nested loops (with `break`) and the fallback loop equals `ValidPreviewSizes` |
| `MlKitUtils.SelectSizePair` | app/src/main/java/com/cmp/pushuptracker/mlKit/utils/CameraSource.java:403-423 | Null exactly when no valid pair beats the `Integer.MAX_VALUE` start. Otherwise the result is a valid pair of minimal L1 distance to the requested size, and the earliest such pair on ties |
| `MlKitUtils.SizeDiffBelowSentinel` | app/src/main/java/com/cmp/pushuptracker/mlKit/utils/CameraSource.java:305-311 | With the default 1280×720 request and camera-sized dimensions, every distance beats the sentinel, and the valid list is non-empty whenever there are preview sizes |
| `MlKitUtils.FpsSelection` | app/src/main/java/com/cmp/pushuptracker/mlKit/utils/CameraSource.java:506-520 | The range the loop holds after scanning a list: null exactly for the empty list, otherwise one of the listed ranges |
| `MlKitUtils.FpsSelectionMonotone` | app/src/main/java/com/cmp/pushuptracker/mlKit/utils/CameraSource.java:513-518 | Running minima never increase: the choice after more ranges is no worse on both keys (upper-bound distance, lower bound) than any earlier choice |
| `MlKitUtils.FpsSelectionLastWins` | app/src/main/java/com/cmp/pushuptracker/mlKit/utils/CameraSource.java:513-518 | The choice is the range at some position, and every later range is strictly worse on at least one key, so a later range wins ties |
| `MlKitUtils.SelectPreviewFpsRange` | app/src/main/java/com/cmp/pushuptracker/mlKit/utils/CameraSource.java:497-521 | The loop with its two `Integer.MAX_VALUE` sentinels returns exactly `FpsSelection`: null exactly for an empty list, a choice no worse than the first range on both keys, and no later range no worse than the choice |
| `MlKitUtils.RotationDegrees` | app/src/main/java/com/cmp/pushuptracker/mlKit/utils/CameraSource.java:554-561 | The camera rotation: (orientation + degrees) % 360 for the front camera, (orientation − degrees + 360) % 360 for the back, with Java's `%`; its range is stated by the two angle lemmas |
| `MlKitUtils.DisplayAngle` | app/src/main/java/com/cmp/pushuptracker/mlKit/utils/CameraSource.java:554-561 | The display angle: (360 − rotation) % 360 for the front camera (mirror compensation), the rotation itself for the back |
| `MlKitUtils.DisplayDegrees` | app/src/main/java/com/cmp/pushuptracker/mlKit/utils/CameraSource.java:532-549 | ROTATION_0/90/180/270 map to 0/90/180/270 degrees; any other value gives 0 |
| `MlKitUtils.FrontCameraAngles` | app/src/main/java/com/cmp/pushuptracker/mlKit/utils/CameraSource.java:554-557 | Front camera with orientation ≥ 0: rotation and display angle both lie in [0,360) and sum to 0 mod 360 |
| `MlKitUtils.BackCameraAngles` | app/src/main/java/com/cmp/pushuptracker/mlKit/utils/CameraSource.java:558-561 | Back camera with orientation ≥ 0: the display angle equals the rotation, which lies in [0,360) |
| `MlKitUtils.CameraSource.SetRotation` | app/src/main/java/com/cmp/pushuptracker/mlKit/utils/CameraSource.java:530-569 | Stores the rotation and returns the display angle given by the angle functions above, with Java's `%` |
| `MlKitUtils.PreviewBufferSize` | app/src/main/java/com/cmp/pushuptracker/mlKit/utils/CameraSource.java:579-582 | The size is ceil(w·h·12/8) + 1 bytes, characterised by 8(size−1) ≥ bits > 8(size−2) |
| `MlKitUtils.PreviewBufferLargerThanFrame` | app/src/main/java/com/cmp/pushuptracker/mlKit/utils/CameraSource.java:580-582 | The buffer holds strictly more bytes than the NV21 frame's bits need |
| `Camera.PoseProcessor.constructor` | app/src/main/java/com/cmp/pushuptracker/camera/PoseProcessor.kt:23-26 | `lastAnalyzedTime` starts at 0, with no landmarker |
| `Camera.PoseProcessor.InitPoseLandmarker` | app/src/main/java/com/cmp/pushuptracker/camera/PoseProcessor.kt:28-38 | After initialisation the landmarker is present |
| `Camera.PoseProcessor.AnalyzeImage` | app/src/main/java/com/cmp/pushuptracker/camera/PoseProcessor.kt:40-68 | See the paragraph below the table |
| `Camera.AcceptedTimesSpaced` | app/src/main/java/com/cmp/pushuptracker/camera/PoseProcessor.kt:42-47 | Each accepted frame is ≥ 150 ms after the previous accepted one and after the start time, even if the clock is not monotonic. Accepted times are frame times |
| `Camera.AcceptedTimesPairwiseSpaced` | app/src/main/java/com/cmp/pushuptracker/camera/PoseProcessor.kt:42-47 | Accepted frames i < j are at least 150·(j−i) ms apart |
| `Camera.AcceptedTimes` | app/src/main/java/com/cmp/pushuptracker/camera/PoseProcessor.kt:42-47 | The frame times that pass the throttle in a stream, each compared with the last one accepted; its spacing is stated by the two lemmas above |
| `Camera.AnalyzeFrames` | app/src/main/java/com/cmp/pushuptracker/camera/PoseProcessor.kt:41-68 | Feeding a stream of frames to `AnalyzeImage` analyses exactly the frames `AcceptedTimes` picks, so consecutive analysed frames are at least 150 ms apart |
| `Camera.ImageProxy.Close` | app/src/main/java/com/cmp/pushuptracker/camera/PoseProcessor.kt:44-66 | Each `close()` is counted, so `AnalyzeImage` can state that every path closes the proxy exactly once |
| `Camera.BufferGet` | app/src/main/java/com/cmp/pushuptracker/camera/PoseProcessor.kt:81-83 | A plane's bytes land at the given offset; the rest of the array is unchanged |
| `Camera.PackNv21` | app/src/main/java/com/cmp/pushuptracker/camera/PoseProcessor.kt:70-83 | A new array of length ySize+uSize+vSize whose contents are exactly the NV21 layout `Nv21` of the image |
| `Camera.Nv21Layout` | app/src/main/java/com/cmp/pushuptracker/camera/PoseProcessor.kt:81-83 | In the NV21 layout, Y fills [0,ySize), V fills [ySize, ySize+vSize) and U fills the rest, with no other bytes |
| `Home.NatToStringRoundTrip` | app/src/main/java/com/cmp/pushuptracker/ui/screen/home/StartWorkoutScreen.kt:199-204 | The decimal text of a number is non-empty digits, and reading it back gives the number |
| `Home.ParseField` | app/src/main/java/com/cmp/pushuptracker/ui/screen/home/StartWorkoutScreen.kt:74-78 | Empty text parses to 0. Other digit text parses to its decimal value when that fits an `Int`, and `toInt` throws otherwise |
| `Home.AllDigits` | app/src/main/java/com/cmp/pushuptracker/ui/screen/home/StartWorkoutScreen.kt:114 | The `\d*` filter: the whole text is ASCII digits, possibly none |
| `Home.ParseFieldRoundTrip` | app/src/main/java/com/cmp/pushuptracker/ui/screen/home/StartWorkoutScreen.kt:74-78 | Any count up to `Int.MAX_VALUE`, written out, parses back to itself |
| `Home.TotalReps` | app/src/main/java/com/cmp/pushuptracker/ui/screen/home/StartWorkoutScreen.kt:86 | Total reps is a Kotlin `Int`, equal to reps·sets whenever that fits |
| `Home.TotalRest` | app/src/main/java/com/cmp/pushuptracker/ui/screen/home/StartWorkoutScreen.kt:86 | Total rest is a Kotlin `Int`, equal to interval·(sets−1) whenever that fits |
| `Home.DurationWithoutReps` | app/src/main/java/com/cmp/pushuptracker/ui/screen/home/StartWorkoutScreen.kt:201 | With 0 total reps the text is "0 sec", whatever the interval |
| `Home.DurationText` | app/src/main/java/com/cmp/pushuptracker/ui/screen/home/StartWorkoutScreen.kt:199-206 | The `buildString` of the card: minutes and seconds by truncating `/` and `%`, joined by the four conditional appends; its shapes and read-back are the lemmas below |
| `Home.DurationTextShapes` | app/src/main/java/com/cmp/pushuptracker/ui/screen/home/StartWorkoutScreen.kt:199-206 | With m = interval/60 and s = interval%60 the text is "m min s sec", "m min", "s sec" or "0 sec" according to which of m, s are positive |
| `Home.DurationTextNonEmpty` | app/src/main/java/com/cmp/pushuptracker/ui/screen/home/StartWorkoutScreen.kt:201-206 | The text is never empty when there are no reps or the interval is non-negative |
| `Home.DurationTextRoundTrip` | app/src/main/java/com/cmp/pushuptracker/ui/screen/home/StartWorkoutScreen.kt:198-206 | Reading the duration text back gives exactly the interval, in seconds |
| `Home.RestWithinSliderBound` | app/src/main/java/com/cmp/pushuptracker/ui/screen/home/StartWorkoutScreen.kt:86 | With the slider in 0..60 and non-zero total reps, sets ≥ 1 and the rest lies in [0, 60·(sets−1)] while that bound fits an `Int` |
| `Home.StartWorkoutScreen.constructor` | app/src/main/java/com/cmp/pushuptracker/ui/screen/home/StartWorkoutScreen.kt:53-55 | Interval, sets and reps start at 0 and both fields are empty, while the slider shows 30 |
| `Home.StartWorkoutScreen.OnFieldValueChange` | app/src/main/java/com/cmp/pushuptracker/ui/screen/home/StartWorkoutScreen.kt:71-117 | See the paragraph below the table |
| `Home.StartWorkoutScreen.OnFieldValueChangeCorrected` | app/src/main/java/com/cmp/pushuptracker/ui/screen/home/StartWorkoutScreen.kt:113-117 | Corrected handler: an edit the corrected filter refuses changes nothing, any other is stored and parsed; it never crashes and keeps every count equal to its field's value |
| `Home.InfoCardDurationReadsBack` | app/src/main/java/com/cmp/pushuptracker/ui/screen/home/StartWorkoutScreen.kt:86 | In any reachable state with totals that fit an `Int`, the card's duration text is non-empty and, with reps, reads back as interval·(sets−1) |
| `Home.StartWorkoutScreen.OnSliderValueChange` | app/src/main/java/com/cmp/pushuptracker/ui/screen/home/StartWorkoutScreen.kt:162-165 | A slider move in 0..60 sets both the shown value and the interval, keeping the state valid |
| `Home.OverflowingEntryCrashes` | app/src/main/java/com/cmp/pushuptracker/ui/screen/home/StartWorkoutScreen.kt:113-117 | As written, the text of any value above `Int.MAX_VALUE` passes the filter and the parse throws |
| `Home.AcceptableEditParses` | app/src/main/java/com/cmp/pushuptracker/ui/screen/home/StartWorkoutScreen.kt:113-117 | Corrected filter: an edit is accepted exactly when it parses without throwing |
| `Home.WrappedRestEmptiesDuration` | app/src/main/java/com/cmp/pushuptracker/ui/screen/home/StartWorkoutScreen.kt:86 | As written, with 1 rep, 35791396 sets and 60 s of rest, the rest wraps to −2147483596 and the duration text is "" |
| `Home.WrappedRepsVanish` | app/src/main/java/com/cmp/pushuptracker/ui/screen/home/StartWorkoutScreen.kt:86 | As written, 65536 reps × 65536 sets wrap to a total of 0, so the card shows "0 sec" |
| `Home.ExactTotalRepsZeroIff` | app/src/main/java/com/cmp/pushuptracker/ui/screen/home/StartWorkoutScreen.kt:86 | With the total computed without wrap-around, it is 0 exactly when reps or sets is 0 |
| `Home.ExactDurationNeverEmpty` | app/src/main/java/com/cmp/pushuptracker/ui/screen/home/StartWorkoutScreen.kt:199-206 | With totals computed without wrap-around, every reachable field and slider value gives a non-empty duration text that reads back as the exact rest |

Two members have contracts too long for a table cell:

- `Camera.PoseProcessor.AnalyzeImage` closes the proxy exactly once on every path.
  - A frame less than 150 ms after `lastAnalyzedTime` keeps that time and makes no callback.
  - Any other frame sets `lastAnalyzedTime` to now first, even when its image is null.
  - A present image is packed to NV21.
  - `onPoseResult` is called at most once, only for an accepted frame with an image whose detection did not throw. It receives the detector's result, or null when there is no landmarker.
- `Home.StartWorkoutScreen.OnFieldValueChange` handles one edit.
  - A non-digit edit changes nothing.
  - A digit edit replaces the field's text. The title "Sets" updates `sets` and any other title updates `reps`, with empty text read as 0.
  - An edit beyond `Int.MAX_VALUE` crashes in `toInt`.
  - The slider is untouched.

## Findings

| source | as written | input that shows it | evidently intended | confidence | as-written member | corrected member |
|---|---|---|---|---|---|---|
| app/src/main/java/com/cmp/pushuptracker/ui/screen/home/StartWorkoutScreen.kt:114 | The `\d*` filter admits any number of digits. `value.toInt()` (lines 75, 78) then throws `NumberFormatException` beyond `Int.MAX_VALUE`, which crashes the screen | Typing `2147483648` into Sets | A stored entry always parses, so values that do not fit an `Int` are refused like non-digits | high; not executed | `Home.OverflowingEntryCrashes` | `Home.StartWorkoutScreen.OnFieldValueChangeCorrected` (filter `Home.AcceptableEdit`, `Home.AcceptableEditParses`) |
| app/src/main/java/com/cmp/pushuptracker/ui/screen/home/StartWorkoutScreen.kt:86 | `interval * (sets - 1)` is an `Int` product and wraps. The negative rest then makes `durationText` empty, because neither minutes nor seconds is positive and they are not both 0 | reps 1, sets 35791396, slider 60 | The rest is computed without wrap-around (e.g. as `Long`), so the duration is non-empty and correct | medium; not executed | `Home.WrappedRestEmptiesDuration` | `Home.ExactDurationNeverEmpty` |
| app/src/main/java/com/cmp/pushuptracker/ui/screen/home/StartWorkoutScreen.kt:86 | `reps * sets` is an `Int` product and wraps to 0, so the card shows 0 reps and "0 sec" | reps 65536, sets 65536 | The total is 0 only when reps or sets is 0 | medium; not executed | `Home.WrappedRepsVanish` | `Home.ExactTotalRepsZeroIff` |

`Home.StartWorkoutScreen` itself follows the source as written.

## Left out

- `CameraSource` lifecycle (`start`, `stop`, `release`, `createCamera`, `getIdForRequestedCamera`, `setZoom`'s null-camera check, the focus-mode choice): Android `Camera` API plumbing.
- `FrameProcessingRunnable` and `CameraPreviewCallback`: a two-thread hand-off through `wait`/`notifyAll`, whose point is concurrency.
- The aspect-ratio test (`float` division with a 0.01 tolerance) is a function parameter `sameAspect`; floating point is not modelled.
- `MlKitUtils.GetZoomValue` takes the target zoom as an integer in hundredths; the `float` conversion `(int) (Math.max(zoomRatio, 1) * 100)` is floating point.
- `MlKitUtils.SelectSizePair`: distances are exact integers. Java's `int` overflow of |w−dw|+|h−dh| is not modelled (it needs dimensions near 2^30).
- `MlKitUtils.SelectPreviewFpsRange` requires frame rates in 0..`Integer.MAX_VALUE` (what the camera reports). It takes the scaled target (60000) as an argument instead of converting `60.0f`.
- `MlKitUtils.PreviewBufferSize` uses exact arithmetic. The `(int)` cast of `Math.ceil` and the `+ 1` overflow only for frames above 1.4 gigapixels, which are not modelled.
- `MlKitUtils.FrontCameraAngles` and `MlKitUtils.BackCameraAngles` assume a non-negative sensor orientation (Android reports 0, 90, 180 or 270). `SetRotation` itself models Java's `%` for every value.
- `PoseGraphic` drawing: Canvas and Paint calls, `translateX`/`translateY`, z-colouring, logging, the classification text, and the commented-out symmetric-margin variant (dead code).
- `PoseDetector.PoseGraphic.UpdateRepCount` does not model `repCount++` wrapping past `Int.MAX_VALUE`, which would take 2^31 reps.
- Which code constructs a `PoseGraphic` for each pose, and so how long one counter lives: `GraphicOverlay` and the pose detector processor are not part of this model.
- `PoseProcessor`: MediaPipe `detectForVideo` is modelled as a call that returns a result or throws. `YuvImage` JPEG compression, bitmap decoding and flipping, and both system clocks are foreign (the current time is a parameter). Exceptions thrown by the bitmap conversion outside the `try` are not modelled.
- `StartWorkoutScreen` layout, `animateIntAsState`, navigation and the Start button's intent: UI code. `RestIntervalSlider`'s float rounding is replaced by its 0..60 range as a precondition of `OnSliderValueChange`.
- `HomeScreen`, `ProfileScreen`, `ThemeScreen`, `MainActivity`, `ExpandingFAB`, `AppBar`, `BarGraph`: layout and animation. `HomeScreen`'s digit filter duplicates the one modelled here.
- Room entities, DAOs, repositories, `AppDatabase`, `DatabaseModule` and the viewmodels: generated persistence code and coroutine glue.
- Theme handling (`Theme.kt`, `ThemePreferences`, `UtilViewmodel`), `TimeUtils`, `SystemUtils.vibrate`, `Screen.kt` and the build script: configuration and platform wrappers.
