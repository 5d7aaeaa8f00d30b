# Spy-mission photo game: the logic behind the UI, in Dafny

The game shows the player a scene prompt, takes a webcam photo, runs a mock
"object detection" that invents a few labels, scores them against the prompt
and logs the mission on a pinboard. Almost all of it is rendering. This
project models the parts that compute or keep state:

- `Base` (base.dfy): `T | null` as `Option`, ASCII `toLowerCase` and
  `toUpperCase`, `String.prototype.includes` as a left-to-right scan proved
  equal to "occurs at some position", and `Date.now().toString()` with its
  inverse, so distinct clock readings give distinct entry ids.
- `Detector` (detector.dfy): `mockObjectDetection` and `calculatePoints`.
  The two calls of `Math.random` become the input `draws`: its length is the
  draw count (2 to 5) and each element is a vocabulary index (0 to 7). With
  the draws fixed, the detector is the function `Detect`; the method with the
  source's loop is proved to compute it, and `CalculatePoints` (the source's
  `forEach`) is proved to compute `Score`.
- `CaptureFlow` (capture_flow.dfy): the camera component as a class whose
  fields are its state (`capturedImage`, `detectionResults`, `isProcessing`,
  `error`) and its `scene` prop, and whose methods are its handlers. Each
  1500 ms analysis callback closes over the scene of the render that
  scheduled it; the pending callbacks are the list of those scenes, and
  `AnalysisCompletes` is the first one firing. The object invariant says that
  held results are the detector's labels, with their score, for the scene
  their callback closed over, which need not be the current prop.
- `Session` (session.dfy): the root component as a class over `spyLog`,
  `totalScore`, `currentScene`, `showCamera`, `unlockedScenes`, `showUnlock`
  and `newUnlockedCount`. Its invariant says that the total is the sum of the
  logged scores and that the unlocked count is
  `min(82, 10 + floor(|spyLog| / 3) * 5)`. `ConfirmIntoLog` wires the camera's
  `confirmAndSubmit` to `handlePhotoCapture`, as the `onCapture` prop does,
  and `NewMission` wires `handleSceneGenerated` to the mounted camera's
  `scene` prop.
- `Pinboard` (pinboard.dfy): the nine-slot position table, the pin style at
  each list position, and what the spy-log panel shows.
- `DetectionReport` (detection_report.dfy): the relevant-label filter, the
  badges and the bonus line, with a proof that the bonus shown is exactly
  what the scorer added on top of 10 points per label.

Points where the code decides, and the model follows the code:

- The trigger tests of the detector are case-sensitive (`scene.includes`), while
  scoring lower-cases both sides. A label added by a trigger scores a bonus
  only if it is itself a substring of the scene. For the scene
  "stealing cake" the trigger adds "food", but "food" is not in the scene. So
  `["person", "food"]` scores 20, not the 45 that a reading counting the
  triggered label as a match would give (`CakeSceneFoodEarnsNoBonus`).
- The log is unbounded and there is no board number, agent photo or
  completion step: this version of the root component has none of those, and
  unlocking depends only on the log length.
- `currentScene || "Unknown"` and `showCamera && currentScene` treat an empty
  scene string like a missing one (`SceneOrUnknown`, `CameraScene`), and
  `!capturedImage` treats an empty image string like no photo (`HasPhoto`).
- The NEW MISSION button of scene-display.tsx:71-78 has no `disabled` and
  stays on screen while the camera is open. Pressing it changes the mounted
  camera's `scene` prop but keeps its photo, its results and its scheduled
  analysis, which still uses the old scene. ADD TO LOG then logs the new
  scene with labels detected, and points scored, for the old one
  (`NewMissionDuringAnalysis`). With the draws "person" and "cup", "stealing
  cake" scores 30, and the entry reads "cup of cake", for which the same
  labels would score 55 (`StaleScoreDiffers`).
- The analysis callback has no guard. If the player retakes while the
  analysis runs, the results still arrive and stay until the next retake,
  next to whatever photo is captured next (`AnalysisCompletes`).
- The notification-hiding callback is never cancelled. Because the model
  drops durations, it also admits that callback firing after a later unlock
  and hiding its notification (`UnlockTimerFires`). In the source that
  ordering does not occur: the next unlock needs three more captures, each
  behind its own 1500 ms analysis, so it comes after the 3000 ms callback.

## Model

| member | source | states |
|---|---|---|
| `Base.ContainsIffOccurs` | components/camera-capture.tsx:217-223 | `includes` holds exactly when the needle occurs at some position of the text |
| `Base.NatToDecimal` | components/game-interface.tsx:38 | an entry id is a non-empty string of decimal digits with no leading zero unless the reading is 0 |
| `Base.DecimalRoundTrip` | components/game-interface.tsx:38 | reading the id's digits back gives the clock reading it was made from |
| `Base.NatToDecimalInjective` | components/game-interface.tsx:38 | distinct clock readings give distinct ids, the React keys of spy-log.tsx |
| `Detector.Dedup` | components/camera-capture.tsx:210-215 | the skip-if-present push loop and `new Set` keep exactly the elements of the input, without duplicates, and never lengthen it |
| `Detector.DedupOfDistinct` | components/camera-capture.tsx:227 | `[...new Set(s)]` returns a duplicate-free list unchanged, in its order |
| `Detector.Detect` | components/camera-capture.tsx:204-228 | the detection has no duplicate label, has 1 to 8 labels, and every label is a vocabulary word, "food" or "money" |
| `Detector.MockObjectDetection` | components/camera-capture.tsx:204-228 | the draw loop, the triggers and the final de-duplication compute `Detect` for the given draws, so the output has no duplicates |
| `Detector.DetectFoodIff` | components/camera-capture.tsx:217-219 | "food" is detected if and only if the scene, case-sensitively, contains "cake", "cookie" or "food" |
| `Detector.DetectMoneyIff` | components/camera-capture.tsx:220-222 | "money" is detected if and only if the scene contains "money" or "wallet" |
| `Detector.DetectPhoneOnce` | components/camera-capture.tsx:223-227 | a scene containing "phone" yields "phone" exactly once, even when a draw picked it too |
| `Detector.RelevantCount` | components/camera-capture.tsx:233-238 | the number of bonus-earning labels is at most the number of labels |
| `Detector.Score` | components/camera-capture.tsx:230-241 | the points for n labels lie between 10n and 35n, and an empty list scores 0 |
| `Detector.CalculatePoints` | components/camera-capture.tsx:230-241 | the accumulating loop returns 10 per label plus 25 per label whose lower-case form occurs in the lower-cased scene |
| `Detector.RelevantCountAppend` | components/camera-capture.tsx:234-238 | the bonus count of two lists joined is the sum of their counts |
| `Detector.ScorePermutation` | components/camera-capture.tsx:231-238 | two label lists with the same elements and multiplicities score the same |
| `Detector.NoTriggerLetters` | components/camera-capture.tsx:217-225 | a scene lacking the letters f, k, m, p and w adds no trigger label |
| `Detector.CakeSceneFoodEarnsNoBonus` | components/camera-capture.tsx:217-235 | in "stealing cake" the detector adds "food", yet "person" and "food" score 20: the triggered label earns no bonus |
| `Detector.UpperCasePhoneIsScoredNotTriggered` | components/camera-capture.tsx:223-235 | in "Secret PHONE call" "phone" is detected only if drawn, yet a "phone" label earns the bonus (35) |
| `CaptureFlow.Analyse` | components/camera-capture.tsx:86-90 | the callback body returns the detector's labels for its scene, without duplicates, with exactly their score for that scene |
| `CaptureFlow.CameraCapture.constructor` | components/camera-capture.tsx:18-25 | the component starts with no photo, no results, no error, nothing processing and nothing scheduled |
| `CaptureFlow.CameraCapture.SceneChanged` | components/game-interface.tsx:101-106 | a new `scene` prop replaces the old one; photo, results, flags and the scenes of scheduled callbacks stay as they were |
| `CaptureFlow.CameraCapture.CameraStarted` | components/camera-capture.tsx:34-49 | a granted stream clears the error, a refused one sets the permission message; nothing else changes |
| `CaptureFlow.CameraCapture.CapturePhoto` | components/camera-capture.tsx:57-73 | a frame, whatever string it is, becomes the captured image; with no video, canvas or context nothing changes |
| `CaptureFlow.CameraCapture.RetakePhoto` | components/camera-capture.tsx:75-79 | the photo and the results are both cleared; the processing flag and scheduled analyses stay |
| `CaptureFlow.CameraCapture.SubmitPhoto` | components/camera-capture.tsx:81-93 | without a photo (null or empty) it changes nothing; with one it sets processing and schedules one analysis that closes over the current scene |
| `CaptureFlow.CameraCapture.AnalysisCompletes` | components/camera-capture.tsx:86-92 | the first scheduled analysis fires: it stores the detector's labels with their score for the scene it closed over, not the current prop, and ends processing, whether or not a photo is still held |
| `CaptureFlow.CameraCapture.ConfirmAndSubmit` | components/camera-capture.tsx:95-98 | `onCapture` is called if and only if a non-empty photo and results both exist, with them unchanged; the labels have no duplicates and the points are their score for the scene their analysis closed over |
| `Session.UnlockedFor` | components/game-interface.tsx:51 | the unlocked count stays within 10 to 82 and reaches 82 exactly from 45 missions on |
| `Session.UnlockedMonotone` | components/game-interface.tsx:51-54 | more logged missions never unlock fewer scenes |
| `Session.UnlockStep` | components/game-interface.tsx:51-55 | one more mission unlocks scenes exactly when the new count is a multiple of 3 up to 45, by 5, and by 2 at the 45th |
| `Session.SceneOrUnknown` | components/game-interface.tsx:39 | the logged scene is the current scene, or "Unknown" when it is null or empty |
| `Session.GameInterface.CameraScene` | components/game-interface.tsx:101-106 | the camera is mounted only when `showCamera` is set and the scene is non-empty, and then with the current scene |
| `Session.GameInterface.constructor` | components/game-interface.tsx:23-29 | the session starts with score 0, an empty log, 10 unlocked scenes, no scene, no camera and no notification |
| `Session.GameInterface.HandleSceneGenerated` | components/game-interface.tsx:31-34 | the new scene becomes current and the camera is shown with it; the log, score and unlock state are unchanged |
| `Session.GameInterface.CancelCamera` | components/game-interface.tsx:105 | cancelling hides the camera and changes nothing else |
| `Session.GameInterface.HandlePhotoCapture` | components/game-interface.tsx:36-58 | one entry with the clock reading's decimal id, the given score, labels and image and the current scene (or "Unknown") goes in front of the unchanged log; the total grows by the points; the camera closes; the unlocked count never drops, and when it grows the notification shows the difference; the sum and unlock invariants are kept |
| `Session.GameInterface.UnlockTimerFires` | components/game-interface.tsx:56 | the scheduled callback hides the notification and changes no count |
| `Session.NewMission` | components/game-interface.tsx:99-107 | a scene generated while the camera is open becomes current and, when non-empty, the mounted camera's prop; the camera's photo, results, scheduled analyses, processing flag and error are kept, and the log, score and unlock state do not change |
| `Session.ConfirmIntoLog` | components/game-interface.tsx:102-105 | confirming in the mounted camera logs, under the clock reading's id and time, the mounted scene with the held labels and their score for the scene their analysis closed over, adds that score to the total, closes the camera, keeps the current scene and applies the unlock update (notification shown exactly when the new log length is a multiple of 3 up to 45); without a non-empty photo and results the session does not change at all |
| `Session.NewMissionDuringAnalysis` | components/camera-capture.tsx:81-97 | a new mission chosen between submitting and the analysis firing logs the new scene with labels detected and scored for the old one |
| `Session.StaleScoreDiffers` | components/camera-capture.tsx:204-241 | the draws "person" and "cup" give "person", "cup", "food" for "stealing cake", scoring 30 there and 55 for "cup of cake" |
| `Pinboard.RotationsBounded` | components/spy-log.tsx:13-23 | every rotation in the position table lies in [-4, 4] |
| `Pinboard.PinboardStyle` | components/spy-log.tsx:12-33 | the style at index i takes top, left and rotation from slot i mod 9, has rotation in [-4, 4], and stacks at z-index i |
| `Pinboard.StyleRepeatsEveryNine` | components/spy-log.tsx:25-31 | the styles at i and i + 9 differ only in z-index |
| `Pinboard.RenderSpyLog` | components/spy-log.tsx:43-62 | the header counts all entries; the empty-state panel shows if and only if there are none; otherwise pin i shows entry i, at style i, with its score, and its photo exactly when it has a non-empty image |
| `Pinboard.PlacementIgnoresEntries` | components/spy-log.tsx:59-62 | two lists of equal length place their pins identically, whatever the entries |
| `Pinboard.CaptureShiftsPins` | components/spy-log.tsx:59-62 | after a capture puts an entry in front, each older entry is pinned one position further on |
| `DetectionReport.Relevant` | components/detection-results.tsx:14 | the filter keeps a label if and only if it is detected and its lower-case form occurs in the lower-cased scene |
| `DetectionReport.RelevantIsOrderedSubsequence` | components/detection-results.tsx:14 | the filter reads the labels at strictly increasing positions, exactly those whose label is relevant |
| `DetectionReport.Badges` | components/detection-results.tsx:32-47 | each label gets one badge, upper-cased, highlighted if and only if the label is relevant |
| `DetectionReport.Bonus` | components/detection-results.tsx:51-59 | the bonus line shows if and only if some label is relevant; it states the relevant count and 25 points each, and says "object" exactly for a count of one |
| `DetectionReport.RelevantCountIsFilterLength` | components/detection-results.tsx:14 | the scorer's count of bonus-earning labels equals the number of labels the report calls relevant |
| `DetectionReport.ScoreMatchesReport` | components/detection-results.tsx:51-56 | the points awarded are 10 per label plus exactly the bonus the report states |

## Left out

- Media stream acquisition and release (`getUserMedia`, `stopCamera`, `track.stop`): device plumbing. The unmount cleanup reads a stale `stream`, so the model claims nothing about release.
- Canvas drawing and JPEG encoding: foreign raster calls. A captured image is an opaque string, or `None` when the video element, the canvas or its context is missing.
- Timer durations (1500 ms, 3000 ms): scheduled callbacks fire as separate steps, interleaved with the handlers in any order the caller chooses; analyses fire in the order they were scheduled.
- Unmounting: closing the camera (cancel, a capture, or an empty scene) unmounts it in the source and discards its photo, results and pending analysis; the model's camera object outlives `CancelCamera` and `HandlePhotoCapture`, and the session methods do not reset it.
- Button `disabled` states (capture while an error shows, analyse while processing) and the rest of the markup: they are rendering, not guards in the handlers, which are modelled as written.
- `Pinboard.PinboardStyle`: keeps the rotation as a number; the `rotate(<n>deg)` string and the constant `position: "absolute"` are not built.
- `Session.GameInterface.HandlePhotoCapture`: the id and the timestamp come from one clock reading `now`; the source reads the clock twice.
- `Base.Lower` and `Base.Upper`: only ASCII letters change case; the source's `toLowerCase`/`toUpperCase` follow full Unicode.
- The "+points PTS" badge of the report shows the `points` prop as given and is not modelled.
- The scene picker (`getRandomScene` in lib/scenes) is not part of this model, and neither are scene-display.tsx, agent-camera.tsx, the music player, the quit warning, the confetti, the completion screen, the score display and the unlock notification.
