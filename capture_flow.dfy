/**
  The capture flow of the camera component (camera-capture.tsx:18-98): the
  component's state `capturedImage`, `detectionResults`, `isProcessing` and
  `error`, its `scene` prop, and the handlers that change them.

  The media stream, the video element and the canvas are outside the model.
  What they contribute is an input: `CameraStarted(granted)` says how the
  asynchronous `startCamera` settled, and `CapturePhoto(frame)` receives the
  encoded frame, or `None` when the video or canvas element or its 2D context
  is missing. Each 1500 ms callback that `submitPhoto` schedules closes over
  the `scene` prop of the render it was created in; `pendingAnalyses` lists
  those scenes in firing order, and `AnalysisCompletes(draws)` is the first
  one firing, with the detector's random draws as input.
 */
module CaptureFlow {
  import opened Base
  import opened Detector

  /** The `{ objects, points }` record held in `detectionResults`. */
  datatype DetectionResults = DetectionResults(objects: seq<string>, points: int)

  /** The arguments of one `onCapture(imageUrl, detectedObjects, points)` call. */
  datatype Capture = Capture(imageUrl: string, detectedObjects: seq<string>, points: int)

  /** The message shown when the camera cannot be opened. */
  const CameraError: string := "Unable to access camera. Please grant camera permissions."

  /** What one analysis callback stores: the detector's labels for the scene
      it closed over and their score for that scene. */
  function Analysis(scene: string, draws: seq<nat>): DetectionResults
    requires ValidDraws(draws)
  {
    DetectionResults(Detect(scene, draws), Score(Detect(scene, draws), scene))
  }

  /** The body of the 1500 ms callback: `mockObjectDetection(scene)`, then
      `calculatePoints(detectedObjects, scene)`, for the scene it closed over. */
  method Analyse(scene: string, draws: seq<nat>) returns (r: DetectionResults)
    requires ValidDraws(draws)
    ensures r == Analysis(scene, draws)
    ensures NoDuplicates(r.objects) && r.points == Score(r.objects, scene)
  {
    var detectedObjects := MockObjectDetection(scene, draws);
    var points := CalculatePoints(detectedObjects, scene);
    r := DetectionResults(detectedObjects, points);
  }

  class CameraCapture {
    /** The `scene` prop; the parent may pass a new one while mounted. */
    var scene: string
    var capturedImage: Option<string>
    var detectionResults: Option<DetectionResults>
    var isProcessing: bool
    var error: Option<string>
    /** The scenes closed over by the analysis callbacks scheduled and not
        yet fired, first to fire first (they all wait 1500 ms). */
    var pendingAnalyses: seq<string>
    /** The scene and the random draws the held results were computed from. */
    ghost var resultsScene: string
    ghost var resultsDraws: seq<nat>

    /** Whatever results the component holds came from the detector and the
        scorer run on the scene their callback closed over. */
    ghost predicate Valid()
      reads this
    {
      detectionResults.Some? ==>
        ValidDraws(resultsDraws) && detectionResults.value == Analysis(resultsScene, resultsDraws)
    }

    /** `!!capturedImage`: JavaScript treats `null` and `""` alike. */
    predicate HasPhoto()
      reads this
    {
      capturedImage.Some? && capturedImage.value != ""
    }

    /** The component's first render, before `startCamera` settles. */
    constructor (scene: string)
      ensures Valid() && this.scene == scene
      ensures capturedImage == None && detectionResults == None
      ensures !isProcessing && error == None && pendingAnalyses == []
    {
      this.scene := scene;
      capturedImage := None;
      detectionResults := None;
      isProcessing := false;
      error := None;
      pendingAnalyses := [];
      resultsScene := scene;
      resultsDraws := [];
    }

    /** A re-render with a new `scene` prop: the state is kept, and callbacks
        already scheduled keep the scene they closed over. */
    method SceneChanged(s: string)
      requires Valid()
      modifies this
      ensures Valid() && scene == s
      ensures capturedImage == old(capturedImage) && detectionResults == old(detectionResults)
      ensures isProcessing == old(isProcessing) && error == old(error)
      ensures pendingAnalyses == old(pendingAnalyses) && resultsScene == old(resultsScene)
    {
      scene := s;
    }

    /** `startCamera` settling: a granted stream clears the error, a refusal sets it. */
    method CameraStarted(granted: bool)
      requires Valid()
      modifies this
      ensures Valid()
      ensures error == if granted then None else Some(CameraError)
      ensures capturedImage == old(capturedImage) && detectionResults == old(detectionResults)
      ensures isProcessing == old(isProcessing) && pendingAnalyses == old(pendingAnalyses)
      ensures scene == old(scene) && resultsScene == old(resultsScene)
    {
      if granted {
        error := None;
      } else {
        error := Some(CameraError);
      }
    }

    /** `capturePhoto`: freezes the frame unless an element or context is missing. */
    method CapturePhoto(frame: Option<string>)
      requires Valid()
      modifies this
      ensures Valid()
      ensures capturedImage == if frame.Some? then frame else old(capturedImage)
      ensures detectionResults == old(detectionResults) && error == old(error)
      ensures isProcessing == old(isProcessing) && pendingAnalyses == old(pendingAnalyses)
      ensures scene == old(scene) && resultsScene == old(resultsScene)
    {
      if frame.None? {
        return;
      }
      capturedImage := frame;
    }

    /** `retakePhoto`: drops the photo and its results; a scheduled analysis is
        not cancelled, and the camera restart is a later `CameraStarted`. */
    method RetakePhoto()
      requires Valid()
      modifies this
      ensures Valid()
      ensures capturedImage == None && detectionResults == None
      ensures error == old(error)
      ensures isProcessing == old(isProcessing) && pendingAnalyses == old(pendingAnalyses)
      ensures scene == old(scene) && resultsScene == old(resultsScene)
    {
      capturedImage := None;
      detectionResults := None;
    }

    /** `submitPhoto`: without a photo (null or empty) nothing happens;
        otherwise processing starts and one analysis callback is scheduled,
        closing over the current scene. */
    method SubmitPhoto()
      requires Valid()
      modifies this
      ensures Valid()
      ensures capturedImage == old(capturedImage) && detectionResults == old(detectionResults)
      ensures error == old(error) && scene == old(scene) && resultsScene == old(resultsScene)
      ensures !old(HasPhoto()) ==>
                isProcessing == old(isProcessing) && pendingAnalyses == old(pendingAnalyses)
      ensures old(HasPhoto()) ==>
                isProcessing && pendingAnalyses == old(pendingAnalyses) + [scene]
    {
      if !HasPhoto() {
        return;
      }
      isProcessing := true;
      pendingAnalyses := pendingAnalyses + [scene];
    }

    /** The first scheduled 1500 ms callback firing. Like the source's callback
        it does not look at `capturedImage` or at the current prop: it stores
        results for the scene it closed over, even after a retake. */
    method AnalysisCompletes(draws: seq<nat>)
      requires Valid() && |pendingAnalyses| > 0 && ValidDraws(draws)
      modifies this
      ensures resultsScene == old(pendingAnalyses[0])
      ensures detectionResults == Some(Analysis(resultsScene, draws))
      ensures !isProcessing && pendingAnalyses == old(pendingAnalyses[1..])
      ensures capturedImage == old(capturedImage) && error == old(error) && scene == old(scene)
      ensures Valid()
    {
      var closedOver := pendingAnalyses[0];
      var results := Analyse(closedOver, draws);
      detectionResults := Some(results);
      resultsScene := closedOver;
      resultsDraws := draws;
      isProcessing := false;
      pendingAnalyses := pendingAnalyses[1..];
    }

    /** `confirmAndSubmit`: the `onCapture` call it makes, if any. It forwards
        only when a photo (non-empty) and results are both present, passes
        them unchanged, and what it passes is a duplicate-free detection
        scored for the scene its analysis closed over. */
    method ConfirmAndSubmit() returns (sent: Option<Capture>)
      requires Valid()
      ensures sent.Some? <==> HasPhoto() && detectionResults.Some?
      ensures sent.Some? ==> sent.value.imageUrl == capturedImage.value
      ensures sent.Some? ==> sent.value.detectedObjects == detectionResults.value.objects
      ensures sent.Some? ==> sent.value.points == detectionResults.value.points
      ensures sent.Some? ==> NoDuplicates(sent.value.detectedObjects)
      ensures sent.Some? ==> sent.value.points == Score(sent.value.detectedObjects, resultsScene)
    {
      if !HasPhoto() || detectionResults.None? {
        return None;
      }
      sent := Some(Capture(capturedImage.value, detectionResults.value.objects, detectionResults.value.points));
    }
  }
}
