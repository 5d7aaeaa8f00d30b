/**
  The session state of the root component (game-interface.tsx:13-58 and
  101-106): the spy log, the running score, the unlocked-scene count, the
  unlock notification and whether the camera is shown.

  The clock (`Date.now()` and `new Date()`) is the input `now`, read once per
  capture. The 3000 ms timer that hides the unlock notification is a counter
  of scheduled callbacks, and `UnlockTimerFires` is one of them firing.
 */
module Session {
  import opened Base
  import opened Detector
  import opened CaptureFlow

  /** One logged mission; `imageUrl` is always given by the capture path. */
  datatype SpyLogEntry = SpyLogEntry(
    id: string,
    scene: string,
    score: int,
    timestamp: nat,
    imageUrl: string,
    detectedObjects: seq<string>)

  /** Size of the scene catalogue, and the number unlocked at the start. */
  const TotalScenes: nat := 82
  const InitialScenes: nat := 10

  /** `Math.min(82, 10 + Math.floor(missions / 3) * 5)`. */
  function UnlockedFor(missions: nat): (r: nat)
    ensures InitialScenes <= r <= TotalScenes
    ensures r == TotalScenes <==> missions >= 45
  {
    var stepped := 10 + (missions / 3) * 5;
    if stepped < 82 then stepped else 82
  }

  /** More missions never unlock fewer scenes. */
  lemma UnlockedMonotone(m: nat, n: nat)
    requires m <= n
    ensures UnlockedFor(m) <= UnlockedFor(n)
  {
  }

  /** Logging one more mission unlocks scenes exactly on every third mission
      up to the 45th: five at a time, and the last two at the 45th. */
  lemma UnlockStep(n: nat)
    ensures UnlockedFor(n + 1) > UnlockedFor(n) <==> (n + 1) % 3 == 0 && n + 1 <= 45
    ensures UnlockedFor(n + 1) > UnlockedFor(n) ==>
              UnlockedFor(n + 1) - UnlockedFor(n) == (if n + 1 == 45 then 2 else 5)
  {
  }

  /** The scores of the logged entries, added up. */
  function SumScores(log: seq<SpyLogEntry>): int {
    if log == [] then 0 else log[0].score + SumScores(log[1..])
  }

  /** `currentScene || "Unknown"`: JavaScript treats `null` and `""` alike. */
  function SceneOrUnknown(currentScene: Option<string>): (r: string)
    ensures currentScene.Some? && currentScene.value != "" ==> r == currentScene.value
    ensures currentScene.None? || currentScene.value == "" ==> r == "Unknown"
  {
    if currentScene.Some? && currentScene.value != "" then currentScene.value else "Unknown"
  }

  class GameInterface {
    var totalScore: int
    var currentScene: Option<string>
    var showCamera: bool
    var spyLog: seq<SpyLogEntry>
    var unlockedScenes: nat
    var showUnlock: bool
    var newUnlockedCount: int
    /** Notification-hiding callbacks scheduled and not yet fired. */
    var pendingUnlockTimers: nat

    /** The total is the sum of the logged scores, and the unlocked count is a
        function of how many missions are logged. */
    ghost predicate Valid()
      reads this
    {
      totalScore == SumScores(spyLog) && unlockedScenes == UnlockedFor(|spyLog|)
    }

    /** The scene the camera component is mounted with, if it is mounted:
        `showCamera && currentScene`, where `""` counts as absent. */
    function CameraScene(): (r: Option<string>)
      reads this
      ensures r.Some? ==> showCamera && r == currentScene && r.value != ""
      ensures r.None? ==> !showCamera || currentScene.None? || currentScene.value == ""
    {
      if showCamera && currentScene.Some? && currentScene.value != "" then currentScene else None
    }

    /** The initial state of every `useState` in the root component. */
    constructor ()
      ensures Valid()
      ensures totalScore == 0 && spyLog == [] && unlockedScenes == InitialScenes
      ensures currentScene == None && !showCamera
      ensures !showUnlock && newUnlockedCount == 0 && pendingUnlockTimers == 0
    {
      totalScore := 0;
      currentScene := None;
      showCamera := false;
      spyLog := [];
      unlockedScenes := 10;
      showUnlock := false;
      newUnlockedCount := 0;
      pendingUnlockTimers := 0;
    }

    /** `handleSceneGenerated`: the new scene becomes current and the camera opens. */
    method HandleSceneGenerated(scene: string)
      requires Valid()
      modifies this
      ensures Valid()
      ensures currentScene == Some(scene) && showCamera
      ensures scene != "" ==> CameraScene() == Some(scene)
      ensures spyLog == old(spyLog) && totalScore == old(totalScore)
      ensures unlockedScenes == old(unlockedScenes) && showUnlock == old(showUnlock)
      ensures newUnlockedCount == old(newUnlockedCount) && pendingUnlockTimers == old(pendingUnlockTimers)
    {
      currentScene := Some(scene);
      showCamera := true;
    }

    /** The camera's `onCancel`: only the camera closes. */
    method CancelCamera()
      requires Valid()
      modifies this
      ensures Valid()
      ensures !showCamera && CameraScene() == None
      ensures currentScene == old(currentScene)
      ensures spyLog == old(spyLog) && totalScore == old(totalScore)
      ensures unlockedScenes == old(unlockedScenes) && showUnlock == old(showUnlock)
      ensures newUnlockedCount == old(newUnlockedCount) && pendingUnlockTimers == old(pendingUnlockTimers)
    {
      showCamera := false;
    }

    /** `handlePhotoCapture`: logs one entry in front, adds its points, closes
        the camera and, when the log length unlocks more scenes, records how
        many and shows the notification. */
    method HandlePhotoCapture(imageUrl: string, detectedObjects: seq<string>, points: int, now: nat)
      requires Valid()
      modifies this
      ensures Valid()
      ensures |spyLog| == |old(spyLog)| + 1 && spyLog[1..] == old(spyLog)
      ensures spyLog[0].id == NatToDecimal(now) && spyLog[0].scene == SceneOrUnknown(old(currentScene))
      ensures spyLog[0].score == points && spyLog[0].detectedObjects == detectedObjects
      ensures spyLog[0].imageUrl == imageUrl && spyLog[0].timestamp == now
      ensures totalScore == old(totalScore) + points
      ensures !showCamera && currentScene == old(currentScene)
      ensures unlockedScenes >= old(unlockedScenes)
      ensures unlockedScenes > old(unlockedScenes) <==> |spyLog| % 3 == 0 && |spyLog| <= 45
      ensures unlockedScenes > old(unlockedScenes) ==>
                newUnlockedCount == unlockedScenes - old(unlockedScenes) && newUnlockedCount > 0
                && showUnlock && pendingUnlockTimers == old(pendingUnlockTimers) + 1
      ensures unlockedScenes == old(unlockedScenes) ==>
                newUnlockedCount == old(newUnlockedCount) && showUnlock == old(showUnlock)
                && pendingUnlockTimers == old(pendingUnlockTimers)
    {
      var newEntry := SpyLogEntry(NatToDecimal(now), SceneOrUnknown(currentScene), points, now, imageUrl, detectedObjects);
      var updatedLog := [newEntry] + spyLog;
      spyLog := updatedLog;
      totalScore := totalScore + points;
      showCamera := false;

      var newUnlocked := UnlockedFor(|updatedLog|);
      UnlockedMonotone(|updatedLog| - 1, |updatedLog|);
      UnlockStep(|updatedLog| - 1);
      if newUnlocked > unlockedScenes {
        newUnlockedCount := newUnlocked - unlockedScenes;
        unlockedScenes := newUnlocked;
        showUnlock := true;
        pendingUnlockTimers := pendingUnlockTimers + 1;
      }
    }

    /** One scheduled 3000 ms callback firing: it hides the notification.
        The model drops the durations, so it also admits a callback firing
        after a later unlock; in the source the next unlock is at least three
        captures, and so three 1500 ms analyses, later. */
    method UnlockTimerFires()
      requires Valid() && pendingUnlockTimers > 0
      modifies this
      ensures Valid()
      ensures !showUnlock && pendingUnlockTimers == old(pendingUnlockTimers) - 1
      ensures newUnlockedCount == old(newUnlockedCount) && unlockedScenes == old(unlockedScenes)
      ensures spyLog == old(spyLog) && totalScore == old(totalScore)
      ensures currentScene == old(currentScene) && showCamera == old(showCamera)
    {
      showUnlock := false;
      pendingUnlockTimers := pendingUnlockTimers - 1;
    }
  }

  /** "NEW MISSION" clicked while the camera is open: the root takes the new
      scene and the mounted camera re-renders with it as its `scene` prop,
      keeping its photo, its results and its scheduled analyses. An empty
      scene unmounts the camera, which the model leaves untouched. */
  method NewMission(game: GameInterface, camera: CameraCapture, scene: string)
    requires game.Valid() && camera.Valid()
    requires game.CameraScene() == Some(camera.scene)
    modifies game, camera
    ensures game.Valid() && camera.Valid()
    ensures game.currentScene == Some(scene) && game.showCamera
    ensures game.spyLog == old(game.spyLog) && game.totalScore == old(game.totalScore)
    ensures scene != "" ==> game.CameraScene() == Some(camera.scene) && camera.scene == scene
    ensures scene == "" ==> game.CameraScene() == None
    ensures camera.capturedImage == old(camera.capturedImage)
    ensures camera.detectionResults == old(camera.detectionResults)
    ensures camera.pendingAnalyses == old(camera.pendingAnalyses)
    ensures camera.resultsScene == old(camera.resultsScene)
    ensures camera.isProcessing == old(camera.isProcessing) && camera.error == old(camera.error)
    ensures game.unlockedScenes == old(game.unlockedScenes) && game.showUnlock == old(game.showUnlock)
    ensures game.newUnlockedCount == old(game.newUnlockedCount)
    ensures game.pendingUnlockTimers == old(game.pendingUnlockTimers)
  {
    game.HandleSceneGenerated(scene);
    if scene != "" {
      camera.SceneChanged(scene);
    }
  }

  /** The camera component's `confirmAndSubmit` calling the root's
      `handlePhotoCapture` through `onCapture`. When it forwards, the logged
      entry carries the mounted scene, while its labels and points are the
      ones computed for the scene the analysis closed over. */
  method ConfirmIntoLog(game: GameInterface, camera: CameraCapture, now: nat)
    requires game.Valid() && camera.Valid()
    requires game.CameraScene() == Some(camera.scene)
    modifies game
    ensures game.Valid()
    ensures !camera.HasPhoto() || camera.detectionResults.None? ==> unchanged(game)
    ensures camera.HasPhoto() && camera.detectionResults.Some? ==>
              && |game.spyLog| == |old(game.spyLog)| + 1 && game.spyLog[1..] == old(game.spyLog)
              && game.spyLog[0].scene == camera.scene
              && game.spyLog[0].imageUrl == camera.capturedImage.value
              && game.spyLog[0].detectedObjects == camera.detectionResults.value.objects
              && game.spyLog[0].score == Score(game.spyLog[0].detectedObjects, camera.resultsScene)
              && game.spyLog[0].id == NatToDecimal(now) && game.spyLog[0].timestamp == now
              && game.totalScore == old(game.totalScore) + game.spyLog[0].score
              && !game.showCamera && game.currentScene == old(game.currentScene)
              && (game.unlockedScenes > old(game.unlockedScenes) <==> |game.spyLog| % 3 == 0 && |game.spyLog| <= 45)
    ensures camera.HasPhoto() && camera.detectionResults.Some? && game.unlockedScenes > old(game.unlockedScenes) ==>
              && game.newUnlockedCount == game.unlockedScenes - old(game.unlockedScenes)
              && game.showUnlock && game.pendingUnlockTimers == old(game.pendingUnlockTimers) + 1
    ensures camera.HasPhoto() && camera.detectionResults.Some? && game.unlockedScenes == old(game.unlockedScenes) ==>
              && game.newUnlockedCount == old(game.newUnlockedCount)
              && game.showUnlock == old(game.showUnlock)
              && game.pendingUnlockTimers == old(game.pendingUnlockTimers)
  {
    var sent := camera.ConfirmAndSubmit();
    if sent.Some? {
      game.HandlePhotoCapture(sent.value.imageUrl, sent.value.detectedObjects, sent.value.points, now);
    }
  }

  /** A new mission chosen between SUBMIT and the analysis: the entry logged
      names the new scene `b` but holds labels detected, and points scored,
      for the old scene `a`. */
  method NewMissionDuringAnalysis(a: string, b: string, draws: seq<nat>, now: nat)
    returns (entry: SpyLogEntry)
    requires a != "" && b != "" && ValidDraws(draws)
    ensures entry.scene == b
    ensures entry.detectedObjects == Detect(a, draws)
    ensures entry.score == Score(entry.detectedObjects, a)
  {
    var game := new GameInterface();
    game.HandleSceneGenerated(a);
    var camera := new CameraCapture(a);
    camera.CapturePhoto(Some("data:image/jpeg"));
    camera.SubmitPhoto();
    NewMission(game, camera, b);
    camera.AnalysisCompletes(draws);
    ConfirmIntoLog(game, camera, now);
    entry := game.spyLog[0];
  }

  // The example lemmas below take each scene as a parameter pinned by a
  // `requires` rather than as a literal argument: with a literal, Dafny keeps
  // unfolding `Contains` on it and the proofs become too slow.

  lemma CupOfCakeWords(scene: string)
    requires scene == "cup of cake"
    ensures IsRelevant("cup", scene) && !IsRelevant("person", scene) && !IsRelevant(Food, scene)
  {
    assert Lower(scene) == scene;
    assert Lower("cup") == "cup" && Lower("person") == "person" && Lower(Food) == Food;
    ContainsAt(scene, "cup", 0);
    MissingCharNotContained(scene, "person", 5);
    MissingCharNotContained(scene, Food, 3);
  }

  lemma StealingCakeSceneLabels(a: string)
    requires a == "stealing cake"
    ensures SceneLabels(a) == [Food]
  {
    ContainsAt(a, "cake", 9);
    MissingCharNotContained(a, "money", 0);
    MissingCharNotContained(a, "wallet", 0);
    MissingCharNotContained(a, Phone, 0);
  }

  lemma StealingCakeDetect(a: string)
    requires a == "stealing cake"
    ensures Detect(a, [0, 3]) == ["person", "cup", Food]
  {
    StealingCakeSceneLabels(a);
    assert DrawnLabels([0, 3]) == ["person", "cup"];
    DedupOfDistinct(["person", "cup"]);
    DedupOfDistinct(["person", "cup", Food]);
  }

  lemma StealingCakeCup(a: string)
    requires a == "stealing cake"
    ensures !IsRelevant("cup", a)
  {
    assert Lower(a) == a && Lower("cup") == "cup";
    MissingCharNotContained(a, "cup", 1);
  }

  lemma StealingCakeScore(a: string)
    requires a == "stealing cake"
    ensures Score(["person", "cup", Food], a) == 30
  {
    StealingCakeWords(a);
    StealingCakeCup(a);
    var objs := ["person", "cup", Food];
    assert objs[..2] == ["person", "cup"] && objs[..2][..1] == ["person"] && ["person"][..0] == [];
    assert RelevantCount(["person"], a) == 0;
    assert RelevantCount(["person", "cup"], a) == 0;
  }

  lemma CupOfCakeScore(b: string)
    requires b == "cup of cake"
    ensures Score(["person", "cup", Food], b) == 55
  {
    CupOfCakeWords(b);
    var objs := ["person", "cup", Food];
    assert objs[..2] == ["person", "cup"] && objs[..2][..1] == ["person"] && ["person"][..0] == [];
    assert RelevantCount(["person"], b) == 0;
    assert RelevantCount(["person", "cup"], b) == 1;
  }

  /** The labels a draw of "person" and "cup" gives for "stealing cake" score
      30 there, but 55 for "cup of cake", the scene they can be logged under. */
  lemma StaleScoreDiffers(a: string, b: string)
    requires a == "stealing cake" && b == "cup of cake"
    ensures Detect(a, [0, 3]) == ["person", "cup", Food]
    ensures Score(Detect(a, [0, 3]), a) == 30 && Score(Detect(a, [0, 3]), b) == 55
  {
    StealingCakeDetect(a);
    StealingCakeScore(a);
    CupOfCakeScore(b);
  }
}
