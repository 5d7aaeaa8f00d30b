/**
  The mock object detector and the scorer of the camera component
  (`mockObjectDetection` and `calculatePoints` in camera-capture.tsx).

  The detector's two uses of `Math.random` are inputs here: `draws` holds one
  vocabulary index per random draw, so its length is the draw count
  `Math.floor(Math.random() * 4) + 2` (2 to 5) and each element is
  `Math.floor(Math.random() * 8)` (0 to 7). With the draws fixed, detection is
  the deterministic function `Detect`, which the method is proved to compute.
 */
module Detector {
  import opened Base

  /** The eight labels the detector draws from, in the source's order. */
  const Vocabulary: seq<string> := ["person", "table", "chair", "cup", "book", "phone", "laptop", "bag"]

  /** Labels a scene prompt can add after the random draws. */
  const Food: string := "food"
  const Money: string := "money"
  const Phone: string := "phone"

  predicate NoDuplicates<T(==)>(s: seq<T>) {
    forall i, j :: 0 <= i < j < |s| ==> s[i] != s[j]
  }

  /** One step of `if (!detected.includes(obj)) detected.push(obj)`. */
  function AddIfAbsent(acc: seq<string>, x: string): seq<string> {
    if x in acc then acc else acc + [x]
  }

  /** Keeping the first occurrence of every element, in order: what both the
      draw loop and `[...new Set(detected)]` compute. */
  function Dedup(s: seq<string>): (r: seq<string>)
    ensures NoDuplicates(r)
    ensures forall x :: x in r <==> x in s
    ensures |r| <= |s|
  {
    if s == [] then [] else AddIfAbsent(Dedup(s[..|s| - 1]), s[|s| - 1])
  }

  /** A sequence that already has no duplicates passes through unchanged. */
  lemma {:induction false} DedupOfDistinct(s: seq<string>)
    requires NoDuplicates(s)
    ensures Dedup(s) == s
  {
    if s != [] {
      var init := s[..|s| - 1];
      assert NoDuplicates(init);
      DedupOfDistinct(init);
      assert s[|s| - 1] !in init;
      assert init + [s[|s| - 1]] == s;
    }
  }

  /** In a duplicate-free sequence every element present occurs exactly once. */
  lemma {:induction false} DistinctCountsOnce(s: seq<string>, x: string)
    requires NoDuplicates(s) && x in s
    ensures multiset(s)[x] == 1
  {
    var init := s[..|s| - 1];
    assert s == init + [s[|s| - 1]];
    assert NoDuplicates(init);
    if x == s[|s| - 1] {
      assert x !in init;
    } else {
      DistinctCountsOnce(init, x);
    }
  }

  predicate DrawsInRange(draws: seq<nat>) {
    forall i :: 0 <= i < |draws| ==> draws[i] < |Vocabulary|
  }

  /** What the random source can produce for one call of the detector. */
  predicate ValidDraws(draws: seq<nat>) {
    2 <= |draws| <= 5 && DrawsInRange(draws)
  }

  /** The vocabulary word picked by each draw, duplicates included. */
  function DrawnLabels(draws: seq<nat>): seq<string>
    requires DrawsInRange(draws)
  {
    seq(|draws|, i requires 0 <= i < |draws| => Vocabulary[draws[i]])
  }

  /** The trigger tests, which are case-sensitive `scene.includes(...)`. */
  predicate MentionsFood(scene: string) {
    Contains(scene, "cake") || Contains(scene, "cookie") || Contains(scene, "food")
  }

  predicate MentionsMoney(scene: string) {
    Contains(scene, "money") || Contains(scene, "wallet")
  }

  /** The labels pushed after the draws, in the order the source pushes them. */
  function SceneLabels(scene: string): seq<string> {
    (if MentionsFood(scene) then [Food] else [])
    + (if MentionsMoney(scene) then [Money] else [])
    + (if Contains(scene, Phone) then [Phone] else [])
  }

  /** The detector's output for a scene once its random draws are fixed. */
  function Detect(scene: string, draws: seq<nat>): (r: seq<string>)
    requires ValidDraws(draws)
    ensures NoDuplicates(r)
    ensures 1 <= |r| <= 8
    ensures forall x :: x in r ==> x in Vocabulary || x == Food || x == Money
  {
    var drawn := Dedup(DrawnLabels(draws));
    assert DrawnLabels(draws)[0] in drawn;
    Dedup(drawn + SceneLabels(scene))
  }

  /** `mockObjectDetection(scene)` with its random numbers given as `draws`. */
  method MockObjectDetection(scene: string, draws: seq<nat>) returns (detected: seq<string>)
    requires ValidDraws(draws)
    ensures detected == Detect(scene, draws)
    ensures NoDuplicates(detected)
  {
    var objects := Vocabulary;
    var labels := [];
    var i := 0;
    while i < |draws|
      invariant 0 <= i <= |draws|
      invariant labels == Dedup(DrawnLabels(draws)[..i])
    {
      var obj := objects[draws[i]];
      assert DrawnLabels(draws)[..i + 1] == DrawnLabels(draws)[..i] + [obj];
      if obj !in labels {
        labels := labels + [obj];
      }
      i := i + 1;
    }
    assert DrawnLabels(draws)[..i] == DrawnLabels(draws);
    ghost var drawn := labels;

    if Contains(scene, "cake") || Contains(scene, "cookie") || Contains(scene, "food") {
      labels := labels + [Food];
    }
    if Contains(scene, "money") || Contains(scene, "wallet") {
      labels := labels + [Money];
    }
    if Contains(scene, "phone") {
      labels := labels + [Phone];
    }
    assert labels == drawn + SceneLabels(scene);
    detected := Dedup(labels);
  }

  /** "food" is detected exactly when the scene, as written, mentions cake,
      cookie or food: no vocabulary word is "food". */
  lemma DetectFoodIff(scene: string, draws: seq<nat>)
    requires ValidDraws(draws)
    ensures Food in Detect(scene, draws) <==> MentionsFood(scene)
  {
  }

  /** "money" is detected exactly when the scene mentions money or a wallet. */
  lemma DetectMoneyIff(scene: string, draws: seq<nat>)
    requires ValidDraws(draws)
    ensures Money in Detect(scene, draws) <==> MentionsMoney(scene)
  {
  }

  /** A scene mentioning "phone" yields "phone" exactly once, also when a
      draw picked it as well. */
  lemma DetectPhoneOnce(scene: string, draws: seq<nat>)
    requires ValidDraws(draws) && Contains(scene, Phone)
    ensures Phone in Detect(scene, draws)
    ensures multiset(Detect(scene, draws))[Phone] == 1
  {
    var drawn := Dedup(DrawnLabels(draws));
    assert Phone in SceneLabels(scene);
    assert Phone in drawn + SceneLabels(scene);
    DistinctCountsOnce(Detect(scene, draws), Phone);
  }

  /** Scoring's relevance test: `scene.toLowerCase().includes(obj.toLowerCase())`. */
  predicate IsRelevant(obj: string, scene: string) {
    Contains(Lower(scene), Lower(obj))
  }

  /** How many labels of the list are relevant to the scene, counting repeats. */
  function RelevantCount(objects: seq<string>, scene: string): (n: nat)
    ensures n <= |objects|
  {
    if objects == [] then 0
    else RelevantCount(objects[..|objects| - 1], scene)
         + (if IsRelevant(objects[|objects| - 1], scene) then 1 else 0)
  }

  /** What `calculatePoints` returns: 10 per label plus 25 per relevant label. */
  function Score(objects: seq<string>, scene: string): (r: int)
    ensures 10 * |objects| <= r <= 35 * |objects|
    ensures objects == [] ==> r == 0
  {
    10 * |objects| + 25 * RelevantCount(objects, scene)
  }

  /** `calculatePoints(detectedObjects, scene)`. */
  method CalculatePoints(detectedObjects: seq<string>, scene: string) returns (points: int)
    ensures points == Score(detectedObjects, scene)
  {
    points := |detectedObjects| * 10;
    var lowerScene := Lower(scene);
    var i := 0;
    while i < |detectedObjects|
      invariant 0 <= i <= |detectedObjects|
      invariant points == 10 * |detectedObjects| + 25 * RelevantCount(detectedObjects[..i], scene)
    {
      assert detectedObjects[..i + 1][..i] == detectedObjects[..i];
      if Contains(lowerScene, Lower(detectedObjects[i])) {
        points := points + 25;
      }
      i := i + 1;
    }
    assert detectedObjects[..i] == detectedObjects;
  }

  lemma {:induction false} RelevantCountAppend(a: seq<string>, b: seq<string>, scene: string)
    ensures RelevantCount(a + b, scene) == RelevantCount(a, scene) + RelevantCount(b, scene)
    decreases |b|
  {
    if b != [] {
      var init := b[..|b| - 1];
      assert (a + b)[..|a + b| - 1] == a + init;
      assert (a + b)[|a + b| - 1] == b[|b| - 1];
      RelevantCountAppend(a, init, scene);
    } else {
      assert a + b == a;
    }
  }

  /** The score does not depend on the order of the labels. */
  lemma {:induction false} ScorePermutation(a: seq<string>, b: seq<string>, scene: string)
    requires multiset(a) == multiset(b)
    ensures Score(a, scene) == Score(b, scene)
    decreases |a|
  {
    assert |a| == |multiset(a)| == |multiset(b)| == |b|;
    if a != [] {
      var x := a[|a| - 1];
      var initA := a[..|a| - 1];
      assert a == initA + [x];
      assert x in multiset(b);
      var j :| 0 <= j < |b| && b[j] == x;
      var rest := b[..j] + b[j + 1..];
      assert b == b[..j] + [x] + b[j + 1..];
      assert multiset(a) == multiset(initA) + multiset{x};
      assert multiset(b) == multiset(b[..j]) + multiset{x} + multiset(b[j + 1..]);
      assert multiset(rest) == multiset(b[..j]) + multiset(b[j + 1..]);
      assert multiset(initA) == multiset(a) - multiset{x};
      assert multiset(rest) == multiset(b) - multiset{x};
      ScorePermutation(initA, rest, scene);
      RelevantCountAppend(initA, [x], scene);
      RelevantCountAppend(b[..j] + [x], b[j + 1..], scene);
      RelevantCountAppend(b[..j], [x], scene);
      RelevantCountAppend(b[..j], b[j + 1..], scene);
      assert [x][..0] == [];
    }
  }

  // The example lemmas below take each scene as a parameter pinned by a
  // `requires` rather than as a literal argument: with a literal, Dafny keeps
  // unfolding `Contains` on it and the proofs become too slow.

  lemma StealingCakeWords(scene: string)
    requires scene == "stealing cake"
    ensures Contains(scene, "cake")
    ensures !IsRelevant(Food, scene) && !IsRelevant("person", scene)
  {
    ContainsAt(scene, "cake", 9);
    assert Lower(scene) == scene;
    assert Lower(Food) == Food;
    assert Lower("person") == "person";
    MissingCharNotContained(scene, Food, 0);
    MissingCharNotContained(scene, "person", 0);
  }

  /** The trigger for "food" is case-sensitive and scoring is not, but they
      also test different words: the "food" a cake scene adds is not itself a
      substring of that scene, so it earns 10 points and no bonus. */
  lemma CakeSceneFoodEarnsNoBonus(scene: string, draws: seq<nat>)
    requires scene == "stealing cake" && ValidDraws(draws)
    ensures Food in Detect(scene, draws)
    ensures Score(["person", Food], scene) == 20
  {
    StealingCakeWords(scene);
    DetectFoodIff(scene, draws);
    assert ["person", Food][..1] == ["person"];
    assert ["person"][..0] == [];
    assert RelevantCount(["person"], scene) == 0;
    assert RelevantCount(["person", Food], scene) == 0;
  }

  /** A scene without the letters 'f', 'k', 'm', 'p' and 'w' triggers no label. */
  lemma NoTriggerLetters(scene: string)
    requires 'f' !in scene && 'k' !in scene && 'm' !in scene && 'p' !in scene && 'w' !in scene
    ensures SceneLabels(scene) == []
  {
    MissingCharNotContained(scene, Phone, 0);
    MissingCharNotContained(scene, "cake", 2);
    MissingCharNotContained(scene, "cookie", 3);
    MissingCharNotContained(scene, "food", 0);
    MissingCharNotContained(scene, "money", 0);
    MissingCharNotContained(scene, "wallet", 0);
  }

  lemma SecretPhoneCallScoresPhone(scene: string)
    requires scene == "Secret PHONE call"
    ensures IsRelevant(Phone, scene)
  {
    assert Lower(scene) == "secret phone call";
    assert Lower(Phone) == Phone;
    ContainsAt(Lower(scene), Phone, 7);
  }

  /** A scene spelling "PHONE" in capitals does not trigger the "phone" label,
      yet a drawn "phone" label scores its bonus there. */
  lemma UpperCasePhoneIsScoredNotTriggered(scene: string, draws: seq<nat>)
    requires scene == "Secret PHONE call" && ValidDraws(draws)
    ensures Phone in Detect(scene, draws) <==> Phone in DrawnLabels(draws)
    ensures Score([Phone], scene) == 35
  {
    NoTriggerLetters(scene);
    SecretPhoneCallScoresPhone(scene);
    assert Dedup(DrawnLabels(draws)) + [] == Dedup(DrawnLabels(draws));
    assert [Phone][..0] == [];
  }
}
