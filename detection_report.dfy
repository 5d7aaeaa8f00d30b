/**
  The detection report (detection-results.tsx): which detected labels count as
  relevant to the scene, how each label's badge is drawn, and the bonus line,
  together with the proof that the bonus it states is the bonus the scorer of
  the camera component adds.
 */
module DetectionReport {
  import opened Base
  import opened Detector

  /** `relevantObjects`: the labels of `objects` relevant to the scene, in order. */
  function Relevant(objects: seq<string>, scene: string): (r: seq<string>)
    ensures |r| <= |objects|
    ensures forall x :: x in r <==> x in objects && IsRelevant(x, scene)
  {
    if objects == [] then []
    else
      var last := objects[|objects| - 1];
      Relevant(objects[..|objects| - 1], scene) + (if IsRelevant(last, scene) then [last] else [])
  }

  /** `sub` is read off `objects` at the strictly increasing positions `idx`. */
  ghost predicate PicksOut(sub: seq<string>, objects: seq<string>, idx: seq<nat>) {
    && |idx| == |sub|
    && (forall k :: 0 <= k < |idx| ==> idx[k] < |objects| && sub[k] == objects[idx[k]])
    && (forall k, l :: 0 <= k < l < |idx| ==> idx[k] < idx[l])
  }

  /** The filter keeps the order of `detectedObjects` and keeps exactly the
      positions whose label is relevant. */
  lemma {:induction false} RelevantIsOrderedSubsequence(objects: seq<string>, scene: string)
    returns (idx: seq<nat>)
    ensures PicksOut(Relevant(objects, scene), objects, idx)
    ensures forall j :: 0 <= j < |objects| ==> (j in idx <==> IsRelevant(objects[j], scene))
  {
    if objects == [] {
      idx := [];
    } else {
      var n := |objects| - 1;
      var init := objects[..n];
      var p := RelevantIsOrderedSubsequence(init, scene);
      if IsRelevant(objects[n], scene) {
        idx := p + [n];
      } else {
        idx := p;
      }
      forall j | 0 <= j < |objects|
        ensures j in idx <==> IsRelevant(objects[j], scene)
      {
        if j < n {
          assert init[j] == objects[j];
        }
      }
    }
  }

  /** One badge of the "IDENTIFIED OBJECTS" list. */
  datatype ObjectBadge = ObjectBadge(text: string, highlighted: bool)

  /** The badges: each label upper-cased, highlighted when
      `relevantObjects.includes(obj)`, which is when the label is relevant. */
  function Badges(objects: seq<string>, scene: string): (r: seq<ObjectBadge>)
    ensures |r| == |objects|
    ensures forall i :: 0 <= i < |r| ==>
              r[i].text == Upper(objects[i]) && (r[i].highlighted <==> IsRelevant(objects[i], scene))
  {
    var relevant := Relevant(objects, scene);
    seq(|objects|, i requires 0 <= i < |objects| => ObjectBadge(Upper(objects[i]), objects[i] in relevant))
  }

  /** "BONUS: <count> relevant object(s) detected (+<points> pts)". */
  datatype BonusLine = BonusLine(count: nat, noun: string, points: nat)

  /** The bonus line, shown only when some label is relevant. */
  function Bonus(objects: seq<string>, scene: string): (r: Option<BonusLine>)
    ensures r.Some? <==> exists i :: 0 <= i < |objects| && IsRelevant(objects[i], scene)
    ensures r.Some? ==> r.value.count == |Relevant(objects, scene)| && r.value.points == 25 * r.value.count
    ensures r.Some? ==> (r.value.noun == "object" <==> r.value.count == 1)
  {
    var n := |Relevant(objects, scene)|;
    if n > 0 then
      assert Relevant(objects, scene)[0] in Relevant(objects, scene);
      Some(BonusLine(n, if n == 1 then "object" else "objects", n * 25))
    else
      assert forall i :: 0 <= i < |objects| ==> objects[i] !in Relevant(objects, scene);
      None
  }

  /** The scorer's count of relevant labels is the length of the report's filter. */
  lemma {:induction false} RelevantCountIsFilterLength(objects: seq<string>, scene: string)
    ensures RelevantCount(objects, scene) == |Relevant(objects, scene)|
  {
    if objects != [] {
      RelevantCountIsFilterLength(objects[..|objects| - 1], scene);
    }
  }

  /** The points the camera component awards are 10 per label plus exactly
      the bonus the report states (none when no bonus line is shown). */
  lemma ScoreMatchesReport(objects: seq<string>, scene: string)
    ensures Score(objects, scene)
            == 10 * |objects| + (if Bonus(objects, scene).Some? then Bonus(objects, scene).value.points else 0)
  {
    RelevantCountIsFilterLength(objects, scene);
  }
}
