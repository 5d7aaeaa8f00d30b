/**
  The spy-log pinboard (spy-log.tsx): a fixed nine-slot table of positions,
  the style of the pin at each list position, and what the panel shows for a
  list of entries.
 */
module Pinboard {
  import opened Session

  /** One row of the position table: CSS `top` and `left`, rotation in degrees. */
  datatype Slot = Slot(top: string, left: string, rotate: int)

  /** The table, in the source's order. */
  const Positions: seq<Slot> := [
    Slot("8%", "10%", -3),
    Slot("5%", "45%", 2),
    Slot("12%", "75%", -2),
    Slot("35%", "8%", 4),
    Slot("38%", "52%", -4),
    Slot("42%", "82%", 3),
    Slot("65%", "15%", -2),
    Slot("68%", "55%", 2),
    Slot("70%", "85%", -3)
  ]

  /** The style `getPinboardStyle` returns. Its `position` is always
      "absolute" and its `transform` is `rotate(<rotate>deg)`. */
  datatype PinStyle = PinStyle(top: string, left: string, rotate: int, zIndex: int)

  lemma RotationsBounded()
    ensures forall k :: 0 <= k < |Positions| ==> -4 <= Positions[k].rotate <= 4
  {
  }

  /** `getPinboardStyle(index)`: the slot at `index % 9`, stacked at `index`. */
  function PinboardStyle(index: nat): (r: PinStyle)
    ensures r.zIndex == index
    ensures -4 <= r.rotate <= 4
    ensures r.top == Positions[index % 9].top && r.left == Positions[index % 9].left
    ensures r.rotate == Positions[index % 9].rotate
  {
    RotationsBounded();
    var pos := Positions[index % |Positions|];
    PinStyle(pos.top, pos.left, pos.rotate, index)
  }

  /** Positions nine apart share a slot: their styles differ only in `zIndex`. */
  lemma StyleRepeatsEveryNine(index: nat)
    ensures PinboardStyle(index + 9) == PinboardStyle(index).(zIndex := index + 9)
  {
    assert (index + 9) % 9 == index % 9;
  }

  /** One pinned entry: its style, whether its photo is shown (an empty
      `imageUrl` is falsy and shows the placeholder), and its "+score" badge. */
  datatype Pin = Pin(entry: SpyLogEntry, style: PinStyle, showsPhoto: bool, badge: int)

  /** The panel body: the "NO MISSIONS YET" placeholder or the pinned entries. */
  datatype Board = NoMissionsYet | Pins(pins: seq<Pin>)

  /** The header's "<n> MISSIONS COMPLETED" count and the panel body. */
  datatype SpyLogView = SpyLogView(missionsCompleted: nat, board: Board)

  /** `SpyLog({ entries })`. */
  function RenderSpyLog(entries: seq<SpyLogEntry>): (v: SpyLogView)
    ensures v.missionsCompleted == |entries|
    ensures v.board.NoMissionsYet? <==> entries == []
    ensures v.board.Pins? ==> |v.board.pins| == |entries|
    ensures v.board.Pins? ==> forall i :: 0 <= i < |v.board.pins| ==>
              && v.board.pins[i].entry == entries[i]
              && v.board.pins[i].style == PinboardStyle(i)
              && v.board.pins[i].badge == entries[i].score
              && (v.board.pins[i].showsPhoto <==> entries[i].imageUrl != "")
  {
    SpyLogView(
      |entries|,
      if |entries| == 0 then NoMissionsYet
      else Pins(seq(|entries|, i requires 0 <= i < |entries| =>
                  Pin(entries[i], PinboardStyle(i), entries[i].imageUrl != "", entries[i].score))))
  }

  /** Placement depends on list positions only: two lists of the same length
      put their pins in the same places, whatever the entries are. */
  lemma PlacementIgnoresEntries(a: seq<SpyLogEntry>, b: seq<SpyLogEntry>, i: nat)
    requires |a| == |b| && i < |a|
    ensures RenderSpyLog(a).board.Pins? && RenderSpyLog(b).board.Pins?
    ensures RenderSpyLog(a).board.pins[i].style == RenderSpyLog(b).board.pins[i].style
  {
  }

  /** Since a capture logs its entry in front, every entry already pinned
      moves to the next position's style. */
  lemma CaptureShiftsPins(e: SpyLogEntry, log: seq<SpyLogEntry>, i: nat)
    requires i < |log|
    ensures RenderSpyLog([e] + log).board.Pins?
    ensures RenderSpyLog([e] + log).board.pins[i + 1].entry == log[i]
    ensures RenderSpyLog([e] + log).board.pins[i + 1].style == PinboardStyle(i + 1)
    ensures RenderSpyLog([e] + log).board.pins[0].style == PinboardStyle(0)
  {
  }
}
