/** The three presentations of the showcase section and the pure tables around them: the
    cycle order that scroll progress and auto-play follow, the display order of the buttons
    that places the sliding indicator, and the map from scroll progress to a view. */
module Views {

  datatype View = Card | Normal | Minimal

  /** Scroll and auto-play order: Card, then Normal, then Minimal (script.js:297). */
  const CycleOrder: seq<View> := [Card, Normal, Minimal]

  /** Left-to-right order of the buttons, which the indicator slides over (script.js:299, 313). */
  const DisplayOrder: seq<View> := [Minimal, Normal, Card]

  /** Position of a view in the cycle order: views.indexOf (script.js:344). */
  function CycleIndex(v: View): (i: nat)
    ensures i < |CycleOrder| && CycleOrder[i] == v
  {
    match v
    case Card => 0
    case Normal => 1
    case Minimal => 2
  }

  /** The indicator slot of a view: the table indicatorPositions (script.js:299). */
  function IndicatorSlot(v: View): (slot: nat)
    ensures slot < |DisplayOrder| && DisplayOrder[slot] == v
  {
    match v
    case Minimal => 0
    case Normal => 1
    case Card => 2
  }

  /** The view after v in the cycle (script.js:343-347). */
  function Successor(v: View): (w: View)
    ensures w != v
    ensures CycleIndex(w) == (CycleIndex(v) + 1) % |CycleOrder|
  {
    CycleOrder[(CycleIndex(v) + 1) % |CycleOrder|]
  }

  /** Scroll progress clamped to [0, 1] (script.js:380). */
  function Clamp(x: real): (p: real)
    ensures 0.0 <= p <= 1.0
    ensures 0.0 <= x <= 1.0 ==> p == x
    ensures x < 0.0 ==> p == 0.0
    ensures x > 1.0 ==> p == 1.0
  {
    if 1.0 < x then 1.0 else if x < 0.0 then 0.0 else x
  }

  /** The three scroll zones (script.js:383-390). */
  function ViewForProgress(p: real): (v: View)
    ensures v == Card <==> p < 0.33
    ensures v == Normal <==> 0.33 <= p < 0.66
    ensures v == Minimal <==> p >= 0.66
  {
    if p < 0.33 then Card else if p < 0.66 then Normal else Minimal
  }

  /** The view for a scrolled distance into a section whose scrollable height is positive
      (script.js:376-390): Card up to a third of the height, Minimal from two thirds on,
      Normal between; above the section counts as the start, past it as the end. */
  function ViewForScroll(scrolled: real, scrollableHeight: real): (v: View)
    requires scrollableHeight > 0.0
    ensures v == Card <==> scrolled < 0.33 * scrollableHeight
    ensures v == Minimal <==> scrolled >= 0.66 * scrollableHeight
    ensures scrolled <= 0.0 ==> v == Card
    ensures scrolled >= scrollableHeight ==> v == Minimal
  {
    ScrollZones(scrolled, scrollableHeight);
    ViewForProgress(Clamp(scrolled / scrollableHeight))
  }

  /** Comparing the progress ratio with a zone boundary is comparing the scrolled distance
      with that fraction of the height. */
  lemma ScrollZones(scrolled: real, h: real)
    requires h > 0.0
    ensures scrolled / h < 0.33 <==> scrolled < 0.33 * h
    ensures scrolled / h < 0.66 <==> scrolled < 0.66 * h
  {
    var x := scrolled / h;
    assert x * h == scrolled;
    ScaleStrict(x, 0.33, h);
    ScaleStrict(x, 0.66, h);
  }

  /** Multiplying both sides by a positive height keeps a strict comparison. */
  lemma ScaleStrict(a: real, b: real, h: real)
    requires h > 0.0
    ensures a < b <==> a * h < b * h
  {
  }

  /** The two tables are independent but read the same three views in opposite orders. */
  lemma OrdersAreReversed(v: View)
    ensures IndicatorSlot(v) + CycleIndex(v) == |CycleOrder| - 1
    ensures DisplayOrder[IndicatorSlot(v)] == CycleOrder[CycleIndex(v)]
  {
  }

  /** Each table gives each view its own position. */
  lemma TablesAreBijections(v: View, w: View)
    ensures CycleIndex(v) == CycleIndex(w) <==> v == w
    ensures IndicatorSlot(v) == IndicatorSlot(w) <==> v == w
  {
  }

  /** Three successor steps return to the start, visiting all three views (script.js:343-347). */
  lemma SuccessorCycles(v: View)
    ensures Successor(Successor(Successor(v))) == v
    ensures {v, Successor(v), Successor(Successor(v))} == {Card, Normal, Minimal}
  {
  }

  /** The zones follow the scroll: more progress never gives an earlier view. */
  lemma ProgressMonotone(p: real, q: real)
    requires p <= q
    ensures CycleIndex(ViewForProgress(Clamp(p))) <= CycleIndex(ViewForProgress(Clamp(q)))
  {
  }

  /** The zone boundaries, at the sample points 0, 0.32, 0.33, 0.65, 0.66 and 1. */
  lemma ProgressSamples()
    ensures ViewForProgress(Clamp(0.0)) == Card
    ensures ViewForProgress(Clamp(0.32)) == Card
    ensures ViewForProgress(Clamp(0.33)) == Normal
    ensures ViewForProgress(Clamp(0.65)) == Normal
    ensures ViewForProgress(Clamp(0.66)) == Minimal
    ensures ViewForProgress(Clamp(1.0)) == Minimal
  {
  }
}
