/** The FAQ accordion (initFAQ): a click on an item's question closes every other open item
    and toggles the clicked one, so at most one item is ever open. */
module Faq {

  /** At most one flag is set. */
  predicate AtMostOneActive(flags: seq<bool>)
  {
    forall i, j :: 0 <= i < j < |flags| ==> !(flags[i] && flags[j])
  }

  /** The flags after a click on item i: whatever was open before, only the clicked item can
      be open afterwards, and its flag is flipped. */
  function AfterClick(flags: seq<bool>, i: nat): (r: seq<bool>)
    requires i < |flags|
    ensures |r| == |flags|
    ensures AtMostOneActive(r)
    ensures r[i] == !flags[i]
    ensures forall j :: 0 <= j < |r| && j != i ==> !r[j]
  {
    seq(|flags|, j requires 0 <= j < |flags| => if j == i then !flags[i] else false)
  }

  /** Clicking the open item closes the accordion; clicking a closed one leaves exactly
      that item open. */
  lemma ClickOpensOrCloses(flags: seq<bool>, i: nat)
    requires i < |flags|
    ensures flags[i] ==> forall j :: 0 <= j < |flags| ==> !AfterClick(flags, i)[j]
    ensures !flags[i] ==> forall j :: 0 <= j < |flags| ==> (AfterClick(flags, i)[j] <==> j == i)
  {
  }

  /** The items of the accordion; an item without a question element has no listener. */
  class Accordion {
    const active: array<bool>
    const hasQuestion: seq<bool>

    ghost predicate Valid()
      reads this
    {
      active.Length == |hasQuestion|
    }

    /** Setup with the page's markup as found (script.js:260-265). */
    constructor (initialActive: seq<bool>, hasQuestion: seq<bool>)
      requires |initialActive| == |hasQuestion|
      ensures Valid() && fresh(active)
      ensures active[..] == initialActive && this.hasQuestion == hasQuestion
    {
      active := new bool[|initialActive|](i requires 0 <= i < |initialActive| => initialActive[i]);
      this.hasQuestion := hasQuestion;
    }

    /** A click on the question of item i (script.js:267-277). */
    method OnQuestionClick(i: nat)
      requires Valid() && i < active.Length && hasQuestion[i]
      modifies active
      ensures active[..] == AfterClick(old(active[..]), i)
    {
      var j := 0;
      while j < active.Length
        invariant 0 <= j <= active.Length
        invariant forall k :: 0 <= k < j && k != i ==> !active[k]
        invariant forall k :: j <= k < active.Length ==> active[k] == old(active[k])
        invariant active[i] == old(active[i])
      {
        if j != i && active[j] {
          active[j] := false;
        }
        j := j + 1;
      }
      active[i] := !active[i];
      assert forall k :: 0 <= k < active.Length ==> active[k] == AfterClick(old(active[..]), i)[k];
    }
  }
}
