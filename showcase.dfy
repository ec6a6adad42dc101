/** The views showcase (initViewsShowcase): a group of view buttons and a group of view
    images of which the ones for the current view carry the active class, a sliding
    indicator under the buttons, and two modes chosen by viewport width: on wide screens the
    view follows the scroll position, on compact screens an interval advances it, paused
    while the pointer is over the showcase. */
module Showcase {
  import opened Views
  import opened Page

  /** The active flags of a group of elements tagged with views after selecting v: the
      class is removed from all of them and added to the first element tagged v, the one
      a document query for that tag returns (script.js:309-311, 320-322). */
  function Marked(tags: seq<View>, v: View): (flags: seq<bool>)
    ensures |flags| == |tags|
  {
    seq(|tags|, i requires 0 <= i < |tags| => tags[i] == v && forall j :: 0 <= j < i ==> tags[j] != v)
  }

  /** After a selection at most one element of a group is active, it is tagged with the
      selected view, and one is active whenever some element carries that tag. */
  lemma {:induction false} MarkedExclusive(tags: seq<View>, v: View)
    ensures forall i, j :: 0 <= i < j < |tags| ==> !(Marked(tags, v)[i] && Marked(tags, v)[j])
    ensures forall i :: 0 <= i < |tags| && Marked(tags, v)[i] ==> tags[i] == v
    ensures v in tags ==> exists i :: 0 <= i < |tags| && Marked(tags, v)[i]
    decreases |tags|
  {
    if tags != [] && v in tags {
      if tags[0] == v {
        assert Marked(tags, v)[0];
      } else {
        var rest := tags[1..];
        assert v in rest by {
          var k :| 0 <= k < |tags| && tags[k] == v;
          assert rest[k - 1] == v;
        }
        MarkedExclusive(rest, v);
        var i :| 0 <= i < |rest| && Marked(rest, v)[i];
        assert Marked(tags, v)[i + 1] by {
          forall j | 0 <= j < i + 1 ensures tags[j] != v {
            if j > 0 {
              assert tags[j] == rest[j - 1];
            }
          }
        }
      }
    }
  }

  /** Clears the active class on a group, then sets it on the first element tagged v. */
  method ActivateFirst(flags: array<bool>, tags: seq<View>, v: View)
    requires flags.Length == |tags|
    modifies flags
    ensures flags[..] == Marked(tags, v)
  {
    var i := 0;
    while i < flags.Length
      invariant 0 <= i <= flags.Length
      invariant forall j :: 0 <= j < i ==> !flags[j]
    {
      flags[i] := false;
      i := i + 1;
    }
    var k := 0;
    while k < |tags| && tags[k] != v
      invariant 0 <= k <= |tags|
      invariant forall j :: 0 <= j < k ==> tags[j] != v
    {
      k := k + 1;
    }
    if k < |tags| {
      flags[k] := true;
    }
    assert forall j :: 0 <= j < |tags| ==> flags[j] == Marked(tags, v)[j];
  }

  /** The closure state of initViewsShowcase. liveIntervals and nextHandle stand for the
      browser's table of running intervals, so that a leaked interval would be visible. */
  class ViewShowcase {
    const buttonTags: seq<View>
    const imageTags: seq<View>
    const buttonActive: array<bool>
    const imageActive: array<bool>
    const hasIndicator: bool
    const hasContainer: bool
    var indicatorSlot: nat
    var currentView: View
    var autoPlay: Option<nat>
    var isPaused: bool
    var liveIntervals: set<nat>
    var nextHandle: nat

    /** Both groups exist and match their tags, and the only interval running is the one
        autoPlay holds. */
    ghost predicate Valid()
      reads this
    {
      && buttonActive != imageActive
      && 0 < buttonActive.Length == |buttonTags|
      && 0 < imageActive.Length == |imageTags|
      && liveIntervals == (if autoPlay.Some? then {autoPlay.value} else {})
      && (autoPlay.Some? ==> 0 < autoPlay.value < nextHandle)
      && 0 < nextHandle
    }

    /** The buttons, the images and the indicator all show v. */
    ghost predicate Shows(v: View)
      reads this, buttonActive, imageActive
    {
      && buttonActive[..] == Marked(buttonTags, v)
      && imageActive[..] == Marked(imageTags, v)
      && (hasIndicator ==> indicatorSlot == IndicatorSlot(v))
    }

    /** Setup with the page's markup as found, then init (script.js:287-302, 430-431). The
        component exists only when there are buttons, images and the section. */
    constructor (buttonTags: seq<View>, initialButtons: seq<bool>,
                 imageTags: seq<View>, initialImages: seq<bool>,
                 hasIndicator: bool, initialSlot: nat, hasContainer: bool,
                 innerWidth: int, scrolled: real, scrollableHeight: real)
      requires 0 < |buttonTags| == |initialButtons|
      requires 0 < |imageTags| == |initialImages|
      requires IsCompact(innerWidth) || scrollableHeight > 0.0
      ensures Valid() && fresh(buttonActive) && fresh(imageActive)
      ensures this.buttonTags == buttonTags && this.imageTags == imageTags
      ensures this.hasIndicator == hasIndicator && this.hasContainer == hasContainer
      ensures !isPaused
      ensures IsCompact(innerWidth) ==>
        && currentView == Card && autoPlay.Some?
        && buttonActive[..] == initialButtons && imageActive[..] == initialImages
        && indicatorSlot == initialSlot
      ensures !IsCompact(innerWidth) ==>
        && autoPlay == None && liveIntervals == {}
        && currentView == ViewForScroll(scrolled, scrollableHeight)
        && (currentView != Card ==> Shows(currentView))
        && (currentView != Card && !hasIndicator ==> indicatorSlot == initialSlot)
        && (currentView == Card ==>
              && buttonActive[..] == initialButtons && imageActive[..] == initialImages
              && indicatorSlot == initialSlot)
    {
      this.buttonTags := buttonTags;
      this.imageTags := imageTags;
      buttonActive := new bool[|initialButtons|](i requires 0 <= i < |initialButtons| => initialButtons[i]);
      imageActive := new bool[|initialImages|](i requires 0 <= i < |initialImages| => initialImages[i]);
      this.hasIndicator := hasIndicator;
      this.hasContainer := hasContainer;
      indicatorSlot := initialSlot;
      currentView := Card;
      autoPlay := None;
      isPaused := false;
      liveIntervals := {};
      nextHandle := 1;
      new;
      Init(innerWidth, scrolled, scrollableHeight);
    }

    /** switchView (script.js:304-323): nothing when v is already current; otherwise v
        becomes current and the buttons, the indicator and the images show it. */
    method SwitchView(v: View)
      requires Valid()
      modifies this, buttonActive, imageActive
      ensures Valid()
      ensures autoPlay == old(autoPlay) && isPaused == old(isPaused)
      ensures liveIntervals == old(liveIntervals) && nextHandle == old(nextHandle)
      ensures currentView == v
      ensures v == old(currentView) ==>
        && buttonActive[..] == old(buttonActive[..]) && imageActive[..] == old(imageActive[..])
        && indicatorSlot == old(indicatorSlot)
      ensures v != old(currentView) ==> Shows(v)
      ensures v != old(currentView) && !hasIndicator ==> indicatorSlot == old(indicatorSlot)
    {
      if v == currentView {
        return;
      }
      currentView := v;
      ActivateFirst(buttonActive, buttonTags, v);
      if hasIndicator {
        indicatorSlot := IndicatorSlot(v);
      }
      ActivateFirst(imageActive, imageTags, v);
    }

    /** nextView (script.js:343-347): the next view in the cycle order, always a change. */
    method NextView()
      requires Valid()
      modifies this, buttonActive, imageActive
      ensures Valid()
      ensures autoPlay == old(autoPlay) && isPaused == old(isPaused)
      ensures liveIntervals == old(liveIntervals) && nextHandle == old(nextHandle)
      ensures currentView == Successor(old(currentView)) && Shows(currentView)
      ensures !hasIndicator ==> indicatorSlot == old(indicatorSlot)
    {
      var currentIndex := CycleIndex(currentView);
      var nextIndex := (currentIndex + 1) % |CycleOrder|;
      SwitchView(CycleOrder[nextIndex]);
    }

    /** clearInterval on the browser's table. */
    method ClearInterval(handle: nat)
      modifies this
      ensures liveIntervals == old(liveIntervals) - {handle}
      ensures nextHandle == old(nextHandle)
      ensures autoPlay == old(autoPlay) && currentView == old(currentView)
      ensures isPaused == old(isPaused) && indicatorSlot == old(indicatorSlot)
    {
      liveIntervals := liveIntervals - {handle};
    }

    /** setInterval on the browser's table: a new positive handle, never used before. */
    method SetInterval() returns (handle: nat)
      modifies this
      ensures handle == old(nextHandle) && nextHandle == handle + 1
      ensures liveIntervals == old(liveIntervals) + {handle}
      ensures autoPlay == old(autoPlay) && currentView == old(currentView)
      ensures isPaused == old(isPaused) && indicatorSlot == old(indicatorSlot)
    {
      handle := nextHandle;
      nextHandle := nextHandle + 1;
      liveIntervals := liveIntervals + {handle};
    }

    /** startAutoPlay (script.js:349-354): clears the running interval first, so exactly one
        interval runs afterwards, and it is a new one. */
    method StartAutoPlay()
      requires Valid()
      modifies this
      ensures Valid()
      ensures autoPlay.Some? && autoPlay.value !in old(liveIntervals)
      ensures liveIntervals == {autoPlay.value}
      ensures currentView == old(currentView) && isPaused == old(isPaused)
      ensures indicatorSlot == old(indicatorSlot)
    {
      if autoPlay.Some? {
        ClearInterval(autoPlay.value);
      }
      var handle := SetInterval();
      autoPlay := Some(handle);
    }

    /** stopAutoPlay (script.js:356-361): no interval runs afterwards. */
    method StopAutoPlay()
      requires Valid()
      modifies this
      ensures Valid()
      ensures autoPlay == None && liveIntervals == {}
      ensures nextHandle == old(nextHandle)
      ensures currentView == old(currentView) && isPaused == old(isPaused)
      ensures indicatorSlot == old(indicatorSlot)
    {
      if autoPlay.Some? {
        ClearInterval(autoPlay.value);
        autoPlay := None;
      }
    }

    /** One tick of the running interval (script.js:351-353): advances unless paused. */
    method OnInterval(handle: nat)
      requires Valid() && handle in liveIntervals
      modifies this, buttonActive, imageActive
      ensures Valid()
      ensures autoPlay == old(autoPlay) && isPaused == old(isPaused)
      ensures liveIntervals == old(liveIntervals) && nextHandle == old(nextHandle)
      ensures old(isPaused) ==>
        && currentView == old(currentView) && indicatorSlot == old(indicatorSlot)
        && buttonActive[..] == old(buttonActive[..]) && imageActive[..] == old(imageActive[..])
      ensures !old(isPaused) ==> currentView == Successor(old(currentView)) && Shows(currentView)
      ensures !hasIndicator ==> indicatorSlot == old(indicatorSlot)
    {
      if !isPaused {
        NextView();
      }
    }

    /** A click on the i-th button (script.js:326-335): switches to its view and restarts a
        running auto-play so the next advance is a full interval away. */
    method OnButtonClick(i: nat)
      requires Valid() && i < |buttonTags|
      modifies this, buttonActive, imageActive
      ensures Valid()
      ensures currentView == buttonTags[i] && isPaused == old(isPaused)
      ensures buttonTags[i] != old(currentView) ==> Shows(currentView)
      ensures buttonTags[i] == old(currentView) ==>
        && buttonActive[..] == old(buttonActive[..]) && imageActive[..] == old(imageActive[..])
        && indicatorSlot == old(indicatorSlot)
      ensures !hasIndicator ==> indicatorSlot == old(indicatorSlot)
      ensures old(autoPlay) == None ==> autoPlay == None && liveIntervals == {}
      ensures old(autoPlay).Some? ==>
        autoPlay.Some? && autoPlay.value !in old(liveIntervals) && liveIntervals == {autoPlay.value}
    {
      SwitchView(buttonTags[i]);
      if autoPlay.Some? {
        StartAutoPlay();
      }
    }

    /** Pointer enters the showcase container (script.js:409). */
    method OnMouseEnter()
      requires Valid() && hasContainer
      modifies this
      ensures Valid() && isPaused
      ensures currentView == old(currentView) && autoPlay == old(autoPlay)
      ensures liveIntervals == old(liveIntervals) && nextHandle == old(nextHandle)
      ensures indicatorSlot == old(indicatorSlot)
    {
      isPaused := true;
    }

    /** Pointer leaves the showcase container (script.js:410). */
    method OnMouseLeave()
      requires Valid() && hasContainer
      modifies this
      ensures Valid() && !isPaused
      ensures currentView == old(currentView) && autoPlay == old(autoPlay)
      ensures liveIntervals == old(liveIntervals) && nextHandle == old(nextHandle)
      ensures indicatorSlot == old(indicatorSlot)
    {
      isPaused := false;
    }

    /** handleScroll (script.js:364-393): nothing on compact screens; otherwise the view of
        the scroll zone becomes current. */
    method HandleScroll(innerWidth: int, scrolled: real, scrollableHeight: real)
      requires Valid()
      requires IsCompact(innerWidth) || scrollableHeight > 0.0
      modifies this, buttonActive, imageActive
      ensures Valid()
      ensures autoPlay == old(autoPlay) && isPaused == old(isPaused)
      ensures liveIntervals == old(liveIntervals) && nextHandle == old(nextHandle)
      ensures IsCompact(innerWidth) ==>
        && currentView == old(currentView) && indicatorSlot == old(indicatorSlot)
        && buttonActive[..] == old(buttonActive[..]) && imageActive[..] == old(imageActive[..])
      ensures !IsCompact(innerWidth) ==>
        && currentView == ViewForScroll(scrolled, scrollableHeight)
        && (currentView != old(currentView) ==> Shows(currentView))
      ensures currentView == old(currentView) ==>
        && buttonActive[..] == old(buttonActive[..]) && imageActive[..] == old(imageActive[..])
        && indicatorSlot == old(indicatorSlot)
      ensures !hasIndicator ==> indicatorSlot == old(indicatorSlot)
    {
      if IsCompact(innerWidth) {
        return;
      }
      var targetView := ViewForScroll(scrolled, scrollableHeight);
      SwitchView(targetView);
    }

    /** init, run at setup and on every resize (script.js:414-428): auto-play exactly on
        compact screens; on wide screens no interval runs and the view is recomputed from
        the scroll position at once. */
    method Init(innerWidth: int, scrolled: real, scrollableHeight: real)
      requires Valid()
      requires IsCompact(innerWidth) || scrollableHeight > 0.0
      modifies this, buttonActive, imageActive
      ensures Valid() && isPaused == old(isPaused)
      ensures autoPlay.Some? <==> IsCompact(innerWidth)
      ensures IsCompact(innerWidth) ==>
        && autoPlay.value !in old(liveIntervals) && liveIntervals == {autoPlay.value}
        && currentView == old(currentView) && indicatorSlot == old(indicatorSlot)
        && buttonActive[..] == old(buttonActive[..]) && imageActive[..] == old(imageActive[..])
      ensures !IsCompact(innerWidth) ==>
        && liveIntervals == {}
        && currentView == ViewForScroll(scrolled, scrollableHeight)
        && (currentView != old(currentView) ==> Shows(currentView))
      ensures currentView == old(currentView) ==>
        && buttonActive[..] == old(buttonActive[..]) && imageActive[..] == old(imageActive[..])
        && indicatorSlot == old(indicatorSlot)
      ensures !hasIndicator ==> indicatorSlot == old(indicatorSlot)
    {
      if IsCompact(innerWidth) {
        StartAutoPlay();
      } else {
        StopAutoPlay();
        HandleScroll(innerWidth, scrolled, scrollableHeight);
      }
    }
  }
}
