/** The hero intro (initHeroDeviceReveal): a one-shot sequence that locks page scrolling
    until the visitor shows intent (wheel, swipe, key, click or a fallback timeout), plays a
    staged zoom-out and device reveal, then unlocks scrolling and detaches its five listeners.

    The closure state of the source is the class IntroSequence below; its handlers are proved
    against the pure transition function Step, and the properties of whole event sequences
    are proved about Run. Timers are events the caller delivers (Timeout). */
module Intro {
  import Page

  /** The one-shot timeouts the sequence schedules. */
  datatype Timer =
    | Reveal    // 500 ms after setup: screenshot fades in, phase 1
    | Fallback  // 2500 ms after setup: start if nothing else has
    | Devices   // 1200 ms after start: phase 3, devices revealed
    | Content   // 1800 ms after start: title and content visible
    | Finish    // 3000 ms after start: phase 4, overlay hidden, scroll unlocked, listeners detached

  /** What the browser delivers to the sequence: a timeout or one of the five listened events. */
  datatype Event =
    | Timeout(timer: Timer)
    | Wheel(deltaY: real)
    | TouchStart(clientY: int)
    | TouchMove(clientY: int)
    | KeyDown(key: string)
    | Click

  /** The closure state of the intro: phase 0..4 (0 waiting, 1 image revealed, 2 zooming,
      3 devices revealed, 4 done), the body scroll lock, whether the five listeners are
      attached, the classes the sequence adds, the last touch start and the timers pending. */
  datatype IntroState = IntroState(
    phase: nat,
    scrollLocked: bool,
    listening: bool,
    zoomOutApplied: bool,
    screenshotVisible: bool,
    devicesRevealed: bool,
    contentVisible: bool,
    overlayHidden: bool,
    touchStartY: int,
    pending: set<Timer>)

  /** The state after an event, and whether its handler called preventDefault. */
  datatype Outcome = Outcome(next: IntroState, prevent: bool)

  /** Minimum upward swipe, in pixels, that starts the animation (strictly exceeded). */
  const SwipeThreshold: int := 30

  /** The keys that start the animation. */
  predicate IsStartKey(key: string)
  {
    key == "ArrowDown" || key == " " || key == "PageDown" || key == "Enter"
  }

  /** No listener attached and no timer pending: nothing can ever change such a state. */
  predicate Quiescent(s: IntroState)
  {
    !s.listening && s.pending == {}
  }

  /** The end of the sequence: overlay hidden, devices and content shown, scrolling free,
      listeners gone. */
  predicate Finished(s: IntroState)
  {
    s.overlayHidden && s.devicesRevealed && s.contentVisible && !s.scrollLocked && !s.listening
  }

  /** The states the gated sequence passes through, phase by phase. */
  predicate Gated(s: IntroState)
  {
    && s.phase <= 4
    && (s.phase == 0 <==> Reveal in s.pending)
    && (s.phase >= 1 <==> s.screenshotVisible)
    && (s.phase >= 2 <==> s.zoomOutApplied)
    && (s.phase <= 1 ==>
          && Fallback in s.pending && s.scrollLocked && s.listening
          && !s.devicesRevealed && !s.contentVisible && !s.overlayHidden
          && Devices !in s.pending && Content !in s.pending && Finish !in s.pending)
    && (s.phase == 2 ==>
          && s.scrollLocked && s.listening
          && !s.devicesRevealed && !s.contentVisible && !s.overlayHidden
          && Devices in s.pending && Content in s.pending && Finish in s.pending)
    && (s.phase == 3 ==>
          && s.scrollLocked && s.listening && s.devicesRevealed && !s.overlayHidden
          && Devices !in s.pending && Finish in s.pending
          && (s.contentVisible <==> Content !in s.pending))
    && (s.phase == 4 ==> Finished(s) && s.pending <= {Fallback})
  }

  /** Every state the sequence can be in. */
  predicate Inv(s: IntroState)
  {
    Gated(s) || Quiescent(s)
  }

  /** The state right after setup (script.js:86-122, 196-217): nothing at all when the
      overlay or the device block is missing, the revealed end state at once on a narrow
      viewport or under reduced motion, and otherwise phase 0 with scrolling locked, the
      listeners attached and the 500 ms reveal and the 2500 ms fallback pending. */
  function Initial(elementsPresent: bool, innerWidth: int, reducedMotion: bool): (s: IntroState)
    ensures Inv(s) && s.phase == 0 && !s.zoomOutApplied
    ensures !elementsPresent ==> Quiescent(s) && !s.overlayHidden && !s.scrollLocked
    ensures elementsPresent && (Page.IsCompact(innerWidth) || reducedMotion) ==>
              Quiescent(s) && Finished(s)
    ensures elementsPresent && !Page.IsCompact(innerWidth) && !reducedMotion ==>
              Gated(s) && s.scrollLocked && s.listening && s.pending == {Reveal, Fallback}
  {
    if !elementsPresent then
      IntroState(0, false, false, false, false, false, false, false, 0, {})
    else if Page.IsCompact(innerWidth) || reducedMotion then
      IntroState(0, false, false, false, false, true, true, true, 0, {})
    else
      IntroState(0, true, true, false, false, false, false, false, 0, {Reveal, Fallback})
  }

  /** startAnimation: acts only in phase 1, entering phase 2, adding the zoom-out class and
      scheduling the three staged timeouts. */
  function Start(s: IntroState): (t: IntroState)
    ensures t != s <==> s.phase == 1
    ensures t != s ==> t.phase == 2 && t.zoomOutApplied && t.pending == s.pending + {Devices, Content, Finish}
    ensures t.listening == s.listening && t.scrollLocked == s.scrollLocked && t.overlayHidden == s.overlayHidden
  {
    if s.phase < 1 then s
    else if s.phase >= 2 then s
    else s.(phase := 2, zoomOutApplied := true, pending := s.pending + {Devices, Content, Finish})
  }

  /** A pending timer fires only after the timers scheduled by the same call with a shorter
      delay: the fallback after the reveal, the content after the devices, the finish after
      the content. */
  predicate Due(s: IntroState, t: Timer)
  {
    && t in s.pending
    && match t
       case Fallback => Reveal !in s.pending
       case Content => Devices !in s.pending
       case Finish => Content !in s.pending
       case _ => true
  }

  /** The callback of a timer. */
  function Fire(s: IntroState, t: Timer): (r: IntroState)
    ensures t !in r.pending
    ensures t != Fallback ==> r.pending == s.pending - {t}
    ensures t == Reveal ==> r.phase == 1 && r.screenshotVisible
    ensures t == Devices ==> r.phase == 3 && r.devicesRevealed
    ensures t == Finish ==> r.phase == 4 && r.overlayHidden && !r.scrollLocked && !r.listening
    ensures t == Fallback ==> (r.phase != s.phase <==> s.phase == 1)
  {
    var s' := s.(pending := s.pending - {t});
    match t
    case Reveal => s'.(screenshotVisible := true, phase := 1)
    case Fallback => if s'.phase <= 1 then Start(s') else s'
    case Devices => s'.(phase := 3, devicesRevealed := true)
    case Content => s'.(contentVisible := true)
    case Finish => s'.(overlayHidden := true, scrollLocked := false, phase := 4, listening := false)
  }

  /** The handler of a listened event, while the listeners are attached. */
  function Handle(s: IntroState, e: Event): (o: Outcome)
    requires !e.Timeout?
    ensures o.next.listening == s.listening && s.pending <= o.next.pending
    ensures o.next.phase == s.phase || (s.phase == 1 && o.next.phase == 2)
    ensures e.Click? || e.TouchStart? ==> !o.prevent
    ensures !e.TouchStart? ==> o.next.touchStartY == s.touchStartY
  {
    match e
    case Wheel(deltaY) =>
      if s.phase <= 1 && deltaY > 0.0 then Outcome(Start(s), true)
      else Outcome(s, 0 < s.phase < 3)
    case TouchStart(y) => Outcome(s.(touchStartY := y), false)
    case TouchMove(y) =>
      if s.phase <= 1 then
        if s.touchStartY - y > SwipeThreshold then Outcome(Start(s), true) else Outcome(s, false)
      else Outcome(s, s.phase < 3)
    case KeyDown(key) =>
      if s.phase <= 1 && IsStartKey(key) then Outcome(Start(s), true) else Outcome(s, false)
    case Click => Outcome(if s.phase <= 1 then Start(s) else s, false)
  }

  /** One event. A timer that is not due and an event with no listener attached change
      nothing (the browser does not deliver them). */
  function Step(s: IntroState, e: Event): Outcome
  {
    if e.Timeout? then Outcome(if Due(s, e.timer) then Fire(s, e.timer) else s, false)
    else if !s.listening then Outcome(s, false)
    else Handle(s, e)
  }

  /** A sequence of events. */
  function Run(s: IntroState, events: seq<Event>): IntroState
    decreases |events|
  {
    if events == [] then s else Run(Step(s, events[0]).next, events[1..])
  }

  /** Whether an event starts the animation: the zoom-out class appears. */
  predicate Starts(s: IntroState, e: Event)
  {
    !s.zoomOutApplied && Step(s, e).next.zoomOutApplied
  }

  /** How many events of a sequence start the animation. */
  function StartCount(s: IntroState, events: seq<Event>): nat
    decreases |events|
  {
    if events == [] then 0
    else (if Starts(s, events[0]) then 1 else 0) + StartCount(Step(s, events[0]).next, events[1..])
  }

  /** The timeouts still to come, in the order they fire, when no input arrives. */
  function RemainingTimers(s: IntroState): seq<Event>
  {
    if s.phase == 0 then [Timeout(Reveal), Timeout(Fallback), Timeout(Devices), Timeout(Content), Timeout(Finish)]
    else if s.phase == 1 then [Timeout(Fallback), Timeout(Devices), Timeout(Content), Timeout(Finish)]
    else if s.phase == 2 then [Timeout(Devices), Timeout(Content), Timeout(Finish)]
    else if s.phase == 3 && Content in s.pending then [Timeout(Content), Timeout(Finish)]
    else if s.phase == 3 then [Timeout(Finish)]
    else []
  }

  /** Every event keeps the invariant, never lowers the phase and never removes the zoom-out
      class; a quiescent state ignores every event. */
  lemma StepPreservesInv(s: IntroState, e: Event)
    requires Inv(s)
    ensures Inv(Step(s, e).next)
    ensures Step(s, e).next.phase >= s.phase
    ensures s.zoomOutApplied ==> Step(s, e).next.zoomOutApplied
    ensures Quiescent(s) ==> Step(s, e) == Outcome(s, false)
  {
    if Gated(s) && e.Timeout? && Due(s, e.timer) {
      match e.timer
      case Reveal =>
      case Fallback =>
      case Devices =>
      case Content =>
      case Finish =>
        var p := Step(s, e).next.pending;
        forall t | t in p ensures t == Fallback {
          assert t != Reveal && t != Devices && t != Content && t != Finish;
        }
    }
  }

  /** The phase never decreases along any sequence of events (script.js:111-149). */
  lemma {:induction false} RunMonotone(s: IntroState, events: seq<Event>)
    requires Inv(s)
    ensures Inv(Run(s, events))
    ensures Run(s, events).phase >= s.phase
    ensures s.zoomOutApplied ==> Run(s, events).zoomOutApplied
    decreases |events|
  {
    if events != [] {
      StepPreservesInv(s, events[0]);
      RunMonotone(Step(s, events[0]).next, events[1..]);
    }
  }

  /** Once started, no later event starts again. */
  lemma {:induction false} NoRestart(s: IntroState, events: seq<Event>)
    requires s.zoomOutApplied
    ensures StartCount(s, events) == 0
    decreases |events|
  {
    if events != [] {
      NoRestart(Step(s, events[0]).next, events[1..]);
    }
  }

  /** However many triggers fire, the animation starts (and its three staged timeouts are
      scheduled) at most once (script.js:124-127). */
  lemma {:induction false} AtMostOneStart(s: IntroState, events: seq<Event>)
    requires Inv(s)
    ensures StartCount(s, events) <= 1
    decreases |events|
  {
    if events != [] {
      var s' := Step(s, events[0]).next;
      StepPreservesInv(s, events[0]);
      if Starts(s, events[0]) {
        NoRestart(s', events[1..]);
      } else {
        AtMostOneStart(s', events[1..]);
      }
    }
  }

  /** Exactly the listed triggers start the animation, and only in phase 1 (script.js:153-194,
      213-217); starting schedules the devices, content and finish timeouts. */
  lemma StartTriggers(s: IntroState, e: Event)
    requires Inv(s)
    ensures Starts(s, e) <==>
      && s.phase == 1
      && ( || (e == Timeout(Fallback) && Due(s, Fallback))
           || (s.listening && e.Wheel? && e.deltaY > 0.0)
           || (s.listening && e.TouchMove? && s.touchStartY - e.clientY > SwipeThreshold)
           || (s.listening && e.KeyDown? && IsStartKey(e.key))
           || (s.listening && e.Click?))
    ensures Starts(s, e) ==>
      Step(s, e).next.phase == 2 && {Devices, Content, Finish} <= Step(s, e).next.pending
    ensures Devices !in s.pending && Devices in Step(s, e).next.pending ==> Starts(s, e)
  {
    StepPreservesInv(s, e);
  }

  /** A wheel is prevented in phases 1 and 2 whatever its direction, and in phase 0 exactly
      when it goes down, which starts nothing yet; a touch move is prevented in phase 2, and
      before that exactly when it is a swipe; a key exactly when it is a start key before
      the zoom; in phase 1 a prevented touch move or key starts the animation; clicks,
      touch starts and timers are never prevented, and nothing is from phase 3 on
      (script.js:153-194). */
  lemma PreventRules(s: IntroState, e: Event)
    requires Inv(s) && s.listening
    ensures e.Wheel? && 0 < s.phase < 3 ==> Step(s, e).prevent
    ensures e.Wheel? && s.phase == 0 ==> (Step(s, e).prevent <==> e.deltaY > 0.0) && !Starts(s, e)
    ensures e.TouchMove? && s.phase == 2 ==> Step(s, e).prevent
    ensures e.TouchMove? && s.phase <= 1 ==>
              (Step(s, e).prevent <==> s.touchStartY - e.clientY > SwipeThreshold)
    ensures e.KeyDown? ==> (Step(s, e).prevent <==> s.phase <= 1 && IsStartKey(e.key))
    ensures Step(s, e).prevent && s.phase == 1 && !e.Wheel? ==> Starts(s, e)
    ensures Step(s, e).prevent ==> s.phase < 3
    ensures e.Click? || e.TouchStart? || e.Timeout? ==> !Step(s, e).prevent
  {
  }

  /** Only the finish timeout enters phase 4, and entering it hides the overlay, unlocks
      scrolling and detaches the listeners (script.js:144-149, 204-210). */
  lemma FinishEffects(s: IntroState, e: Event)
    requires Inv(s) && s.phase < 4 && Step(s, e).next.phase == 4
    ensures e == Timeout(Finish) && Due(s, Finish) && s.phase == 3
    ensures Finished(Step(s, e).next)
  {
    StepPreservesInv(s, e);
  }

  /** Without any input the remaining timeouts alone finish the sequence: overlay hidden,
      scrolling unlocked, listeners detached (script.js:144-149, 204-217). */
  lemma ForwardProgress(s: IntroState)
    requires Gated(s)
    ensures forall i :: 0 <= i < |RemainingTimers(s)| ==> RemainingTimers(s)[i].Timeout?
    ensures Run(s, RemainingTimers(s)).phase == 4
    ensures Finished(Run(s, RemainingTimers(s)))
  {
    var s0 := s;
    if s0.phase == 0 {
      var s1 := Step(s0, Timeout(Reveal)).next;
      assert s1.phase == 1;
      ForwardFromOne(s1);
      assert RemainingTimers(s0)[1..] == RemainingTimers(s1);
      assert Run(s0, RemainingTimers(s0)) == Run(s1, RemainingTimers(s1));
    } else if s0.phase == 1 {
      ForwardFromOne(s0);
    } else if s0.phase == 2 {
      ForwardFromTwo(s0);
    } else if s0.phase == 3 {
      ForwardFromThree(s0);
    }
  }

  lemma ForwardFromOne(s: IntroState)
    requires Gated(s) && s.phase == 1
    ensures Run(s, RemainingTimers(s)).phase == 4
    ensures Finished(Run(s, RemainingTimers(s)))
  {
    var s2 := Step(s, Timeout(Fallback)).next;
    assert s2.phase == 2 && Gated(s2);
    ForwardFromTwo(s2);
    assert RemainingTimers(s)[1..] == RemainingTimers(s2);
    assert Run(s, RemainingTimers(s)) == Run(s2, RemainingTimers(s2));
  }

  lemma ForwardFromTwo(s: IntroState)
    requires Gated(s) && s.phase == 2
    ensures Run(s, RemainingTimers(s)).phase == 4
    ensures Finished(Run(s, RemainingTimers(s)))
  {
    var s3 := Step(s, Timeout(Devices)).next;
    assert s3.phase == 3 && Gated(s3) && Content in s3.pending;
    ForwardFromThree(s3);
    assert RemainingTimers(s)[1..] == RemainingTimers(s3);
    assert Run(s, RemainingTimers(s)) == Run(s3, RemainingTimers(s3));
  }

  lemma ForwardFromThree(s: IntroState)
    requires Gated(s) && s.phase == 3
    ensures Run(s, RemainingTimers(s)).phase == 4
    ensures Finished(Run(s, RemainingTimers(s)))
  {
    if Content in s.pending {
      var s' := Step(s, Timeout(Content)).next;
      assert Gated(s') && s'.phase == 3 && Content !in s'.pending;
      assert RemainingTimers(s)[1..] == RemainingTimers(s');
      FinishFromThree(s');
      assert Run(s, RemainingTimers(s)) == Run(s', RemainingTimers(s'));
    } else {
      FinishFromThree(s);
    }
  }

  lemma FinishFromThree(s: IntroState)
    requires Gated(s) && s.phase == 3 && Content !in s.pending
    ensures RemainingTimers(s) == [Timeout(Finish)]
    ensures Run(s, RemainingTimers(s)).phase == 4
    ensures Finished(Run(s, RemainingTimers(s)))
  {
    var s' := Step(s, Timeout(Finish)).next;
    assert [Timeout(Finish)][1..] == [];
    assert Run(s, [Timeout(Finish)]) == Run(s', []) == s';
  }

  /** With no input at all, the sequence set up on a wide screen reaches its end through the
      reveal, the fallback and the three staged timeouts (500 + 2500 + 3000 ms). */
  lemma NoInputFinishes(innerWidth: int, reducedMotion: bool)
    requires !Page.IsCompact(innerWidth) && !reducedMotion
    ensures Finished(Run(Initial(true, innerWidth, reducedMotion),
      [Timeout(Reveal), Timeout(Fallback), Timeout(Devices), Timeout(Content), Timeout(Finish)]))
  {
    ForwardProgress(Initial(true, innerWidth, reducedMotion));
  }

  /** In the bypass (and when the elements are missing) no event ever changes anything: no
      phase transition, no scroll lock, no listener (script.js:93-109). */
  lemma {:induction false} QuiescentIsFinal(s: IntroState, events: seq<Event>)
    requires Quiescent(s)
    ensures Run(s, events) == s
    decreases |events|
  {
    if events != [] {
      StepPreservesInv(s, events[0]);
      QuiescentIsFinal(s, events[1..]);
    }
  }

  /** The closure variables of initHeroDeviceReveal; each handler method is one listener. */
  class IntroSequence {
    var phase: nat
    var scrollLocked: bool
    var listening: bool
    var zoomOutApplied: bool
    var screenshotVisible: bool
    var devicesRevealed: bool
    var contentVisible: bool
    var overlayHidden: bool
    var touchStartY: int
    var pending: set<Timer>

    function State(): IntroState
      reads this
    {
      IntroState(phase, scrollLocked, listening, zoomOutApplied, screenshotVisible,
                 devicesRevealed, contentVisible, overlayHidden, touchStartY, pending)
    }

    ghost predicate Valid()
      reads this
    {
      Inv(State())
    }

    /** Setup, with the early returns for missing elements, narrow viewports and reduced
        motion (script.js:86-122, 196-217). */
    constructor (elementsPresent: bool, innerWidth: int, reducedMotion: bool)
      ensures Valid()
      ensures State() == Initial(elementsPresent, innerWidth, reducedMotion)
    {
      phase := 0;
      touchStartY := 0;
      zoomOutApplied := false;
      screenshotVisible := false;
      if !elementsPresent {
        scrollLocked, listening := false, false;
        devicesRevealed, contentVisible, overlayHidden := false, false, false;
        pending := {};
      } else if Page.IsCompact(innerWidth) || reducedMotion {
        overlayHidden := true;
        devicesRevealed := true;
        contentVisible := true;
        scrollLocked, listening := false, false;
        pending := {};
      } else {
        devicesRevealed, contentVisible, overlayHidden := false, false, false;
        scrollLocked := true;
        pending := {Reveal, Fallback};
        listening := true;
      }
    }

    /** startAnimation (script.js:124-150). */
    method StartAnimation()
      modifies this
      ensures State() == Start(old(State()))
    {
      if phase < 1 { return; }
      if phase >= 2 { return; }
      phase := 2;
      zoomOutApplied := true;
      pending := pending + {Devices, Content, Finish};
    }

    /** A timer callback (script.js:117-122, 133-149, 213-217). */
    method OnTimeout(t: Timer)
      requires Valid() && Due(State(), t)
      modifies this
      ensures Valid()
      ensures State() == Step(old(State()), Timeout(t)).next
    {
      StepPreservesInv(State(), Timeout(t));
      pending := pending - {t};
      match t
      case Reveal =>
        screenshotVisible := true;
        phase := 1;
      case Fallback =>
        if phase <= 1 {
          StartAnimation();
        }
      case Devices =>
        phase := 3;
        devicesRevealed := true;
      case Content =>
        contentVisible := true;
      case Finish =>
        overlayHidden := true;
        scrollLocked := false;
        phase := 4;
        Cleanup();
    }

    /** cleanup: detaches the five listeners (script.js:204-210). */
    method Cleanup()
      modifies this
      ensures State() == old(State()).(listening := false)
    {
      listening := false;
    }

    /** handleWheel (script.js:153-160). */
    method OnWheel(deltaY: real) returns (prevent: bool)
      requires Valid() && listening
      modifies this
      ensures Valid()
      ensures Outcome(State(), prevent) == Step(old(State()), Wheel(deltaY))
    {
      StepPreservesInv(State(), Wheel(deltaY));
      if phase <= 1 && deltaY > 0.0 {
        prevent := true;
        StartAnimation();
      } else if 0 < phase < 3 {
        prevent := true;
      } else {
        prevent := false;
      }
    }

    /** handleTouchStart (script.js:164-166). */
    method OnTouchStart(clientY: int)
      requires Valid() && listening
      modifies this
      ensures Valid()
      ensures State() == Step(old(State()), TouchStart(clientY)).next
    {
      StepPreservesInv(State(), TouchStart(clientY));
      touchStartY := clientY;
    }

    /** handleTouchMove (script.js:168-180). */
    method OnTouchMove(clientY: int) returns (prevent: bool)
      requires Valid() && listening
      modifies this
      ensures Valid()
      ensures Outcome(State(), prevent) == Step(old(State()), TouchMove(clientY))
    {
      StepPreservesInv(State(), TouchMove(clientY));
      prevent := false;
      if phase <= 1 {
        var deltaY := touchStartY - clientY;
        if deltaY > SwipeThreshold {
          prevent := true;
          StartAnimation();
        }
      } else if phase < 3 {
        prevent := true;
      }
    }

    /** handleKeydown (script.js:183-188). */
    method OnKeyDown(key: string) returns (prevent: bool)
      requires Valid() && listening
      modifies this
      ensures Valid()
      ensures Outcome(State(), prevent) == Step(old(State()), KeyDown(key))
    {
      StepPreservesInv(State(), KeyDown(key));
      prevent := false;
      if phase <= 1 && IsStartKey(key) {
        prevent := true;
        StartAnimation();
      }
    }

    /** handleClick on the overlay (script.js:190-194). */
    method OnClick()
      requires Valid() && listening
      modifies this
      ensures Valid()
      ensures State() == Step(old(State()), Click).next
    {
      StepPreservesInv(State(), Click);
      if phase <= 1 {
        StartAnimation();
      }
    }
  }
}
