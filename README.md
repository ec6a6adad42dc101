# Landing page interaction core, modelled in Dafny

This project models the small state machines of the landing page script `script.js`,
separated from the DOM:

- **Intro** (`intro.dfy`): the hero intro. It locks page scrolling and waits in phase 0
  until a 500 ms timer reveals the screenshot (phase 1). Then a downward wheel, an upward
  swipe of more than 30 px, one of the keys ArrowDown, Space, PageDown or Enter, a click
  on the overlay, or a 2500 ms fallback starts the zoom-out (phase 2). Three staged
  timeouts follow: devices at +1200 ms (phase 3), content at +1800 ms, and the end at
  +3000 ms (phase 4). At the end the overlay is hidden, scrolling is unlocked and the
  five listeners are detached. On viewports up to 1024 px, or under reduced motion, the
  end state is shown at once with no lock and no listener.
  - The closure state is the class `IntroSequence`. Each of its handler methods stands
    for one listener or timer callback.
  - Each handler is proved equal to the pure transition function `Step`.
  - The properties of arbitrary event sequences are proved about `Run`.
- **Views** (`views.dfy`): the view tables, kept as two separate tables.
  - The cycle order Card, Normal, Minimal drives scrolling and auto-play.
  - The display order Minimal, Normal, Card places the sliding indicator.
  - The clamped progress map sends progress below 0.33 to Card, below 0.66 to Normal,
    and the rest to Minimal.
- **Showcase** (`showcase.dfy`): the views showcase as a class.
  - It holds the button and image groups (arrays of active flags), the indicator slot,
    the current view, the auto-play interval and the pause flag.
  - The browser's table of running intervals is explicit, so "at most one interval
    runs" is a checked invariant.
- **Faq** (`faq.dfy`): the accordion as an array of open flags.
- **Nav** (`nav.dfy`): the mobile menu toggle, whose two elements the handlers flip or
  close together (so they stay in step once they are), and the scrolled style of the bar.
- **Page** (`page.dfy`): the 1024 px compact-viewport threshold and an Option type.

Timers, animation frames and events are method calls (or `Event` values) that the
caller supplies. Viewport width, scroll geometry, touch coordinates, wheel deltas and
the reduced-motion preference are parameters.

Two behaviours of the code a reader may not expect:

- Wheel events are prevented in phases 1 and 2, and touch moves in phase 2 (and,
  before the start, exactly when they are a swipe). They are not prevented in phase 3,
  the devices-revealed phase (`script.js:157`, `script.js:177`).
- `switchView` activates only the first button and the first image tagged with the
  view, because a document query returns the first match (`script.js:310`,
  `script.js:321`). Other elements with the same tag stay inactive.

## Model

| member | source | states |
|---|---|---|
| `Intro.Initial` | script.js:86-122 | missing elements: nothing happens; narrow viewport or reduced motion: overlay hidden, devices revealed, content visible, no lock, no listener, no timer; otherwise phase 0, scroll locked, listeners attached, reveal and fallback pending |
| `Intro.StepPreservesInv` | script.js:111-210 | every event keeps the phase-by-phase invariant, never lowers the phase, never removes the zoom-out class; a quiescent state ignores every event |
| `Intro.RunMonotone` | script.js:111-149 | along any sequence of events the invariant holds and the phase never decreases |
| `Intro.NoRestart` | script.js:124-127 | once the zoom-out has been applied, no later event starts the animation again |
| `Intro.AtMostOneStart` | script.js:124-150 | over any sequence of events the animation starts, and its three timeouts are scheduled, at most once |
| `Intro.Start` | script.js:124-150 | changes the state iff the phase is 1; then enters phase 2, applies the zoom-out and adds exactly the devices, content and finish timeouts; never touches the lock, the listeners or the overlay |
| `Intro.Fire` | script.js:117-149 | a timer callback removes its own timer; the reveal enters phase 1, the devices timeout phase 3, the finish timeout phase 4 with the overlay hidden, scrolling unlocked and listeners detached; the fallback changes the phase iff it is 1 |
| `Intro.Handle` | script.js:153-194 | a listened event never detaches a listener or cancels a timer, changes the phase only from 1 to 2, and a click or touch start is never prevented; only a touch start records a position |
| `Intro.StartTriggers` | script.js:153-217 | an event starts the animation iff the phase is 1 and it is a downward wheel, a swipe of more than 30 px, a start key, an overlay click or the due fallback; starting enters phase 2 and schedules the devices, content and finish timeouts, and only a start ever schedules the devices timeout |
| `Intro.PreventRules` | script.js:153-194 | wheel prevented in phases 1-2 and in phase 0 iff downward (which starts nothing); touch move prevented in phase 2 and before the start iff a swipe; keys iff a start key before the zoom; clicks, touch starts and timers never; nothing from phase 3 on |
| `Intro.FinishEffects` | script.js:144-149 | only the due finish timeout, in phase 3, enters phase 4, and doing so hides the overlay, unlocks scrolling and detaches the listeners |
| `Intro.ForwardProgress` | script.js:117-217 | from any state of the gated sequence, the remaining timeouts alone lead to phase 4 with the overlay hidden, scrolling unlocked and listeners detached |
| `Intro.NoInputFinishes` | script.js:117-217 | with no input, reveal, fallback and the three staged timeouts finish the sequence |
| `Intro.QuiescentIsFinal` | script.js:93-109 | in the bypass and when elements are missing, no sequence of events changes anything |
| `Intro.IntroSequence.constructor` | script.js:86-122 | the object starts in the initial state for the given elements, width and motion preference |
| `Intro.IntroSequence.StartAnimation` | script.js:124-150 | acts only in phase 1: enters phase 2, applies the zoom-out, schedules the three staged timeouts |
| `Intro.IntroSequence.OnTimeout` | script.js:117-149 | a due timer callback performs the transition Step gives and keeps the invariant |
| `Intro.IntroSequence.Cleanup` | script.js:204-210 | detaches the listeners and changes nothing else |
| `Intro.IntroSequence.OnWheel` | script.js:153-160 | new state and preventDefault decision are those of Step for the wheel event |
| `Intro.IntroSequence.OnTouchStart` | script.js:164-166 | records the touch start position, as Step does |
| `Intro.IntroSequence.OnTouchMove` | script.js:168-180 | new state and preventDefault decision are those of Step for the touch move |
| `Intro.IntroSequence.OnKeyDown` | script.js:183-188 | new state and preventDefault decision are those of Step for the key |
| `Intro.IntroSequence.OnClick` | script.js:190-194 | new state is that of Step for the overlay click |
| `Views.CycleIndex` | script.js:344 | the index of a view in the cycle order, which holds that view there |
| `Views.IndicatorSlot` | script.js:299 | the indicator slot of a view, which holds that view in the button display order |
| `Views.Successor` | script.js:343-347 | the next view in the cycle is a different view, one index further modulo 3 |
| `Views.Clamp` | script.js:380 | the progress lies in [0, 1], equals the ratio inside that range, 0 below and 1 above |
| `Views.ViewForProgress` | script.js:383-390 | Card iff the progress is below 0.33, Normal iff it is in [0.33, 0.66), Minimal iff it is at least 0.66 |
| `Views.ViewForScroll` | script.js:376-390 | Card iff scrolled is under 0.33 of the scrollable height, Minimal iff at least 0.66 of it; above the section Card, past it Minimal |
| `Views.ScrollZones` | script.js:376-390 | comparing the progress ratio with a zone boundary is comparing the scrolled distance with that fraction of the height |
| `Views.OrdersAreReversed` | script.js:296-299 | the indicator table and the cycle table read the same views in opposite orders |
| `Views.TablesAreBijections` | script.js:296-299 | each table gives distinct views distinct positions |
| `Views.SuccessorCycles` | script.js:343-347 | three steps of the cycle return to the start after visiting all three views |
| `Views.ProgressMonotone` | script.js:380-390 | more scroll progress never gives an earlier view in the cycle order |
| `Views.ProgressSamples` | script.js:382-390 | progress 0, 0.32, 0.33, 0.65, 0.66, 1 gives Card, Card, Normal, Normal, Minimal, Minimal |
| `Showcase.Marked` | script.js:309-322 | a group's active flags after a selection have one entry per element |
| `Showcase.MarkedExclusive` | script.js:309-322 | after a selection at most one element of a group is active, it carries the selected tag, and one is active whenever an element carries it |
| `Showcase.ActivateFirst` | script.js:309-311 | clearing a group and activating the first element with the tag yields the selection's flags |
| `Showcase.ViewShowcase.constructor` | script.js:287-302 | setup then init: auto-play on compact screens with the markup untouched; on wide screens no interval and the view of the scroll zone, the markup left as given when that view is Card |
| `Showcase.ViewShowcase.SwitchView` | script.js:304-323 | the current view unchanged: nothing changes; otherwise it becomes current and buttons, images and indicator show it |
| `Showcase.ViewShowcase.NextView` | script.js:343-347 | the current view becomes its successor in the cycle and is shown |
| `Showcase.ViewShowcase.StartAutoPlay` | script.js:349-354 | afterwards exactly one interval runs, a new one, held by the showcase |
| `Showcase.ViewShowcase.StopAutoPlay` | script.js:356-361 | afterwards no interval runs and none is held |
| `Showcase.ViewShowcase.OnInterval` | script.js:351-353 | a tick of the running interval advances the view iff not paused |
| `Showcase.ViewShowcase.OnButtonClick` | script.js:326-335 | switches to the button's view; a running auto-play is replaced by a new interval, a stopped one stays stopped; clicking the current view's button leaves buttons, images and indicator as they were |
| `Showcase.ViewShowcase.OnMouseEnter` | script.js:409 | pauses auto-play and changes nothing else |
| `Showcase.ViewShowcase.OnMouseLeave` | script.js:410 | resumes auto-play and changes nothing else |
| `Showcase.ViewShowcase.HandleScroll` | script.js:364-393 | nothing on compact screens; otherwise the view of the scroll zone becomes current and is shown, and when it already was, buttons, images and indicator stay as they were |
| `Showcase.ViewShowcase.Init` | script.js:414-428 | auto-play runs iff the screen is compact (exactly one interval); on wide screens no interval runs and the view is recomputed from the scroll position, the markup staying as it was when that view is already current |
| `Faq.AfterClick` | script.js:267-277 | after a click at most one item is open, the clicked item's flag is flipped and every other item is closed |
| `Faq.ClickOpensOrCloses` | script.js:267-277 | clicking the open item closes all; clicking a closed item leaves exactly that one open |
| `Faq.Accordion.constructor` | script.js:260-265 | the accordion starts with the markup's open flags |
| `Faq.Accordion.OnQuestionClick` | script.js:267-277 | the flags become AfterClick of the old flags |
| `Nav.MobileMenu.constructor` | script.js:31-35 | toggle and links start with the classes the markup gives each of them |
| `Nav.MobileMenu.OnToggleClick` | script.js:36-39 | each element's class flips, so the two are in step afterwards iff they were before |
| `Nav.MobileMenu.OnLinkClick` | script.js:42-47 | both elements close, so they are in step afterwards |
| `Nav.MobileMenu.OnDocumentClick` | script.js:50-55 | a click outside both elements closes both; a click inside leaves them; elements in step stay in step |
| `Nav.NavBar.constructor` | script.js:62-66 | the bar starts with the markup's scrolled style and last offset 0 |
| `Nav.NavBar.OnScroll` | script.js:67-78 | the scrolled style is set exactly when the offset exceeds 50 px, and the offset is recorded |

## Left out

- Real timers, `requestAnimationFrame` and the once-per-frame `ticking` throttle of the scroll listener (`script.js:396-405`): timer and frame callbacks are explicit calls, and the interleaving belongs to the browser's event loop. The intro only constrains the order of timers scheduled by the same call (`Intro.Due`).
- DOM geometry (`getBoundingClientRect`, `offsetHeight`, `innerHeight`): the scrolled distance and the scrollable height are parameters, and the height must be positive on wide screens.
- JavaScript doubles: progress, wheel deltas and offsets are reals, and touch `clientY` positions are taken in whole pixels (`int`). The NaN or infinite progress of a zero scrollable height is excluded by that precondition.
- Building the indicator's CSS transform string (`script.js:316`): only the slot number is modelled.
- The intro's optional elements (`intro-white`, `.intro-screenshot`, `.hero-content`) are taken to be present. The white fade-out and the screenshot fade-in are one flag, `screenshotVisible`.
- `data-view` values other than the three views, and a button whose view has no image: views are the three datatype values.
- `initScrollReveal` (IntersectionObserver with staggered timeouts), `initSmoothScroll`, the never-invoked `initParallax`, `initLazyLoading`, `initDeviceHover` and `initTestimonialCarousel`, `trackEvent`, `console.log` and the global export: they are outside the modelled core.
- The setup of a component when its required elements are missing (the guards at `script.js:35`, `script.js:66`, `script.js:93` and `script.js:294`): the intro models it as a quiescent state; for the showcase, the mobile menu and the nav bar the object is simply not created. The FAQ has no such guard; an accordion without items is an empty array.
