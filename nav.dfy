/** The navigation bar: the mobile menu toggle (initNavigation) and the scrolled style
    (initNavScrollEffect). */
module Nav {

  /** Scroll offset, in pixels, beyond which the bar gets its scrolled style. */
  const ScrolledOffset: real := 50.0

  /** The active classes of the toggle button and of the link list. The component exists
      only when both elements do (script.js:35). The markup may give the two elements
      different classes; the handlers never separate them, and a close brings them back
      together. */
  class MobileMenu {
    var toggleActive: bool
    var linksActive: bool

    /** Both elements carry the active class together. */
    predicate InSync()
      reads this
    {
      toggleActive == linksActive
    }

    /** Setup with the classes the markup gives the two elements (script.js:31-35). */
    constructor (toggleInitiallyActive: bool, linksInitiallyActive: bool)
      ensures toggleActive == toggleInitiallyActive && linksActive == linksInitiallyActive
    {
      toggleActive := toggleInitiallyActive;
      linksActive := linksInitiallyActive;
    }

    /** A click on the toggle button flips each element's class (script.js:36-39), so the
        two stay in step when they were; the document listener the click reaches next
        leaves them, the target being inside the toggle. */
    method OnToggleClick()
      modifies this
      ensures toggleActive == !old(toggleActive) && linksActive == !old(linksActive)
      ensures InSync() <==> old(InSync())
    {
      toggleActive := !toggleActive;
      linksActive := !linksActive;
    }

    /** A click on a link of the menu closes both elements (script.js:42-47). */
    method OnLinkClick()
      modifies this
      ensures !toggleActive && !linksActive && InSync()
    {
      toggleActive := false;
      linksActive := false;
    }

    /** Any click reaching the document closes both elements unless its target lies inside
        the toggle or the link list (script.js:50-55). */
    method OnDocumentClick(insideToggle: bool, insideLinks: bool)
      modifies this
      ensures !insideToggle && !insideLinks ==> !toggleActive && !linksActive && InSync()
      ensures insideToggle || insideLinks ==>
        toggleActive == old(toggleActive) && linksActive == old(linksActive)
      ensures old(InSync()) ==> InSync()
    {
      if !insideToggle && !insideLinks {
        toggleActive := false;
        linksActive := false;
      }
    }
  }

  /** The navigation bar's scroll listener state (script.js:62-80). The component exists
      only when the bar element does (script.js:66). */
  class NavBar {
    var scrolled: bool
    var lastScroll: real

    constructor (initiallyScrolled: bool)
      ensures scrolled == initiallyScrolled && lastScroll == 0.0
    {
      scrolled := initiallyScrolled;
      lastScroll := 0.0;
    }

    /** The scrolled class is set exactly when the page offset exceeds 50 pixels. */
    method OnScroll(pageYOffset: real)
      modifies this
      ensures scrolled <==> pageYOffset > ScrolledOffset
      ensures lastScroll == pageYOffset
    {
      var currentScroll := pageYOffset;
      if currentScroll > ScrolledOffset {
        scrolled := true;
      } else {
        scrolled := false;
      }
      lastScroll := currentScroll;
    }
  }
}
