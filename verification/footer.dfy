/**
 * The footer's back-to-top button: it is shown once the page has been
 * scrolled more than 500 pixels and hidden again above that.
 */
module Footer {

  const BackToTopThreshold := 500

  /** Whether the button should be shown at vertical scroll offset `scrollY`. */
  function ShowAt(scrollY: int): bool {
    scrollY > BackToTopThreshold
  }

  /** Scrolling further down never hides the button; scrolling up never shows it. */
  lemma ShowMonotone(y1: int, y2: int)
    requires y1 <= y2
    ensures ShowAt(y1) ==> ShowAt(y2)
    ensures !ShowAt(y2) ==> !ShowAt(y1)
  {
  }

  class Footer {
    var showBackToTop: bool
    /** The scroll listener is attached. */
    var listening: bool

    /** Mounting: hidden, with the scroll listener attached by the effect. */
    constructor ()
      ensures !showBackToTop && listening
    {
      showBackToTop, listening := false, true;
    }

    /** A scroll event: the button's visibility follows the current offset alone. */
    method HandleScroll(scrollY: int)
      modifies this
      ensures listening ==> showBackToTop == ShowAt(scrollY)
      ensures !listening ==> showBackToTop == old(showBackToTop)
      ensures listening == old(listening)
    {
      if listening {
        showBackToTop := ShowAt(scrollY);
      }
    }

    /** Unmounting detaches the listener; nothing else changes. */
    method Unmount()
      modifies this
      ensures !listening && showBackToTop == old(showBackToTop)
    {
      listening := false;
    }

    predicate BackToTopRendered()
      reads this
    {
      showBackToTop
    }
  }
}
