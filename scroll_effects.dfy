/**
 * The scroll-driven effects: the navbar's `scrolled` class, the reveal
 * animations (`initializeScrollReveal`), which latch on, and the impact
 * counters (`initializeCountUp`), which start at most once. Positions are
 * whole pixels; the 0.85 and 0.8 fractions of the window height are
 * compared exactly.
 */
module ScrollEffects {

  /** Scrolling past 50 pixels gives the navbar its `scrolled` class. */
  predicate NavbarScrolled(scrollY: int)
    ensures NavbarScrolled(scrollY) <==> (scrollY as real) > 50.0
  {
    scrollY > 50
  }

  /** An element whose top is above 85% of the window height is revealed. */
  predicate RevealTriggered(elementTop: int, windowHeight: int)
    ensures RevealTriggered(elementTop, windowHeight) <==>
      (elementTop as real) < (windowHeight as real) * 0.85
  {
    20 * elementTop < 17 * windowHeight
  }

  /** The impact section's top above 80% of the window height starts the counters. */
  predicate CountUpTriggered(sectionTop: int, windowHeight: int)
    ensures CountUpTriggered(sectionTop, windowHeight) <==>
      (sectionTop as real) < (windowHeight as real) * 0.8
  {
    5 * sectionTop < 4 * windowHeight
  }

  class Navbar {
    var scrolled: bool
    var lastScrollY: int

    /** The navbar as the page's markup has it (`scrolled` is not set at start-up) and the current scroll position. */
    constructor (scrolled: bool, scrollY: int)
      ensures this.scrolled == scrolled && lastScrollY == scrollY
    {
      this.scrolled := scrolled;
      lastScrollY := scrollY;
    }

    /** `updateNavbar`. */
    method UpdateNavbar(currentScrollY: int)
      modifies this
      ensures scrolled == NavbarScrolled(currentScrollY)
      ensures lastScrollY == currentScrollY
    {
      if NavbarScrolled(currentScrollY) {
        scrolled := true;
      } else {
        scrolled := false;
      }
      lastScrollY := currentScrollY;
    }
  }

  class ScrollReveal {
    /** Each reveal element's `active` class, in document order. */
    var active: seq<bool>

    /** The reveal elements' `active` classes as the page's markup has them. */
    constructor (active: seq<bool>)
      ensures this.active == active
    {
      this.active := active;
    }

    /** `revealOnScroll`, given each element's top: activate the triggered ones; none is deactivated. */
    method RevealOnScroll(tops: seq<int>, windowHeight: int)
      requires |tops| == |active|
      modifies this
      ensures |active| == old(|active|)
      ensures forall i :: 0 <= i < |active| ==>
        active[i] == (old(active[i]) || RevealTriggered(tops[i], windowHeight))
    {
      var i := 0;
      while i < |active|
        invariant 0 <= i <= |active| == old(|active|)
        invariant forall j :: 0 <= j < i ==>
          active[j] == (old(active[j]) || RevealTriggered(tops[j], windowHeight))
        invariant forall j :: i <= j < |active| ==> active[j] == old(active[j])
      {
        if RevealTriggered(tops[i], windowHeight) {
          active := active[i := true];
        }
        i := i + 1;
      }
    }
  }

  class CountUp {
    var hasAnimated: bool

    constructor ()
      ensures !hasAnimated
    {
      hasAnimated := false;
    }

    /**
     * `checkAndAnimate`: whether the counters start now. Once they have
     * started, every later call returns at once.
     */
    method CheckAndAnimate(impactFound: bool, sectionTop: int, windowHeight: int) returns (started: bool)
      modifies this
      ensures started <==> !old(hasAnimated) && impactFound && CountUpTriggered(sectionTop, windowHeight)
      ensures hasAnimated <==> old(hasAnimated) || started
    {
      started := false;
      if hasAnimated {
        return;
      }
      if !impactFound {
        return;
      }
      if CountUpTriggered(sectionTop, windowHeight) {
        hasAnimated := true;
        started := true;
      }
    }
  }

  /** Two checks in a row start the counters at most once. */
  method StartsAtMostOnce(c: CountUp, first: (bool, int, int), second: (bool, int, int))
    returns (startedFirst: bool, startedSecond: bool)
    modifies c
    ensures !(startedFirst && startedSecond)
    ensures old(c.hasAnimated) ==> !startedFirst && !startedSecond
  {
    startedFirst := c.CheckAndAnimate(first.0, first.1, first.2);
    startedSecond := c.CheckAndAnimate(second.0, second.1, second.2);
  }
}
