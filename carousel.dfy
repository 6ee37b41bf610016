/**
 * The mobile carousel (`initializeMobileCarousel`): on narrow screens the
 * visible media items scroll sideways, with up to ten dots and a
 * "position / total" counter that follow the item nearest the gallery's centre.
 */
module Carousel {
  import opened Wrappers
  import opened CounterText
  import opened Media

  const MaxDots: nat := 10
  /** Widths up to this many pixels count as mobile. */
  const MobileWidth: int := 768

  /** The layout is mobile up to and including 768 pixels of window width. */
  predicate IsMobileWidth(innerWidth: int): (mobile: bool)
    ensures mobile <==> innerWidth < MobileWidth + 1
  {
    innerWidth <= MobileWidth
  }

  /** A bounding rectangle's horizontal extent, in whole pixels. */
  datatype Rect = Rect(left: int, width: int)

  /** Twice the distance between the centres of `r` and `gallery` (exact in integers). */
  function CentreDistance2(r: Rect, gallery: Rect): (d: nat)
    ensures d as real == 2.0 * Abs((gallery.left as real + gallery.width as real / 2.0) -
                                   (r.left as real + r.width as real / 2.0))
  {
    var diff := (2 * gallery.left + gallery.width) - (2 * r.left + r.width);
    if diff < 0 then -diff else diff
  }

  function Abs(x: real): real {
    if x < 0.0 then -x else x
  }

  /**
   * The argmin of `updateIndicators`: the index of the item whose centre is
   * nearest the gallery's centre, the earliest on a tie, and 0 for no items.
   */
  method NearestIndex(rects: seq<Rect>, gallery: Rect) returns (closest: nat)
    ensures |rects| == 0 ==> closest == 0
    ensures |rects| > 0 ==> closest < |rects|
    ensures forall j :: 0 <= j < |rects| ==>
      CentreDistance2(rects[closest], gallery) <= CentreDistance2(rects[j], gallery)
    ensures forall j :: 0 <= j < closest ==>
      CentreDistance2(rects[j], gallery) > CentreDistance2(rects[closest], gallery)
  {
    closest := 0;
    var closestDistance: nat := 0;
    var i := 0;
    while i < |rects|
      invariant 0 <= i <= |rects|
      invariant i == 0 ==> closest == 0
      invariant i > 0 ==> closest < i && closestDistance == CentreDistance2(rects[closest], gallery)
      invariant forall j :: 0 <= j < i ==> closestDistance <= CentreDistance2(rects[j], gallery)
      invariant forall j :: 0 <= j < closest ==> CentreDistance2(rects[j], gallery) > closestDistance
    {
      var distance := CentreDistance2(rects[i], gallery);
      // The first comparison is against Infinity, so it always succeeds.
      if i == 0 || distance < closestDistance {
        closestDistance := distance;
        closest := i;
      }
      i := i + 1;
    }
  }

  /** `setupCarousel`'s number of dots for `totalItems` items: min(totalItems, 10). */
  function DotCount(totalItems: nat): (r: nat)
    ensures r <= totalItems && r <= MaxDots
    ensures r == totalItems || r == MaxDots
  {
    if totalItems < MaxDots then totalItems else MaxDots
  }

  /** `updateDots`' dot for item `activeIndex`: the item's own dot, or the last dot for items beyond it. */
  function DotIndex(activeIndex: nat, dotCount: nat): (r: nat)
    requires dotCount > 0
    ensures r < dotCount && r <= activeIndex
    ensures r == activeIndex || r == dotCount - 1
  {
    if activeIndex < dotCount - 1 then activeIndex else dotCount - 1
  }

  /** Exactly dot `d` has the `active` class. */
  predicate OnlyActive(dots: seq<bool>, d: nat) {
    forall i :: 0 <= i < |dots| ==> dots[i] == (i == d)
  }

  /** At most one dot is active when only `d` is. */
  lemma OnlyActiveIsUnique(dots: seq<bool>, d: nat, i: nat, j: nat)
    requires OnlyActive(dots, d)
    requires i < |dots| && j < |dots| && dots[i] && dots[j]
    ensures i == j == d
  {
  }

  class MobileCarousel {
    const doc: Document
    /** The carousel's items: the non-hidden media items when last set up. */
    var mediaItems: seq<Entry>
    var currentIndex: nat
    var isMobile: bool
    /** The dots' `active` classes, in order. */
    var dots: seq<bool>
    var counter: string

    /** The initial state, followed by `setupCarousel()`. */
    constructor (doc: Document, innerWidth: int, counter: string)
      ensures this.doc == doc && currentIndex == 0 && isMobile == IsMobileWidth(innerWidth)
      ensures mediaItems == Visible(doc.items)
      ensures DotsSetUp(counter)
    {
      this.doc := doc;
      mediaItems := [];
      currentIndex := 0;
      isMobile := IsMobileWidth(innerWidth);
      dots := [];
      this.counter := counter;
      new;
      SetupCarousel();
    }

    /**
     * The dots and counter as `setupCarousel` leaves them: no dots when not
     * mobile or when there is nothing to show; otherwise min(n, 10) dots with
     * the first active and the counter at the first of n items.
     */
    ghost predicate DotsSetUp(previousCounter: string)
      reads this
    {
      if !isMobile || |mediaItems| == 0 then
        dots == [] && counter == previousCounter
      else
        |dots| == DotCount(|mediaItems|) &&
        OnlyActive(dots, 0) &&
        counter == Counter(1, |mediaItems|)
    }

    /** `setupCarousel`: re-snapshot the visible items and rebuild the dots. */
    method SetupCarousel()
      modifies this`mediaItems, this`dots, this`counter
      ensures mediaItems == Visible(doc.items)
      ensures DotsSetUp(old(counter))
    {
      mediaItems := Visible(doc.items);
      var totalItems := |mediaItems|;
      dots := [];
      if !isMobile || totalItems == 0 {
        return;
      }
      var maxDots := DotCount(totalItems);
      var i := 0;
      while i < maxDots
        invariant 0 <= i <= maxDots
        invariant |dots| == i && OnlyActive(dots, 0)
        invariant mediaItems == Visible(doc.items)
        invariant counter == old(counter)
      {
        dots := dots + [i == 0];
        i := i + 1;
      }
      UpdateCounter(0);
    }

    /** `updateDots(activeIndex)`: only the dot for `activeIndex` is active. */
    method UpdateDots(activeIndex: nat)
      modifies this`dots
      ensures |dots| == old(|dots|)
      ensures |dots| == 0 ==> dots == old(dots)
      ensures |dots| > 0 ==> OnlyActive(dots, DotIndex(activeIndex, |dots|))
    {
      var maxDots := |dots|;
      if maxDots == 0 {
        return;
      }
      var dotIndex := DotIndex(activeIndex, maxDots);
      var i := 0;
      while i < maxDots
        invariant 0 <= i <= maxDots == |dots|
        invariant forall j :: 0 <= j < i ==> dots[j] == (j == dotIndex)
      {
        dots := dots[i := i == dotIndex];
        i := i + 1;
      }
    }

    /** `updateCounter(index)`. */
    method UpdateCounter(index: nat)
      modifies this`counter
      ensures counter == Counter(index + 1, |mediaItems|)
      ensures ParseCounter(counter) == Some((index + 1, |mediaItems|))
    {
      counter := Counter(index + 1, |mediaItems|);
      CounterRoundTrip(index + 1, |mediaItems|);
    }

    /**
     * `updateIndicators`, given each item's rectangle and the gallery's: move
     * to the nearest item, and update dots and counter only if it changed.
     */
    method UpdateIndicators(rects: seq<Rect>, gallery: Rect)
      requires |rects| == |mediaItems|
      modifies this`currentIndex, this`dots, this`counter
      ensures !isMobile ==> currentIndex == old(currentIndex) && dots == old(dots) && counter == old(counter)
      ensures isMobile && |rects| > 0 ==>
        (currentIndex < |rects| &&
         (forall j :: 0 <= j < |rects| ==>
            CentreDistance2(rects[currentIndex], gallery) <= CentreDistance2(rects[j], gallery)) &&
         (forall j :: 0 <= j < currentIndex ==>
            CentreDistance2(rects[j], gallery) > CentreDistance2(rects[currentIndex], gallery)))
      ensures isMobile && |rects| == 0 ==> currentIndex == 0
      ensures currentIndex == old(currentIndex) ==> dots == old(dots) && counter == old(counter)
      ensures currentIndex != old(currentIndex) ==>
        |dots| == old(|dots|) &&
        (|dots| > 0 ==> OnlyActive(dots, DotIndex(currentIndex, |dots|))) &&
        counter == Counter(currentIndex + 1, |mediaItems|)
    {
      if !isMobile {
        return;
      }
      var closestIndex := NearestIndex(rects, gallery);
      if closestIndex != currentIndex {
        currentIndex := closestIndex;
        UpdateDots(currentIndex);
        UpdateCounter(currentIndex);
      }
    }

    /** The filter buttons' listener, once its 350 ms delay has passed. */
    method OnFilterSettled()
      modifies this`mediaItems, this`currentIndex, this`dots, this`counter
      ensures mediaItems == Visible(doc.items)
      ensures isMobile && |mediaItems| > 0 ==>
        currentIndex == 0 && |dots| == DotCount(|mediaItems|) &&
        OnlyActive(dots, 0) && counter == Counter(1, |mediaItems|)
      ensures !(isMobile && |mediaItems| > 0) ==>
        currentIndex == old(currentIndex) && dots == [] && counter == old(counter)
    {
      SetupCarousel();
      if isMobile && |mediaItems| > 0 {
        currentIndex := 0;
        UpdateDots(0);
        UpdateCounter(0);
      }
    }

    /** The window's resize listener, once its 150 ms debounce has passed. */
    method OnResize(innerWidth: int)
      modifies this`isMobile, this`mediaItems, this`dots, this`counter
      ensures isMobile == IsMobileWidth(innerWidth)
      ensures isMobile != old(isMobile) ==> mediaItems == Visible(doc.items) && DotsSetUp(old(counter))
      ensures isMobile == old(isMobile) ==>
        mediaItems == old(mediaItems) && dots == old(dots) && counter == old(counter)
    {
      var wasMobile := isMobile;
      isMobile := IsMobileWidth(innerWidth);
      if isMobile != wasMobile {
        SetupCarousel();
      }
    }
  }
}
