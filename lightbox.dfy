/**
 * The lightbox modal (`initializeLightbox`): a snapshot of the visible media
 * items, a cursor into it that the previous/next buttons, the arrow keys and
 * swipes move with wrap-around, and the content shown for the cursor's entry.
 */
module Lightbox {
  import opened Wrappers
  import opened CounterText
  import opened Media
  import Gallery

  /**
   * What the lightbox displays: the image element's `src`, `alt` and `active`
   * class, the video element's `src` and `active` class, the title text and
   * the counter text.
   */
  datatype View = View(
    imageSrc: string, imageAlt: string, imageActive: bool,
    videoSrc: string, videoActive: bool,
    title: string, counter: string)

  /** The view after showing `entry` as entry `index` of a list of `total`. */
  function Show(v: View, entry: Entry, index: nat, total: nat): (r: View)
    ensures r.videoActive <==> entry.kind == Some("video")
    ensures r.imageActive <==> !r.videoActive
    ensures r.videoActive ==> r.videoSrc == entry.src && r.imageSrc == v.imageSrc && r.imageAlt == v.imageAlt
    ensures r.imageActive ==> r.imageSrc == entry.src && r.imageAlt == entry.caption.GetOr("") && r.videoSrc == v.videoSrc
    ensures r.title == entry.caption.GetOr("")
    ensures ParseCounter(r.counter) == Some((index + 1, total))
  {
    CounterRoundTrip(index + 1, total);
    var caption := entry.caption.GetOr("");
    var counter := Counter(index + 1, total);
    if entry.kind == Some("video") then
      v.(videoSrc := entry.src, videoActive := true, imageActive := false, title := caption, counter := counter)
    else
      v.(imageSrc := entry.src, imageAlt := caption, imageActive := true, videoActive := false,
         title := caption, counter := counter)
  }

  /** `goToNext`'s new index in a list of `n` entries. */
  function NextIndex(i: int, n: nat): (r: int)
    ensures n > 0 ==> (0 <= r < n <==> i >= -1)
    ensures r == 0 || r == i + 1
  {
    if i < n - 1 then i + 1 else 0
  }

  /** `goToPrev`'s new index in a list of `n` entries. */
  function PrevIndex(i: int, n: nat): (r: int)
    ensures n > 0 ==> (0 <= r < n <==> i <= n)
    ensures n == 0 ==> (r == -1 <==> i <= 0)
    ensures r == n - 1 || r == i - 1
  {
    if i > 0 then i - 1 else n - 1
  }

  /** Next wraps from the last entry to the first and otherwise steps forward. */
  lemma NextWraps(i: int, n: nat)
    requires 0 <= i < n
    ensures NextIndex(i, n) == if i == n - 1 then 0 else i + 1
  {
  }

  /** Previous wraps from the first entry to the last and otherwise steps back. */
  lemma PrevWraps(i: int, n: nat)
    requires 0 <= i < n
    ensures PrevIndex(i, n) == if i == 0 then n - 1 else i - 1
  {
  }

  /** Within range, next and previous undo each other. */
  lemma NextPrevInverse(i: int, n: nat)
    requires 0 <= i < n
    ensures PrevIndex(NextIndex(i, n), n) == i
    ensures NextIndex(PrevIndex(i, n), n) == i
  {
  }

  /** What a completed touch does: a swipe of more than 50 pixels goes next (leftwards) or back. */
  datatype Swipe = ToNext | ToPrev | NoSwipe

  function SwipeAction(touchStartX: int, touchEndX: int): (r: Swipe)
    ensures r == ToNext <==> touchStartX - touchEndX > 50
    ensures r == ToPrev <==> touchStartX - touchEndX < -50
  {
    var diff := touchStartX - touchEndX;
    var magnitude := if diff < 0 then -diff else diff;
    if magnitude > 50 then (if diff > 0 then ToNext else ToPrev) else NoSwipe
  }

  predicate InRange(i: int, n: nat) {
    0 <= i < n
  }

  class Navigator {
    const doc: Document
    var mediaList: seq<Entry>
    var currentIndex: int
    /** Whether the lightbox has the `active` class. */
    var active: bool
    var view: View
    var touchStartX: int
    var touchEndX: int

    constructor (doc: Document, initial: View)
      ensures this.doc == doc && mediaList == [] && currentIndex == 0 && !active && view == initial
      ensures touchStartX == 0 && touchEndX == 0
    {
      this.doc := doc;
      mediaList := [];
      currentIndex := 0;
      active := false;
      view := initial;
      touchStartX, touchEndX := 0, 0;
    }

    /** The view `before` updated for the current index, as `updateLightboxContent` does it. */
    function Displayed(before: View): View
      reads this
    {
      if InRange(currentIndex, |mediaList|)
      then Show(before, mediaList[currentIndex], currentIndex, |mediaList|)
      else before
    }

    /** `buildMediaList`: a fresh snapshot of the non-hidden items. */
    method BuildMediaList()
      modifies this`mediaList
      ensures mediaList == Visible(doc.items)
    {
      mediaList := [];
      var i := 0;
      while i < |doc.items|
        invariant 0 <= i <= |doc.items|
        invariant mediaList == Visible(doc.items[..i])
      {
        assert doc.items[..i + 1][..i] == doc.items[..i];
        if !doc.items[i].hidden {
          mediaList := mediaList + [EntryOf(doc.items[i], i)];
        }
        i := i + 1;
      }
      assert doc.items[..i] == doc.items;
    }

    /** `updateLightboxContent`: show the current entry, or change nothing if there is none. */
    method UpdateLightboxContent()
      modifies this`view
      ensures view == Displayed(old(view))
    {
      if InRange(currentIndex, |mediaList|) {
        view := Show(view, mediaList[currentIndex], currentIndex, |mediaList|);
      }
    }

    /**
     * `openLightbox(index)`, as written: `index` is the position of the
     * activated item among ALL media items, but it is used as a position in
     * the list of the non-hidden ones.
     */
    method OpenLightbox(index: nat)
      modifies this`mediaList, this`currentIndex, this`view, this`active, doc`bodyScrollLocked
      ensures mediaList == Visible(doc.items) && currentIndex == index
      ensures view == if index < |mediaList|
        then Show(old(view), mediaList[index], index, |mediaList|)
        else old(view)
      ensures active && doc.bodyScrollLocked
    {
      BuildMediaList();
      currentIndex := index;
      UpdateLightboxContent();
      active := true;
      doc.bodyScrollLocked := true;
    }

    /**
     * `openLightbox` as evidently intended: the cursor is put on the entry
     * built from the activated item, found by its element.
     */
    method OpenLightboxOnItem(index: nat)
      modifies this`mediaList, this`currentIndex, this`view, this`active, doc`bodyScrollLocked
      ensures mediaList == Visible(doc.items) && currentIndex == IndexOfElement(mediaList, index)
      ensures InRange(currentIndex, |mediaList|) <==> index < |doc.items| && !doc.items[index].hidden
      ensures InRange(currentIndex, |mediaList|) ==>
        mediaList[currentIndex] == EntryOf(doc.items[index], index) &&
        view == Show(old(view), mediaList[currentIndex], currentIndex, |mediaList|)
      ensures !InRange(currentIndex, |mediaList|) ==> view == old(view)
      ensures active && doc.bodyScrollLocked
    {
      BuildMediaList();
      ghost var items := doc.items;
      currentIndex := IndexOfElement(mediaList, index);
      if index < |items| && !items[index].hidden {
        FindVisibleItem(items, index);
      } else {
        HiddenItemNotFound(items, index);
      }
      UpdateLightboxContent();
      active := true;
      doc.bodyScrollLocked := true;
    }

    /** `closeLightbox`: deactivate, unlock the body, clear the video source. */
    method CloseLightbox()
      modifies this`active, this`view, doc`bodyScrollLocked
      ensures !active && !doc.bodyScrollLocked
      ensures view == old(view).(videoSrc := "")
    {
      active := false;
      doc.bodyScrollLocked := false;
      view := view.(videoSrc := "");
    }

    /** `goToPrev`. */
    method GoToPrev()
      modifies this`currentIndex, this`view
      ensures currentIndex == PrevIndex(old(currentIndex), |mediaList|)
      ensures view == Displayed(old(view))
    {
      currentIndex := if currentIndex > 0 then currentIndex - 1 else |mediaList| - 1;
      UpdateLightboxContent();
    }

    /** `goToNext`. */
    method GoToNext()
      modifies this`currentIndex, this`view
      ensures currentIndex == NextIndex(old(currentIndex), |mediaList|)
      ensures view == Displayed(old(view))
    {
      currentIndex := if currentIndex < |mediaList| - 1 then currentIndex + 1 else 0;
      UpdateLightboxContent();
    }

    /** The document's keydown listener: Escape, ArrowLeft and ArrowRight while active. */
    method OnKeyDown(key: string)
      modifies this`active, this`currentIndex, this`view, doc`bodyScrollLocked
      ensures !old(active) ==>
        (active == old(active) && currentIndex == old(currentIndex) &&
         view == old(view) && doc.bodyScrollLocked == old(doc.bodyScrollLocked))
      ensures old(active) && key == "Escape" ==>
        !active && !doc.bodyScrollLocked && currentIndex == old(currentIndex) && view == old(view).(videoSrc := "")
      ensures old(active) && key == "ArrowLeft" ==>
        active && currentIndex == PrevIndex(old(currentIndex), |mediaList|) && view == Displayed(old(view))
      ensures old(active) && key == "ArrowRight" ==>
        active && currentIndex == NextIndex(old(currentIndex), |mediaList|) && view == Displayed(old(view))
      ensures old(active) && key != "Escape" && key != "ArrowLeft" && key != "ArrowRight" ==>
        active && currentIndex == old(currentIndex) && view == old(view)
      ensures key != "Escape" ==> doc.bodyScrollLocked == old(doc.bodyScrollLocked)
    {
      if !active {
        return;
      }
      if key == "Escape" {
        CloseLightbox();
      } else if key == "ArrowLeft" {
        GoToPrev();
      } else if key == "ArrowRight" {
        GoToNext();
      }
    }

    /** The `touchstart` listener records where the touch began. */
    method OnTouchStart(screenX: int)
      modifies this`touchStartX
      ensures touchStartX == screenX
    {
      touchStartX := screenX;
    }

    /** The `touchend` listener records where the touch ended and runs `handleSwipe`. */
    method OnTouchEnd(screenX: int)
      modifies this`touchEndX, this`currentIndex, this`view
      ensures touchEndX == screenX
      ensures currentIndex == match SwipeAction(touchStartX, screenX)
        case ToNext => NextIndex(old(currentIndex), |mediaList|)
        case ToPrev => PrevIndex(old(currentIndex), |mediaList|)
        case NoSwipe => old(currentIndex)
      ensures SwipeAction(touchStartX, screenX) == NoSwipe ==> view == old(view)
      ensures SwipeAction(touchStartX, screenX) != NoSwipe ==> view == Displayed(old(view))
    {
      touchEndX := screenX;
      HandleSwipe();
    }

    /** `handleSwipe`. */
    method HandleSwipe()
      modifies this`currentIndex, this`view
      ensures currentIndex == match SwipeAction(touchStartX, touchEndX)
        case ToNext => NextIndex(old(currentIndex), |mediaList|)
        case ToPrev => PrevIndex(old(currentIndex), |mediaList|)
        case NoSwipe => old(currentIndex)
      ensures SwipeAction(touchStartX, touchEndX) == NoSwipe ==> view == old(view)
      ensures SwipeAction(touchStartX, touchEndX) != NoSwipe ==> view == Displayed(old(view))
    {
      match SwipeAction(touchStartX, touchEndX)
      case ToNext => GoToNext();
      case ToPrev => GoToPrev();
      case NoSwipe =>
    }
  }

  /**
   * Items 0 (an image), 1 and 2 (videos); the "video" filter is clicked and
   * item 1 is double-clicked. As written, the lightbox then shows item 2.
   */
  method OpenAfterFilterShowsNeighbour() returns (shown: nat, title: string)
    ensures shown == 2 && title == "third"
  {
    var items := [
      MediaItem(Some("image"), "a.jpg", Some("first"), false),
      MediaItem(Some("video"), "b.mp4", Some("second"), false),
      MediaItem(Some("video"), "c.mp4", Some("third"), false)];
    var doc := new Document(items);
    var bar := new Gallery.FilterBar(doc, [Gallery.FilterButton(Some("all"), true), Gallery.FilterButton(Some("video"), false)]);
    bar.ClickFilter(1);
    var lightbox := new Navigator(doc, View("", "", false, "", false, "", ""));
    lightbox.OpenLightbox(1);
    VisibleAfterVideoFilter(doc.items);
    shown := lightbox.mediaList[lightbox.currentIndex].element;
    title := lightbox.view.title;
  }

  /** The same page and clicks with the corrected opening: the lightbox shows item 1. */
  method OpenOnItemAfterFilterShowsItem() returns (shown: nat, title: string)
    ensures shown == 1 && title == "second"
  {
    var items := [
      MediaItem(Some("image"), "a.jpg", Some("first"), false),
      MediaItem(Some("video"), "b.mp4", Some("second"), false),
      MediaItem(Some("video"), "c.mp4", Some("third"), false)];
    var doc := new Document(items);
    var bar := new Gallery.FilterBar(doc, [Gallery.FilterButton(Some("all"), true), Gallery.FilterButton(Some("video"), false)]);
    bar.ClickFilter(1);
    var lightbox := new Navigator(doc, View("", "", false, "", false, "", ""));
    lightbox.OpenLightboxOnItem(1);
    shown := lightbox.mediaList[lightbox.currentIndex].element;
    title := lightbox.view.title;
  }

  /** The visible list of the example page once the "video" filter has settled. */
  lemma VisibleAfterVideoFilter(items: seq<MediaItem>)
    requires |items| == 3 && items[0].hidden && !items[1].hidden && !items[2].hidden
    ensures Visible(items) == [EntryOf(items[1], 1), EntryOf(items[2], 2)]
  {
  }

  /** With no item hidden, opening item `index` as written shows that item. */
  lemma OpenWithoutFilterShowsItem(items: seq<MediaItem>, index: nat)
    requires forall j :: 0 <= j < |items| ==> !items[j].hidden
    requires index < |items|
    ensures index < |Visible(items)| && Visible(items)[index] == EntryOf(items[index], index)
  {
    VisibleWhenNothingHidden(items);
  }
}
