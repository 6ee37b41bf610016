/**
 * The media items of the gallery and the page state that several components
 * share. An item's `data-type`, `data-src` and `data-caption` attributes and
 * whether it carries the `hidden` class are all the behaviour depends on; the
 * selector `.media-item:not(.hidden)` is `Visible`.
 */
module Media {
  import opened Wrappers

  /** One `.media-item` element of the page. */
  datatype MediaItem = MediaItem(kind: Option<string>, src: string, caption: Option<string>, hidden: bool)

  /**
   * One entry of a list built from the non-hidden items: the item's data and
   * `element`, the position of the item among all `.media-item`s of the page.
   */
  datatype Entry = Entry(kind: Option<string>, src: string, caption: Option<string>, element: nat)

  function EntryOf(item: MediaItem, element: nat): Entry {
    Entry(item.kind, item.src, item.caption, element)
  }

  /** The gallery filter's rule: every item for "all", otherwise the items whose type is the filter. */
  predicate ShouldShow(filter: Option<string>, kind: Option<string>): (show: bool)
    ensures filter == Some("all") ==> show
    ensures filter != Some("all") ==> (show <==> kind == filter)
  {
    filter == Some("all") || kind == filter
  }

  /** Some entry of `list` was built from item `element`. */
  predicate Listed(list: seq<Entry>, element: nat) {
    exists k :: 0 <= k < |list| && list[k].element == element
  }

  /** The non-hidden items, in document order, each with its position among all items. */
  function Visible(items: seq<MediaItem>): (r: seq<Entry>)
    ensures |r| <= |items|
    ensures forall k :: 0 <= k < |r| ==>
      r[k].element < |items| && !items[r[k].element].hidden && r[k] == EntryOf(items[r[k].element], r[k].element)
    ensures forall k, l :: 0 <= k < l < |r| ==> r[k].element < r[l].element
    ensures forall j {:trigger Listed(r, j)} :: 0 <= j < |items| && !items[j].hidden ==> Listed(r, j)
  {
    if |items| == 0 then []
    else
      var n := |items| - 1;
      var front := Visible(items[..n]);
      if items[n].hidden then front
      else
        var r := front + [EntryOf(items[n], n)];
        assert r[|front|].element == n;
        assert forall k :: 0 <= k < |front| ==> r[k] == front[k];
        assert forall j :: 0 <= j < n && Listed(front, j) ==> Listed(r, j);
        assert Listed(r, n);
        r
  }

  /** With nothing hidden, the list holds every item, and entry k is item k. */
  lemma {:induction false} VisibleWhenNothingHidden(items: seq<MediaItem>)
    requires forall j :: 0 <= j < |items| ==> !items[j].hidden
    ensures |Visible(items)| == |items|
    ensures forall k :: 0 <= k < |items| ==> Visible(items)[k].element == k
  {
    if |items| > 0 {
      VisibleWhenNothingHidden(items[..|items| - 1]);
    }
  }

  /** The position in `list` of the entry built from item `element`, or -1 (`findIndex`). */
  function IndexOfElement(list: seq<Entry>, element: nat): (r: int)
    ensures -1 <= r < |list|
    ensures r == -1 <==> forall k :: 0 <= k < |list| ==> list[k].element != element
    ensures r >= 0 ==> list[r].element == element && forall k :: 0 <= k < r ==> list[k].element != element
  {
    if |list| == 0 then -1
    else if list[0].element == element then 0
    else
      var r := IndexOfElement(list[1..], element);
      if r == -1 then -1 else r + 1
  }

  /** A non-hidden item is found in the visible list, at the entry built from it. */
  lemma FindVisibleItem(items: seq<MediaItem>, element: nat)
    requires element < |items| && !items[element].hidden
    ensures var k := IndexOfElement(Visible(items), element);
      0 <= k < |Visible(items)| && Visible(items)[k] == EntryOf(items[element], element)
  {
    assert Listed(Visible(items), element);
  }

  /** A hidden or absent item is never found in the visible list. */
  lemma HiddenItemNotFound(items: seq<MediaItem>, element: nat)
    requires element >= |items| || items[element].hidden
    ensures IndexOfElement(Visible(items), element) == -1
  {
  }

  /**
   * The page state shared by the components: the media items (whose `hidden`
   * class the gallery filter sets) and whether the body's scrolling is locked
   * (`body.style.overflow = 'hidden'`), which the menu and the lightbox both set.
   */
  class Document {
    var items: seq<MediaItem>
    var bodyScrollLocked: bool

    constructor (items: seq<MediaItem>)
      ensures this.items == items && !bodyScrollLocked
    {
      this.items := items;
      bodyScrollLocked := false;
    }
  }
}
