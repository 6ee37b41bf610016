/**
 * The gallery's filter buttons (`initializeMediaGallery`). A click makes the
 * clicked button the only active one and, once the 300 ms fade-out has run,
 * leaves exactly the items that match the button's `data-filter` shown.
 */
module Gallery {
  import opened Wrappers
  import opened Media

  /** A `.filter-btn`: its `data-filter` attribute and whether it has the `active` class. */
  datatype FilterButton = FilterButton(filter: Option<string>, active: bool)

  /** The settled `hidden` flags after filtering by `filter`. */
  function ApplyFilter(items: seq<MediaItem>, filter: Option<string>): (r: seq<MediaItem>)
    ensures |r| == |items|
    ensures forall i :: 0 <= i < |items| ==>
      r[i].kind == items[i].kind && r[i].src == items[i].src && r[i].caption == items[i].caption
    ensures forall i :: 0 <= i < |items| ==> (r[i].hidden <==> !ShouldShow(filter, items[i].kind))
  {
    seq(|items|, i requires 0 <= i < |items| => items[i].(hidden := !ShouldShow(filter, items[i].kind)))
  }

  /** After a filter has settled, the visible list holds exactly the matching items. */
  lemma FilterShowsExactlyMatching(items: seq<MediaItem>, filter: Option<string>)
    ensures var v := Visible(ApplyFilter(items, filter));
      (forall k :: 0 <= k < |v| ==> ShouldShow(filter, v[k].kind) && v[k].element < |items|) &&
      (forall j :: 0 <= j < |items| && ShouldShow(filter, items[j].kind) ==> Listed(v, j))
  {
  }

  /** The "all" filter shows every item, in document order. */
  lemma AllFilterShowsEverything(items: seq<MediaItem>)
    ensures var v := Visible(ApplyFilter(items, Some("all")));
      |v| == |items| && forall k :: 0 <= k < |items| ==> v[k].element == k
  {
    VisibleWhenNothingHidden(ApplyFilter(items, Some("all")));
  }

  /** The settled state depends on the last filter clicked only. */
  lemma LastFilterWins(items: seq<MediaItem>, first: Option<string>, second: Option<string>)
    ensures ApplyFilter(ApplyFilter(items, first), second) == ApplyFilter(items, second)
  {
  }

  class FilterBar {
    const doc: Document
    var buttons: seq<FilterButton>

    constructor (doc: Document, buttons: seq<FilterButton>)
      ensures this.doc == doc && this.buttons == buttons
    {
      this.doc := doc;
      this.buttons := buttons;
    }

    /** The click handler of button `clicked`, in its settled state. */
    method ClickFilter(clicked: nat)
      requires clicked < |buttons|
      modifies this`buttons, doc`items
      ensures |buttons| == old(|buttons|)
      ensures forall i :: 0 <= i < |buttons| ==>
        buttons[i].filter == old(buttons[i].filter) && buttons[i].active == (i == clicked)
      ensures doc.items == ApplyFilter(old(doc.items), old(buttons[clicked].filter))
    {
      var i := 0;
      while i < |buttons|
        invariant 0 <= i <= |buttons| == old(|buttons|)
        invariant forall j :: 0 <= j < |buttons| ==> buttons[j].filter == old(buttons[j].filter)
        invariant forall j :: 0 <= j < i ==> !buttons[j].active
        invariant doc.items == old(doc.items)
      {
        buttons := buttons[i := buttons[i].(active := false)];
        i := i + 1;
      }
      buttons := buttons[clicked := buttons[clicked].(active := true)];

      var filter := buttons[clicked].filter;
      ghost var settledButtons := buttons;
      var k := 0;
      while k < |doc.items|
        invariant 0 <= k <= |doc.items| == old(|doc.items|)
        invariant forall j :: 0 <= j < k ==>
          doc.items[j] == old(doc.items[j]).(hidden := !ShouldShow(filter, old(doc.items[j].kind)))
        invariant forall j :: k <= j < |doc.items| ==> doc.items[j] == old(doc.items[j])
        invariant buttons == settledButtons
      {
        var item := doc.items[k];
        doc.items := doc.items[k := item.(hidden := !ShouldShow(filter, item.kind))];
        k := k + 1;
      }
    }
  }
}
