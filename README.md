# Portfolio page interactivity: a verified model of its state machines

The page script (`script.js`) wires a static portfolio page to browser events.
Behind its handlers sit a few small state machines over integers and lists,
and this project models them in Dafny:

- the **lightbox navigator**: a snapshot of the visible media items, a cursor
  that previous/next, the arrow keys and swipes move with wrap-around, and the
  content and counter it shows;
- the **gallery filter**: only the clicked button ends up active, and the
  settled page shows exactly the items that match the filter;
- the **mobile menu**: two `open` classes that flip together, a body scroll
  lock that follows the menu, and close paths that can only close;
- the **mobile carousel**: `min(n, 10)` dots, one active dot at
  `min(index, dots - 1)`, an earliest-wins argmin for the item nearest the
  centre, and the "position / total" counter;
- the **scroll thresholds and latches**: the navbar's `scrolled` class past
  50 px, reveal animations that latch on, and counters that start once.

The DOM is abstracted away. A media item is a value: its `data-type`,
`data-src` and `data-caption` attributes and its `hidden` class. The items and
the body's scroll lock live in one `Document` object, which all components
share. The menu and the lightbox both write that one lock. Each component whose
closure variables the script updates is a class. Each handler is a method
whose `ensures` give the new value of every field it may change. Absent attributes are `Option`s, so
`undefined === undefined` is modelled: a button without `data-filter` shows
exactly the items without `data-type`.

Files: `wrappers.dfy` (Option), `counter_text.dfy` (decimal text and the
counter), `media.dfy` (items, the visible list, the shared document),
`gallery.dfy`, `lightbox.dfy`, `menu.dfy`, `carousel.dfy`, `scroll_effects.dfy`.

Three behaviours of the script that the model keeps as they are:

- The lightbox index is not kept inside the visible list.
  `openLightbox(index)` stores an index among all items, an empty list sends
  `goToPrev` to -1, and `goToPrev` from beyond the end stays out of range.
  The model states the bounds only where they hold: `NextIndex` is in range
  for every index from -1 up, and `PrevIndex` is in range exactly for indices
  up to the list length.
- The lightbox index is reset only when the lightbox opens, not when a filter
  is clicked. The carousel resets its index after a filter only on mobile with
  a non-empty list.
- `setupCarousel` does not reset the carousel's `currentIndex`, so after a
  resize into mobile layout dot 0 is active whatever the old index was.
  `MobileCarousel.SetupCarousel` keeps that behaviour.

## Model

| member | source | states |
|---|---|---|
| CounterText.Digits | script.js:672 | an integer is rendered as a non-empty string of decimal digits, with a leading '0' only for zero |
| CounterText.Counter | script.js:672 | the counter text is the position's digits, then " / ", then the total's digits |
| CounterText.CounterRoundTrip | script.js:672 | the counter text "p / t" reads back as exactly (p, t) |
| CounterText.CounterInjective | script.js:866 | different positions or totals never give the same counter text |
| Media.ShouldShow | script.js:547 | the "all" filter shows every item; any other filter shows exactly the items whose type equals it (an absent type matches an absent filter) |
| Media.Visible | script.js:619-628 | the `:not(.hidden)` snapshot holds only non-hidden items, each entry built from its own item; entries are in document order; every non-hidden item is listed |
| Media.VisibleWhenNothingHidden | script.js:621 | with nothing hidden, the snapshot has every item and entry k is item k |
| Media.IndexOfElement | script.js:632-635 | the lookup used by the corrected opening: -1 exactly when no entry comes from the item, otherwise the first entry that does |
| Media.FindVisibleItem | script.js:621 | a non-hidden item is found in the snapshot, at the entry built from it |
| Media.HiddenItemNotFound | script.js:621 | a hidden or absent item is never found in the snapshot |
| Gallery.ApplyFilter | script.js:545-559 | the settled items keep their type, source and caption, and each is hidden exactly when the filter does not show it |
| Gallery.FilterBar.ClickFilter | script.js:536-559 | exactly the clicked button is active, the buttons' filters are unchanged, and each item's settled hidden flag is the negation of "the filter is all, or the type equals the filter" |
| Gallery.FilterShowsExactlyMatching | script.js:545-559 | after a filter settles, every visible item matches the filter and every matching item is visible, so no non-matching item stays shown |
| Gallery.AllFilterShowsEverything | script.js:547 | the "all" filter shows every item, in document order |
| Gallery.LastFilterWins | script.js:545-559 | the settled state after two filter clicks depends only on the second |
| Lightbox.Show | script.js:655-672 | exactly one of image and video is active, the video iff the type is "video"; the active one gets the entry's source and the other keeps its own; the title is the caption or empty; the counter reads back as (index + 1, total) |
| Lightbox.NextIndex | script.js:684 | goToNext's index is in range exactly when the old index is at least -1 (list non-empty), and is 0 or one more |
| Lightbox.PrevIndex | script.js:678 | goToPrev's index is in range exactly when the old index is at most the length (list non-empty); on an empty list it is -1 exactly when the old index is at most 0 |
| Lightbox.NextWraps | script.js:682-686 | next from the last entry goes to 0 and otherwise moves forward one |
| Lightbox.PrevWraps | script.js:676-680 | previous from entry 0 goes to the last entry and otherwise moves back one |
| Lightbox.NextPrevInverse | script.js:676-686 | within range, next then previous, and previous then next, return to the original index |
| Lightbox.SwipeAction | script.js:752-763 | a touch goes next iff start - end > 50, back iff start - end < -50, and does nothing otherwise |
| Lightbox.Navigator.constructor | script.js:614-616 | the lightbox starts inactive with an empty list and index 0 |
| Lightbox.Navigator.BuildMediaList | script.js:619-629 | the list is rebuilt, item by item, as the visible snapshot of the page |
| Lightbox.Navigator.UpdateLightboxContent | script.js:651-673 | the view changes only when the index names an entry, and then shows that entry with counter (index + 1) / length |
| Lightbox.Navigator.OpenLightbox | script.js:632-638 | as written: rebuilds the list, sets the index to the position among all items, shows the entry at that position if there is one, activates the lightbox and locks the body |
| Lightbox.Navigator.OpenLightboxOnItem | script.js:632-638 | corrected: the index is the entry of the activated item, which is in range exactly when the item is shown, and the view shows that item |
| Lightbox.Navigator.CloseLightbox | script.js:641-648 | the lightbox is inactive, the body unlocked and the video source cleared; nothing else changes |
| Lightbox.Navigator.GoToPrev | script.js:676-680 | the index becomes PrevIndex of the old one and the view follows it when it names an entry |
| Lightbox.Navigator.GoToNext | script.js:682-686 | the index becomes NextIndex of the old one and the view follows it when it names an entry |
| Lightbox.Navigator.OnKeyDown | script.js:723-737 | keys do nothing while inactive; when active, Escape closes (body unlocked, video source cleared), ArrowLeft and ArrowRight move to PrevIndex and NextIndex and the view follows the new index, other keys do nothing |
| Lightbox.Navigator.OnTouchStart | script.js:743-745 | the touch's start position is recorded |
| Lightbox.Navigator.OnTouchEnd | script.js:747-750 | the end position is recorded and the swipe rule applied: index and view as for HandleSwipe |
| Lightbox.Navigator.HandleSwipe | script.js:752-763 | the index moves next, back or not at all as SwipeAction says; after a swipe the view follows the new index, and a non-swipe leaves it alone |
| Lightbox.VisibleAfterVideoFilter | script.js:621 | with item 0 hidden and items 1 and 2 shown, the snapshot is [item 1, item 2] |
| Lightbox.OpenAfterFilterShowsNeighbour | script.js:689-711 | as written, after the "video" filter on [image, video, video], double-clicking item 1 shows item 2 |
| Lightbox.OpenOnItemAfterFilterShowsItem | script.js:689-711 | with the corrected opening, the same clicks show item 1 |
| Lightbox.OpenWithoutFilterShowsItem | script.js:689-711 | with nothing hidden, opening item k as written shows item k |
| MobileMenu.Menu.constructor | script.js:103-106 | both `open` classes start off, as the markup is taken to have them |
| MobileMenu.Menu.ToggleMenu | script.js:109-113 | both classes flip, the body is locked exactly when the menu is open, and agreement of the two classes is preserved |
| MobileMenu.Menu.OnToggleKeyDown | script.js:118-123 | Enter and Space toggle; other keys change nothing |
| MobileMenu.Menu.OnLinkClick | script.js:126-132 | a link click leaves the menu closed, and unlocks the body only if the menu was open |
| MobileMenu.Menu.OnDocumentKeyDown | script.js:135-139 | Escape closes an open menu; it never opens one |
| MobileMenu.Menu.OnDocumentClick | script.js:142-148 | a click outside menu and toggle closes an open menu; nothing ever opens it |
| MobileMenu.Menu.Click | script.js:115-148 | a whole click, element listener then document listener unless the element stopped propagation: the toggle flips the menu, a link or an outside click leaves it closed, a click elsewhere in the menu or on a media expand or play button changes nothing |
| MobileMenu.Menu.KeyDown | script.js:118-139 | a whole keydown: Enter or Space on the toggle flips the menu, Escape leaves it closed, other keys change nothing |
| MobileMenu.ToggleTwice | script.js:109-113 | toggling twice restores both classes, and restores the body lock when the lock followed the menu |
| Carousel.IsMobileWidth | script.js:778 | the layout is mobile for window widths up to and including 768 pixels |
| Carousel.CentreDistance2 | script.js:826-834 | the integer distance is exactly twice the distance between the item's and the gallery's centres |
| Carousel.NearestIndex | script.js:828-840 | the chosen item is nearest the centre, every earlier item is strictly farther (ties go to the earliest), and 0 is chosen for no items |
| Carousel.DotCount | script.js:791 | the number of dots is min(items, 10) |
| Carousel.DotIndex | script.js:857 | the active dot is a valid dot, no later than the item, and either the item's own dot or the last dot |
| Carousel.OnlyActiveIsUnique | script.js:859-861 | after updateDots at most one dot is active |
| Carousel.MobileCarousel.constructor | script.js:776-778 | starts at index 0 with the mobile flag from the width, then sets the carousel up as setupCarousel does |
| Carousel.MobileCarousel.SetupCarousel | script.js:781-802 | the items are the visible snapshot; not on mobile or with no items, there are no dots and the counter is untouched; otherwise min(n, 10) dots with dot 0 active and the counter at 1 / n |
| Carousel.MobileCarousel.UpdateDots | script.js:850-862 | the number of dots is unchanged; with dots, exactly the dot at min(index, dots - 1) is active |
| Carousel.MobileCarousel.UpdateCounter | script.js:865-867 | the counter reads back as (index + 1, number of items) |
| Carousel.MobileCarousel.UpdateIndicators | script.js:822-847 | off mobile nothing changes; on mobile the index becomes the nearest item, or 0 when there are no items; dots and counter change only when the index changes, and then follow it |
| Carousel.MobileCarousel.OnFilterSettled | script.js:893-908 | the carousel is rebuilt; on mobile with items the index is 0, dot 0 alone is active and the counter reads 1 / n |
| Carousel.MobileCarousel.OnResize | script.js:879-890 | the mobile flag follows the width, and the carousel is rebuilt exactly when the flag changes |
| ScrollEffects.RevealTriggered | script.js:29-35 | an element is triggered exactly when its top is above 0.85 of the window height |
| ScrollEffects.CountUpTriggered | script.js:257-260 | the counters are triggered exactly when the section's top is above 0.8 of the window height |
| ScrollEffects.NavbarScrolled | script.js:68 | the navbar is scrolled exactly when the scroll position is over 50 pixels |
| ScrollEffects.Navbar.constructor | script.js:60-62 | the `scrolled` class starts as the markup has it, and the last scroll position starts at the current one |
| ScrollEffects.Navbar.UpdateNavbar | script.js:64-85 | the navbar is `scrolled` exactly when the scroll position is over 50, and the last position is recorded |
| ScrollEffects.ScrollReveal.constructor | script.js:26 | each reveal element's `active` class starts as the markup has it |
| ScrollEffects.ScrollReveal.RevealOnScroll | script.js:28-39 | each element ends active iff it was active or is triggered now; no element is ever deactivated |
| ScrollEffects.CountUp.constructor | script.js:226 | the counters have not animated |
| ScrollEffects.CountUp.CheckAndAnimate | script.js:251-261 | the counters start iff they have not started before, the section exists and it is triggered; the latch is set exactly when they start or had started |
| ScrollEffects.StartsAtMostOnce | script.js:251-261 | two checks in a row never both start the counters, and none starts once the latch is set |

## Findings

| source | as written | input that shows it | evidently intended | confidence | as-written member | corrected member |
|---|---|---|---|---|---|---|
| script.js:689-711, 632-635 | `openLightbox(index)` receives the position of the clicked item among all `.media-item`s and uses it as a position in `mediaList`, which holds only the non-hidden items | items [image, video, video], click the "video" filter, double-click item 1: the lightbox shows item 2. Double-clicking item 2 leaves the index past the end and shows stale content | open the lightbox on the entry built from the clicked item | high (not executed) | Lightbox.Navigator.OpenLightbox, Lightbox.OpenAfterFilterShowsNeighbour | Lightbox.Navigator.OpenLightboxOnItem, Lightbox.OpenOnItemAfterFilterShowsItem |

The mobile carousel's tap handler (script.js:913-933) triggers the same opening, so it has the same problem.

## Left out

- DOM queries, listener registration, CSS class and inline-style plumbing other than the flags above: these are browser APIs. Missing elements that make an initializer return early are not modelled. Each class assumes its elements exist.
- Timing. The `requestAnimationFrame` throttles, `throttle`, `debounce`, the 300 ms filter fade, the 350 ms carousel rebuild, the resize debounce and the gallery scroll and touch timeouts are not modelled. Each handler is modelled by the state it settles in.
- Gallery.FilterBar.ClickFilter: the settled state assumes each click's 300 ms timers have fired before the next click. Two clicks within 300 ms (say "video", then "all") are not modelled. There, the first click's pending timers hide items that the second click has just shown.
- Floating point. Positions, widths and scroll offsets are whole pixels. The 0.85 and 0.8 fractions are compared exactly, with no rounding. The count-up easing, the parallax opacity and offset, cursor lerping, and the scroll-target and centring arithmetic of the smooth scroll and `scrollToItem` are left out.
- `scrollToItem`, the dot click handlers and the mobile tap-to-open geometry: they only scroll the gallery or click the expand button.
- Parsing of the stat texts with `parseInt` and the animation of the numbers: `CheckAndAnimate` reports only whether the counters start.
- Carousel.MobileCarousel.SetupCarousel: the carousel collects the non-hidden items inside `.media-gallery` only, and the model takes every media item of the page to lie inside the gallery.
- MobileMenu.Menu.constructor: both `open` classes are taken to be absent from the markup, since the script never sets them at start-up.
- `data-src` is taken to be present. Assigning an absent source to an element is not modelled.
- Video play/pause and `currentTime`, `history.pushState`, lazy image loading, the image load and error handlers, the ripple effect, the active nav-link highlighting, the unused typing and cursor effects, and the `console.log` calls.
- The navbar's `lastScrollY` only feeds a commented-out hide-on-scroll rule, so the model just records it.
