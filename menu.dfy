/**
 * The mobile hamburger menu (`initializeMobileMenu`): the toggle button and the
 * navigation menu each carry an `open` class that `toggleMenu` flips, and the
 * body's scrolling is locked while the menu is open. Every path other than the
 * toggle button itself only ever closes the menu.
 */
module MobileMenu {
  import opened Media

  /**
   * Where a click lands: the toggle button, a link of the menu, elsewhere
   * inside the menu, a media expand or play button (whose listeners stop the
   * event's propagation), or anywhere else outside both.
   */
  datatype Target = ToggleButton | NavLink | InsideMenu | StopsPropagation | Outside

  predicate IsActivationKey(key: string) {
    key == "Enter" || key == " "
  }

  class Menu {
    const doc: Document
    /** The toggle button's `open` class. */
    var toggleOpen: bool
    /** The navigation menu's `open` class. */
    var navOpen: bool

    /** The two `open` classes agree. */
    predicate Synced()
      reads this
    {
      toggleOpen == navOpen
    }

    constructor (doc: Document)
      ensures this.doc == doc && !toggleOpen && !navOpen && Synced()
    {
      this.doc := doc;
      toggleOpen, navOpen := false, false;
    }

    /** `toggleMenu`: flip both classes; the body is locked exactly when the menu is open. */
    method ToggleMenu()
      modifies this, doc`bodyScrollLocked
      ensures toggleOpen == !old(toggleOpen) && navOpen == !old(navOpen)
      ensures doc.bodyScrollLocked == navOpen
      ensures Synced() == old(Synced())
    {
      toggleOpen := !toggleOpen;
      navOpen := !navOpen;
      doc.bodyScrollLocked := navOpen;
    }

    /** The toggle button's keydown listener: Enter and Space toggle. */
    method OnToggleKeyDown(key: string)
      modifies this, doc`bodyScrollLocked
      ensures navOpen == (if IsActivationKey(key) then !old(navOpen) else old(navOpen))
      ensures toggleOpen == (if IsActivationKey(key) then !old(toggleOpen) else old(toggleOpen))
      ensures IsActivationKey(key) ==> doc.bodyScrollLocked == navOpen
      ensures !IsActivationKey(key) ==> doc.bodyScrollLocked == old(doc.bodyScrollLocked)
    {
      if key == "Enter" || key == " " {
        ToggleMenu();
      }
    }

    /** A menu link's click listener: close the menu if it is open. */
    method OnLinkClick()
      modifies this, doc`bodyScrollLocked
      ensures Synced() == old(Synced()) && !navOpen
      ensures old(navOpen) ==> !doc.bodyScrollLocked
      ensures !old(navOpen) ==> doc.bodyScrollLocked == old(doc.bodyScrollLocked)
    {
      if navOpen {
        ToggleMenu();
      }
    }

    /** The document's keydown listener: Escape closes an open menu. */
    method OnDocumentKeyDown(key: string)
      modifies this, doc`bodyScrollLocked
      ensures Synced() == old(Synced())
      ensures navOpen == (old(navOpen) && key != "Escape")
      ensures old(navOpen) && key == "Escape" ==> !doc.bodyScrollLocked
      ensures !(old(navOpen) && key == "Escape") ==> doc.bodyScrollLocked == old(doc.bodyScrollLocked)
    {
      if key == "Escape" && navOpen {
        ToggleMenu();
      }
    }

    /** The document's click listener: a click outside the menu and the toggle closes an open menu. */
    method OnDocumentClick(inMenu: bool, inToggle: bool)
      modifies this, doc`bodyScrollLocked
      ensures Synced() == old(Synced())
      ensures navOpen == (old(navOpen) && (inMenu || inToggle))
      ensures navOpen != old(navOpen) ==> !doc.bodyScrollLocked
      ensures navOpen == old(navOpen) ==> doc.bodyScrollLocked == old(doc.bodyScrollLocked)
    {
      if navOpen && !inMenu && !inToggle {
        ToggleMenu();
      }
    }

    /**
     * A whole click: the listener of the clicked element runs first, then the
     * event bubbles to the document's listener unless that listener stopped it.
     */
    method Click(target: Target)
      modifies this, doc`bodyScrollLocked
      ensures Synced() == old(Synced())
      ensures navOpen == match target
        case ToggleButton => !old(navOpen)
        case NavLink => false
        case InsideMenu => old(navOpen)
        case StopsPropagation => old(navOpen)
        case Outside => false
      ensures navOpen != old(navOpen) ==> doc.bodyScrollLocked == navOpen
      ensures navOpen == old(navOpen) ==> doc.bodyScrollLocked == old(doc.bodyScrollLocked)
    {
      if target == ToggleButton {
        ToggleMenu();
      } else if target == NavLink {
        OnLinkClick();
      }
      if target != StopsPropagation {
        OnDocumentClick(target == NavLink || target == InsideMenu, target == ToggleButton);
      }
    }

    /** A whole keydown, on the toggle button or elsewhere: the element's listener, then the document's. */
    method KeyDown(key: string, onToggle: bool)
      modifies this, doc`bodyScrollLocked
      ensures Synced() == old(Synced())
      ensures navOpen == if onToggle && IsActivationKey(key) then !old(navOpen)
        else if key == "Escape" then false
        else old(navOpen)
      ensures navOpen != old(navOpen) ==> doc.bodyScrollLocked == navOpen
      ensures navOpen == old(navOpen) ==> doc.bodyScrollLocked == old(doc.bodyScrollLocked)
    {
      if onToggle {
        OnToggleKeyDown(key);
      }
      OnDocumentKeyDown(key);
    }
  }

  /** Toggling twice restores both classes and, if the body lock followed the menu, the lock too. */
  method ToggleTwice(m: Menu)
    modifies m, m.doc`bodyScrollLocked
    ensures m.toggleOpen == old(m.toggleOpen) && m.navOpen == old(m.navOpen)
    ensures old(m.doc.bodyScrollLocked) == old(m.navOpen) ==> m.doc.bodyScrollLocked == old(m.doc.bodyScrollLocked)
  {
    m.ToggleMenu();
    m.ToggleMenu();
  }
}
