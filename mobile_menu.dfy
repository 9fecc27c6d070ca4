/**
 * The mobile navigation menu. Its only state is whether the nav element
 * carries the `mobile-open` class; the handlers exist only when the page
 * has a menu toggle button.
 */
module MobileMenu {

  const OPEN := "mobile-open"

  /** Where a click lands. */
  datatype Target =
    | ToggleButton   // the menu toggle button (stops propagation)
    | NavLink        // a `.nav-link` inside the nav
    | InsideNav      // anything else inside the nav
    | OutsideNav     // anything outside the nav

  /** `classList.toggle('mobile-open')`: flips the open class, keeps every other class. */
  function Flip(classes: set<string>): (r: set<string>)
    ensures OPEN in r <==> OPEN !in classes
    ensures r - {OPEN} == classes - {OPEN}
  {
    if OPEN in classes then classes - {OPEN} else classes + {OPEN}
  }

  /** `classList.remove('mobile-open')`: the menu is closed, every other class kept. */
  function Close(classes: set<string>): (r: set<string>)
    ensures OPEN !in r
    ensures r - {OPEN} == classes - {OPEN}
    ensures OPEN !in classes ==> r == classes
  {
    classes - {OPEN}
  }

  /** The document-level handler: a click outside the nav closes the menu if it is open. */
  function AfterDocumentClick(classes: set<string>, insideNav: bool): (r: set<string>)
    ensures insideNav ==> r == classes
    ensures !insideNav ==> OPEN !in r && r - {OPEN} == classes - {OPEN}
  {
    if !insideNav && OPEN in classes then Close(classes) else classes
  }

  /** The guard on the open class is unobservable: an outside click is plain removal. */
  lemma OutsideClickIsClose(classes: set<string>)
    ensures AfterDocumentClick(classes, false) == Close(classes)
  {
  }

  /** Two clicks on the toggle button restore the menu. */
  lemma FlipTwiceRestores(classes: set<string>)
    ensures Flip(Flip(classes)) == classes
  {
  }

  class Nav {
    /** The nav element's class list. */
    var classes: set<string>
    /** Whether the page has the menu toggle button, so that the handlers are installed. */
    const wired: bool

    constructor (classes: set<string>, wired: bool)
      ensures this.classes == classes && this.wired == wired
    {
      this.classes := classes;
      this.wired := wired;
    }

    /** The toggle button's click handler. */
    method OnToggleClick()
      modifies this
      ensures classes == Flip(old(classes))
    {
      classes := Flip(classes);
    }

    /** A nav link's click handler. */
    method OnLinkClick()
      modifies this
      ensures classes == Close(old(classes))
    {
      classes := classes - {OPEN};
    }

    /** The document's click handler. */
    method OnDocumentClick(insideNav: bool)
      modifies this
      ensures classes == AfterDocumentClick(old(classes), insideNav)
    {
      if !insideNav && OPEN in classes {
        classes := classes - {OPEN};
      }
    }

    /**
     * A click, delivered to the handlers it reaches: the toggle button's handler
     * stops propagation; a link click runs the link handler and then bubbles to
     * the document handler, for which the link is inside the nav.
     */
    method Click(target: Target)
      modifies this
      ensures !wired ==> classes == old(classes)
      ensures wired && target == ToggleButton ==> (OPEN in classes <==> OPEN !in old(classes))
      ensures wired && target != ToggleButton && target != InsideNav ==> OPEN !in classes
      ensures wired && target == InsideNav ==> classes == old(classes)
      ensures classes - {OPEN} == old(classes) - {OPEN}
    {
      if wired {
        match target
        case ToggleButton =>
          OnToggleClick();
        case NavLink =>
          OnLinkClick();
          OnDocumentClick(true);
        case InsideNav =>
          OnDocumentClick(true);
        case OutsideNav =>
          OnDocumentClick(false);
      }
    }
  }
}
