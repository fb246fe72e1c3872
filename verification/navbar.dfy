/**
 * The navigation bar: a scroll handler that sets the "scrolled" styling flag
 * and works out which section is under a fixed anchor line 100 px below the
 * top of the viewport, the nav-link click that scrolls to a section, and the
 * mobile menu's open/closed state.
 *
 * The document is modelled as the elements the handlers look up by id, each
 * with the bounding rectangle the browser reports for it at that moment.
 */
module Navbar {
  import opened Wrappers

  datatype NavLink = NavLink(name: string, href: string)

  const navLinks: seq<NavLink> := [
    NavLink("About", "#about"),
    NavLink("Skills", "#skills"),
    NavLink("Projects", "#projects"),
    NavLink("Experience", "#experience")
  ]

  /** Scrolling further than this many pixels switches the bar to its solid style. */
  const ScrolledThreshold := 50
  /** The anchor line, in pixels from the top of the viewport. */
  const AnchorLine := 100

  /** A bounding client rectangle's vertical extent, in whole CSS pixels. */
  datatype Rect = Rect(top: int, bottom: int)

  /** The elements with an id, and the rectangle of each. */
  type Document = map<string, Rect>

  /** `href.substring(1)`: the link target without its leading '#'. */
  function SectionId(link: NavLink): string {
    if |link.href| == 0 then "" else link.href[1..]
  }

  /** `navLinks.map(link => link.href.substring(1))`: the candidate sections, in nav order. */
  function Sections(): (r: seq<string>)
    ensures |r| == |navLinks|
    ensures forall i :: 0 <= i < |r| ==> "#" + r[i] == navLinks[i].href
  {
    seq(|navLinks|, i requires 0 <= i < |navLinks| => SectionId(navLinks[i]))
  }

  /** A section's rectangle reaches across the anchor line; both bounds are inclusive. */
  predicate Straddles(r: Rect) {
    r.top <= AnchorLine && r.bottom >= AnchorLine
  }

  /** The `find` callback: a missing element never matches. */
  predicate AtAnchor(doc: Document, id: string) {
    id in doc && Straddles(doc[id])
  }

  /** `ids.find(id => AtAnchor(doc, id))`: the first id, in order, whose element is at the anchor line. */
  function FindSection(ids: seq<string>, doc: Document): (r: Option<string>)
    ensures r.None? <==> forall i :: 0 <= i < |ids| ==> !AtAnchor(doc, ids[i])
    ensures r.Some? ==> exists k :: 0 <= k < |ids| && ids[k] == r.value && AtAnchor(doc, ids[k])
                          && forall j :: 0 <= j < k ==> !AtAnchor(doc, ids[j])
  {
    if ids == [] then None
    else if AtAnchor(doc, ids[0]) then Some(ids[0])
    else
      var r := FindSection(ids[1..], doc);
      assert r.Some? ==> exists k :: 0 <= k < |ids| - 1 && ids[1..][k] == r.value && AtAnchor(doc, ids[1..][k])
                           && forall j :: 0 <= j < k ==> !AtAnchor(doc, ids[1..][j]);
      assert r.Some? ==> exists k :: 0 <= k < |ids| && ids[k] == r.value && AtAnchor(doc, ids[k])
                           && forall j :: 0 <= j < k ==> !AtAnchor(doc, ids[j]);
      r
  }

  /** The candidate sections are about, skills, projects and experience; hero and contact never are. */
  lemma SectionsAre()
    ensures Sections() == ["about", "skills", "projects", "experience"]
    ensures "hero" !in Sections() && "contact" !in Sections()
  {
    assert Sections()[0] == "about";
    assert Sections()[1] == "skills";
    assert Sections()[2] == "projects";
    assert Sections()[3] == "experience";
  }

  /**
   * The section chosen does not depend on sections after it, and overlapping
   * sections resolve to the earliest one in nav order.
   */
  lemma {:induction false} FirstMatchWins(ids: seq<string>, doc: Document, k: nat)
    requires k < |ids| && AtAnchor(doc, ids[k])
    ensures FindSection(ids, doc).Some?
    ensures FindSection(ids, doc) == FindSection(ids[..k + 1], doc)
  {
    if !AtAnchor(doc, ids[0]) {
      FirstMatchWins(ids[1..], doc, k - 1);
      assert ids[..k + 1][1..] == ids[1..][..k];
    }
  }

  /** A section with no element in the document never becomes active. */
  lemma {:induction false} MissingNeverChosen(ids: seq<string>, doc: Document)
    ensures FindSection(ids, doc).Some? ==> FindSection(ids, doc).value in doc
  {
  }

  class Navbar {
    /** The bar uses its solid style. */
    var scrolled: bool
    /** The id of the highlighted nav link's section, or "" before any section was found. */
    var activeSection: string
    var mobileMenuOpen: bool
    /** The scroll listener is attached (between mount and teardown). */
    var listening: bool

    /** The active section is empty or one of the candidates. */
    ghost predicate Valid()
      reads this
    {
      activeSection == "" || activeSection in Sections()
    }

    constructor ()
      ensures Valid()
      ensures !scrolled && activeSection == "" && !mobileMenuOpen && listening
    {
      scrolled, activeSection, mobileMenuOpen, listening := false, "", false, true;
    }

    /** The scroll handler, given the scroll offset and the document at that moment. */
    method HandleScroll(scrollY: int, doc: Document)
      requires Valid()
      modifies this
      ensures Valid()
      ensures listening == old(listening) && mobileMenuOpen == old(mobileMenuOpen)
      ensures !listening ==> scrolled == old(scrolled) && activeSection == old(activeSection)
      ensures listening ==> scrolled == (scrollY > ScrolledThreshold)
      ensures listening ==> activeSection == match FindSection(Sections(), doc)
                                            case Some(id) => id
                                            case None => old(activeSection)
      ensures old(activeSection) != "" ==> activeSection != ""
    {
      if listening {
        scrolled := scrollY > ScrolledThreshold;
        var current := FindSection(Sections(), doc);
        if current.Some? {
          activeSection := current.value;
        }
      }
    }

    /** Whether the link for `link` is drawn as the active one. */
    predicate LinkHighlighted(link: NavLink)
      reads this
    {
      activeSection == SectionId(link)
    }

    /**
     * A nav-link click: when the target element exists the page scrolls to it
     * and the mobile menu closes; otherwise nothing changes.
     */
    method ScrollToSection(link: NavLink, doc: Document)
      requires link in navLinks
      requires Valid()
      modifies this
      ensures Valid()
      ensures mobileMenuOpen == (old(mobileMenuOpen) && SectionId(link) !in doc)
      ensures scrolled == old(scrolled) && activeSection == old(activeSection)
      ensures listening == old(listening)
    {
      if SectionId(link) in doc {
        mobileMenuOpen := false;
      }
    }

    /** The menu button. */
    method ToggleMenu()
      requires Valid()
      modifies this
      ensures Valid()
      ensures mobileMenuOpen == !old(mobileMenuOpen)
      ensures scrolled == old(scrolled) && activeSection == old(activeSection)
      ensures listening == old(listening)
    {
      mobileMenuOpen := !mobileMenuOpen;
    }

    /** A click on the backdrop behind the open menu. */
    method CloseMenu()
      requires Valid()
      modifies this
      ensures Valid()
      ensures !mobileMenuOpen
      ensures scrolled == old(scrolled) && activeSection == old(activeSection)
      ensures listening == old(listening)
    {
      mobileMenuOpen := false;
    }

    /** Teardown removes the scroll listener. */
    method Unmount()
      requires Valid()
      modifies this
      ensures Valid()
      ensures !listening
      ensures scrolled == old(scrolled) && activeSection == old(activeSection)
      ensures mobileMenuOpen == old(mobileMenuOpen)
    {
      listening := false;
    }
  }
}
