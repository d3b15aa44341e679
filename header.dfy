// The navigation bar (src/components/Header.jsx).
//
// `isMenuOpen` starts false; the menu button flips it and every navigation
// closes it.  The render shows a placeholder while the content is loading,
// the logo only when the brand has one, and the mobile menu only while open.

module Header {
  import opened ContentContext

  // ---- menu state ---------------------------------------------------------------

  /** A user action on the header. */
  datatype MenuEvent = ToggleClicked | Navigate(targetExists: bool)

  /** The state change one action makes. */
  function MenuStep(open: bool, e: MenuEvent): (next: bool)
    ensures e.Navigate? ==> !next
    ensures e == ToggleClicked ==> next != open
  {
    match e
    case ToggleClicked => !open
    case Navigate(_) => false
  }

  /** The menu state after a sequence of actions. */
  function MenuAfter(open: bool, es: seq<MenuEvent>): bool {
    if es == [] then open else MenuStep(MenuAfter(open, es[..|es| - 1]), es[|es| - 1])
  }

  function Toggles(es: seq<MenuEvent>): nat {
    if es == [] then 0 else Toggles(es[..|es| - 1]) + (if es[|es| - 1] == ToggleClicked then 1 else 0)
  }

  /** The number of toggles after the last navigation. */
  function TogglesSinceNavigate(es: seq<MenuEvent>): nat {
    if es == [] || es[|es| - 1].Navigate? then 0 else TogglesSinceNavigate(es[..|es| - 1]) + 1
  }

  predicate HasNavigate(es: seq<MenuEvent>) {
    exists i :: 0 <= i < |es| && es[i].Navigate?
  }

  /** After any actions, the menu is open exactly when an odd number of
      toggles followed the last navigation; with no navigation, it is the
      initial state flipped once per toggle. */
  lemma {:induction false} MenuAfterParity(open: bool, es: seq<MenuEvent>)
    ensures HasNavigate(es) ==> (MenuAfter(open, es) <==> TogglesSinceNavigate(es) % 2 == 1)
    ensures !HasNavigate(es) ==> (MenuAfter(open, es) <==> (open != (Toggles(es) % 2 == 1)))
  {
    if es != [] {
      var init := es[..|es| - 1];
      MenuAfterParity(open, init);
      var last := es[|es| - 1];
      if last.Navigate? {
        assert HasNavigate(es);
      } else {
        assert HasNavigate(es) <==> HasNavigate(init) by {
          if HasNavigate(es) {
            var i :| 0 <= i < |es| && es[i].Navigate?;
            assert i < |es| - 1 && init[i] == es[i];
          }
          if HasNavigate(init) {
            var i :| 0 <= i < |init| && init[i].Navigate?;
            assert es[i] == init[i];
          }
        }
      }
    }
  }

  /** Toggling twice restores the state; navigating closes it whatever came
      before. */
  lemma ToggleTwiceAndNavigate(open: bool, es: seq<MenuEvent>, target: bool)
    ensures MenuAfter(open, [ToggleClicked, ToggleClicked]) == open
    ensures !MenuAfter(open, es + [Navigate(target)])
  {
    assert (es + [Navigate(target)])[..|es|] == es;
    assert [ToggleClicked, ToggleClicked][..1] == [ToggleClicked];
    assert [ToggleClicked][..0] == [];
    assert MenuAfter(open, [ToggleClicked]) == !open;
  }

  /** The header's own state: `const [isMenuOpen, setIsMenuOpen] = useState(false)`. */
  class Menu {
    var isMenuOpen: bool

    constructor ()
      ensures !isMenuOpen
    {
      isMenuOpen := false;
    }

    /** `toggleMenu`: `setIsMenuOpen(!isMenuOpen)`. */
    method ToggleMenu()
      modifies this
      ensures isMenuOpen == MenuStep(old(isMenuOpen), ToggleClicked)
    {
      isMenuOpen := !isMenuOpen;
    }

    /** `scrollToSection`: scroll only when the element with that id exists,
        then close the menu in either case.  `scrolled` reports whether a
        scroll was requested. */
    method ScrollToSection(targetExists: bool) returns (scrolled: bool)
      modifies this
      ensures scrolled == targetExists
      ensures isMenuOpen == MenuStep(old(isMenuOpen), Navigate(targetExists))
    {
      scrolled := false;
      if targetExists {
        scrolled := true;
      }
      isMenuOpen := false;
    }
  }

  // ---- render ---------------------------------------------------------------------

  datatype MenuIcon = MenuGlyph | CloseGlyph

  datatype MobileMenu = MobileMenu(items: seq<NavItem>, ctaButton: string)

  datatype HeaderView =
    | HeaderLoading
    | NavBar(logo: Option<string>, brandName: string, items: seq<NavItem>, ctaButton: string,
             icon: MenuIcon, mobile: Option<MobileMenu>)

  /** The header's render for a content state and menu state. */
  function RenderHeader(s: ContentState, menuOpen: bool): (r: Outcome<HeaderView>)
    // loading or no content: the placeholder, whatever the document holds
    ensures ShowsPlaceholder(s) ==> r == Rendered(HeaderLoading)
    // `brand.logo` is read first, then `navigation.items`
    ensures !ShowsPlaceholder(s) && s.content.value.brand.None? ==> r == Threw(TypeError("logo"))
    ensures (!ShowsPlaceholder(s) && s.content.value.brand.Some? && s.content.value.navigation.None?)
              ==> r == Threw(TypeError("items"))
    ensures r.Rendered? && r.view.NavBar? ==>
              var d := s.content.value;
              && d.brand.Some? && d.navigation.Some?
              && r.view.brandName == d.brand.value.name
              && (r.view.logo.Some? <==> Truthy(d.brand.value.logo))
              && (r.view.logo.Some? ==> r.view.logo == d.brand.value.logo)
              && r.view.items == d.navigation.value.items
              && r.view.ctaButton == d.navigation.value.ctaButton
              && (r.view.mobile.Some? <==> menuOpen)
              && (r.view.icon == CloseGlyph <==> menuOpen)
              && (menuOpen ==> r.view.mobile.value.items == d.navigation.value.items)
    ensures (!ShowsPlaceholder(s) && s.content.value.brand.Some? && s.content.value.navigation.Some?)
              ==> r.Rendered? && r.view.NavBar?
  {
    if ShowsPlaceholder(s) then Rendered(HeaderLoading)
    else
      var d := s.content.value;
      if d.brand.None? then Threw(TypeError("logo"))
      else if d.navigation.None? then Threw(TypeError("items"))
      else
        var brand, nav := d.brand.value, d.navigation.value;
        Rendered(NavBar(
          if Truthy(brand.logo) then brand.logo else None,
          brand.name,
          nav.items,
          nav.ctaButton,
          if menuOpen then CloseGlyph else MenuGlyph,
          if menuOpen then Some(MobileMenu(nav.items, nav.ctaButton)) else None))
  }

  /** The placeholder branch reads no field: two states that both satisfy
      the guard render the same, whatever their documents. */
  lemma PlaceholderReadsNothing(s1: ContentState, s2: ContentState, open1: bool, open2: bool)
    requires ShowsPlaceholder(s1) && ShowsPlaceholder(s2)
    ensures RenderHeader(s1, open1) == RenderHeader(s2, open2)
  {
  }
}
