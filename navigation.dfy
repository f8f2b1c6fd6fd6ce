/**
 * The site's navigation bar: which link is highlighted for the current path,
 * and the mobile menu's open flag.
 */
module Navigation {
  import opened Text

  datatype NavItem = NavItem(href: string, caption: string)

  /** `navItems` */
  const NavItems: seq<NavItem> := [
    NavItem("/", "Home"),
    NavItem("/properties", "Properties"),
    NavItem("/about", "About"),
    NavItem("/contact", "Contact")]

  /** `isActive(href)` for the current `pathname`. */
  predicate IsActive(pathname: string, href: string) {
    if href == "/" then pathname == "/" else StartsWith(pathname, href)
  }

  /** Home is highlighted on the root path and nowhere else. */
  lemma HomeActiveOnlyAtRoot(pathname: string)
    ensures IsActive(pathname, "/") <==> pathname == "/"
  {
  }

  /** No path highlights two items: the hrefs other than Home differ at their second character. */
  lemma {:induction false} AtMostOneActive(pathname: string, i: int, j: int)
    requires 0 <= i < j < |NavItems|
    ensures !(IsActive(pathname, NavItems[i].href) && IsActive(pathname, NavItems[j].href))
  {
    assert IsActive(pathname, NavItems[j].href) ==> |pathname| >= 2 && pathname[1] == NavItems[j].href[1];
    assert i > 0 && IsActive(pathname, NavItems[i].href) ==> pathname[1] == NavItems[i].href[1];
  }

  /** Every item is highlighted on its own path, and on any path below it. */
  lemma {:induction false} ItemActiveBelowOwnPath(i: int, rest: string)
    requires 0 <= i < |NavItems|
    requires i == 0 ==> rest == ""
    ensures IsActive(NavItems[i].href + rest, NavItems[i].href)
  {
    var href := NavItems[i].href;
    assert (href + rest)[..|href|] == href;
  }

  /** On the root path only Home is highlighted. */
  lemma RootHighlightsOnlyHome(i: int)
    requires 0 < i < |NavItems|
    ensures !IsActive("/", NavItems[i].href)
  {
  }

  /** The mobile menu's open flag. */
  class Menu {
    var isOpen: bool

    constructor ()
      ensures !isOpen
    {
      isOpen := false;
    }

    /** The menu button. */
    method Toggle()
      modifies this
      ensures isOpen == !old(isOpen)
    {
      isOpen := !isOpen;
    }

    /** A link in the open menu. */
    method ClickLink()
      modifies this
      ensures !isOpen
    {
      isOpen := false;
    }
  }
}
