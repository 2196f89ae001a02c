/**
 * The site's navigation bar: a mobile menu that the menu button toggles and
 * a route change closes, a flag that restyles the bar once the page has
 * scrolled past a threshold, and links highlighted when they point at the
 * current pathname.
 */
module Navigation {

  datatype NavItem = NavItem(name: string, path: string)

  /** The links shown in both the desktop bar and the mobile menu. */
  const NavItems: seq<NavItem> := [
    NavItem("Home", "/"),
    NavItem("About Us", "/about"),
    NavItem("Programs", "/programs"),
    NavItem("Admissions", "/admissions"),
    NavItem("Student Life", "/student-life"),
    NavItem("Contact", "/contact")
  ]

  /** Vertical scroll offset, in pixels, past which the bar is restyled. */
  const ScrollThreshold: int := 50

  /** The value the scroll listener stores for a given vertical offset. */
  predicate IsScrolled(scrollY: int) {
    scrollY > ScrollThreshold
  }

  /** A link is highlighted when its path is exactly the current pathname. */
  predicate IsActive(item: NavItem, pathname: string) {
    pathname == item.path
  }

  /** The paths of the links, in order. */
  function Paths(items: seq<NavItem>): (r: seq<string>)
    ensures |r| == |items|
    ensures forall i :: 0 <= i < |items| ==> r[i] == items[i].path
  {
    if items == [] then [] else [items[0].path] + Paths(items[1..])
  }

  /** No two links share a path. */
  predicate DistinctPaths(items: seq<NavItem>) {
    forall i, j :: 0 <= i < j < |items| ==> items[i].path != items[j].path
  }

  /** The links of `items` that are highlighted for `pathname`, in order. */
  function ActiveOf(items: seq<NavItem>, pathname: string): (r: seq<NavItem>)
    ensures forall item :: item in r <==> item in items && IsActive(item, pathname)
  {
    if items == [] then []
    else (if IsActive(items[0], pathname) then [items[0]] else []) + ActiveOf(items[1..], pathname)
  }

  /** The restyling starts strictly above the threshold. */
  lemma ScrolledThreshold()
    ensures !IsScrolled(50) && IsScrolled(51)
  {
  }

  /** The six links have six different paths. */
  lemma NavItemsDistinct()
    ensures |NavItems| == 6
    ensures DistinctPaths(NavItems)
  {
  }

  /**
   * With distinct paths, at most one link is highlighted, and one is
   * exactly when the pathname is the path of some link.
   */
  lemma {:induction false} ActiveAtMostOne(items: seq<NavItem>, pathname: string)
    requires DistinctPaths(items)
    ensures |ActiveOf(items, pathname)| <= 1
    ensures |ActiveOf(items, pathname)| == 1 <==> pathname in Paths(items)
  {
    if items != [] {
      var rest := items[1..];
      assert DistinctPaths(rest) by {
        forall i, j | 0 <= i < j < |rest|
          ensures rest[i].path != rest[j].path
        {
          assert rest[i] == items[i + 1] && rest[j] == items[j + 1];
        }
      }
      ActiveAtMostOne(rest, pathname);
      assert Paths(items) == [items[0].path] + Paths(rest);
    }
  }

  /** Two highlighted links are the same link. */
  lemma ActiveUnique(pathname: string, i: nat, j: nat)
    requires i < |NavItems| && j < |NavItems|
    requires IsActive(NavItems[i], pathname) && IsActive(NavItems[j], pathname)
    ensures i == j
  {
    NavItemsDistinct();
  }

  /** On each of the six routes exactly one link is highlighted; elsewhere none. */
  lemma NavItemsActive(pathname: string)
    ensures |ActiveOf(NavItems, pathname)| == if pathname in Paths(NavItems) then 1 else 0
  {
    NavItemsDistinct();
    ActiveAtMostOne(NavItems, pathname);
  }

  class NavigationBar {
    var isOpen: bool
    var scrolled: bool
    /** The pathname the route-change effect last ran for. */
    var pathname: string

    /** Mounting on `initialPath`: menu closed and not scrolled. */
    constructor (initialPath: string)
      ensures !isOpen && !scrolled && pathname == initialPath
    {
      isOpen := false;
      scrolled := false;
      pathname := initialPath;
    }

    /** The mobile menu button. */
    method ToggleMenu()
      modifies this`isOpen
      ensures isOpen == !old(isOpen)
    {
      isOpen := !isOpen;
    }

    /** The window's scroll listener. */
    method HandleScroll(scrollY: int)
      modifies this`scrolled
      ensures scrolled == IsScrolled(scrollY)
    {
      scrolled := IsScrolled(scrollY);
    }

    /**
     * A render with the router's current pathname. The effect that closes
     * the menu runs only when the pathname differs from the previous one.
     */
    method LocationChanged(newPath: string)
      modifies this`isOpen, this`pathname
      ensures pathname == newPath
      ensures newPath != old(pathname) ==> !isOpen
      ensures newPath == old(pathname) ==> isOpen == old(isOpen)
    {
      if newPath != pathname {
        isOpen := false;
        pathname := newPath;
      }
    }

    /** The links highlighted in the current render. */
    function ActiveLinks(): (r: seq<NavItem>)
      reads this
      ensures |r| <= 1
      ensures |r| == 1 <==> pathname in Paths(NavItems)
      ensures forall item :: item in r ==> item in NavItems && item.path == pathname
    {
      NavItemsActive(pathname);
      ActiveOf(NavItems, pathname)
    }
  }

  /** Toggling twice restores the menu. */
  method ToggleTwice(nav: NavigationBar)
    modifies nav`isOpen
    ensures nav.isOpen == old(nav.isOpen)
  {
    nav.ToggleMenu();
    nav.ToggleMenu();
  }
}
