/** The bottom navigation bar: hides while the page scrolls down past a
    threshold, shows again on any other scroll, and marks the item whose path
    is the current one. */
module Navbar {

  datatype NavItem = NavItem(name: string, path: string)

  const NavItems: seq<NavItem> := [
    NavItem("Home", "/home"),
    NavItem("Orders", "/orders"),
    NavItem("Profile", "/settings")
  ]

  /** Below or at this scroll offset the bar is never hidden. */
  const HideThreshold: real := 50.0

  /** `pathname === path` */
  function IsActive(pathname: string, item: NavItem): (r: bool)
    ensures r <==> pathname == item.path
  {
    pathname == item.path
  }

  /** The three paths differ, so no path marks two items. */
  lemma AtMostOneActive(pathname: string, i: nat, j: nat)
    requires i < |NavItems| && j < |NavItems|
    requires IsActive(pathname, NavItems[i]) && IsActive(pathname, NavItems[j])
    ensures i == j
  {
  }

  class NavbarState {
    var visible: bool
    var lastScrollY: real

    /** A hidden bar was hidden by a scroll that went past the threshold. */
    ghost predicate Valid()
      reads this
    {
      !visible ==> lastScrollY > HideThreshold
    }

    constructor ()
      ensures Valid() && visible && lastScrollY == 0.0
    {
      visible := true;
      lastScrollY := 0.0;
    }

    /** `handleScroll` for a scroll event that leaves the window at `scrollY`. */
    method HandleScroll(scrollY: real)
      requires Valid()
      modifies this
      ensures Valid()
      ensures !visible <==> scrollY > old(lastScrollY) && scrollY > HideThreshold
      ensures scrollY <= old(lastScrollY) ==> visible
      ensures scrollY <= HideThreshold ==> visible
      ensures lastScrollY == scrollY
    {
      if scrollY > lastScrollY && scrollY > HideThreshold {
        visible := false;
      } else {
        visible := true;
      }
      lastScrollY := scrollY;
    }
  }
}
