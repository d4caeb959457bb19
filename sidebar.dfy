/**
 * The navigation sidebar (`src/components/Sidebar.tsx`): the three link
 * sections, the role filter applied to each, the suppression of a section left
 * empty, the active-link test and the keys that activate the overlay. Icons
 * are left out.
 */
module Sidebar {
  import opened Wrappers
  import opened Lists
  import opened Types
  import opened AuthContext

  datatype NavItem = NavItem(path: string, title: string, requiredRole: Option<Role>, badge: Option<string>)

  const MainItems: seq<NavItem> := [
    NavItem("/dashboard", "Dashboard", None, None),
    NavItem("/trading", "Trading", Some(Trader), None),
    NavItem("/portfolio", "Portfolio", Some(Trader), None),
    NavItem("/watchlist", "Watchlist", None, None),
    NavItem("/order-history", "Order History", Some(Trader), None),
    NavItem("/notifications", "Notifications", None, None),
    NavItem("/analytics", "Analytics", None, Some("Pro"))]

  const SupportItems: seq<NavItem> := [
    NavItem("/help", "Help & FAQ", None, None),
    NavItem("/contact", "Contact Support", None, None),
    NavItem("/api-docs", "API Documentation", Some(Admin), None)]

  const LegalItems: seq<NavItem> := [
    NavItem("/terms", "Terms of Service", None, None),
    NavItem("/privacy", "Privacy Policy", None, None),
    NavItem("/disclaimers", "Disclaimers", None, None)]

  predicate Ungated(item: NavItem)
  {
    item.requiredRole.None?
  }

  /** The test inside `filterItemsByRole`: an ungated item, or one whose role `hasRole` grants. */
  predicate Permitted(user: Option<User>, item: NavItem)
  {
    item.requiredRole.None? || RoleGranted(user, item.requiredRole.value)
  }

  /** `filterItemsByRole`. */
  function FilterByRole(items: seq<NavItem>, user: Option<User>): (r: seq<NavItem>)
    ensures forall x :: x in r <==> x in items && (Ungated(x) || RoleGranted(user, x.requiredRole.value))
    ensures Subsequence(r, items)
  {
    Filter(items, (x: NavItem) => Permitted(user, x))
  }

  /** An administrator sees every item. */
  lemma AdminSeesAll(items: seq<NavItem>, user: Option<User>)
    requires user.Some? && user.value.role == Admin
    ensures FilterByRole(items, user) == items
  {
  }

  /** Without a user only the ungated items are left. */
  lemma {:induction false} NoUserSeesUngated(items: seq<NavItem>)
    ensures FilterByRole(items, None) == Filter(items, Ungated)
  {
    FilterCongruent(items, (x: NavItem) => Permitted(None, x), Ungated);
  }

  /** A user who is not an administrator sees the ungated items and those of their own role. */
  lemma {:induction false} NonAdminSeesOwnRole(items: seq<NavItem>, user: Option<User>)
    requires user.Some? && user.value.role != Admin
    ensures FilterByRole(items, user) == Filter(items, (x: NavItem) => x.requiredRole.None? || x.requiredRole == Some(user.value.role))
  {
    forall i | 0 <= i < |items|
      ensures Permitted(user, items[i]) == (items[i].requiredRole.None? || items[i].requiredRole == Some(user.value.role))
    {
      if items[i].requiredRole.Some? {
        RoleGrantedFacts(user, items[i].requiredRole.value);
      }
    }
    FilterCongruent(items, (x: NavItem) => Permitted(user, x),
      (x: NavItem) => x.requiredRole.None? || x.requiredRole == Some(user.value.role));
  }

  /** A section is drawn only with at least one permitted item. */
  function Section(items: seq<NavItem>, user: Option<User>): (r: Option<seq<NavItem>>)
    ensures r.None? <==> forall i :: 0 <= i < |items| ==> !Permitted(user, items[i])
    ensures r.Some? ==> r.value == FilterByRole(items, user) && r.value != []
  {
    FilterExtremes(items, (x: NavItem) => Permitted(user, x));
    var f := FilterByRole(items, user);
    if |f| == 0 then None else Some(f)
  }

  /** The support section stays for every visitor; its API link is the administrator's. */
  lemma SupportSectionAlwaysDrawn(user: Option<User>)
    ensures Section(SupportItems, user).Some?
    ensures SupportItems[2] in Section(SupportItems, user).value <==> RoleGranted(user, Admin)
  {
    assert Permitted(user, SupportItems[0]);
    assert SupportItems[2].requiredRole == Some(Admin);
    assert SupportItems[2] != SupportItems[0] && SupportItems[2] != SupportItems[1];
  }

  /** `isActive`: the location's path equals the link's. */
  function IsActive(pathname: string, path: string): (r: bool)
    ensures r <==> |pathname| == |path| && forall i :: 0 <= i < |path| ==> pathname[i] == path[i]
  {
    pathname == path
  }

  predicate DistinctPaths(items: seq<NavItem>)
  {
    forall i, j :: 0 <= i < j < |items| ==> items[i].path != items[j].path
  }

  /** With distinct paths at most one link of a list is marked active. */
  lemma AtMostOneActive(items: seq<NavItem>, pathname: string, i: int, j: int)
    requires DistinctPaths(items)
    requires 0 <= i < |items| && 0 <= j < |items|
    requires IsActive(pathname, items[i].path) && IsActive(pathname, items[j].path)
    ensures i == j
  {
  }

  lemma DemoPathsDistinct()
    ensures DistinctPaths(MainItems) && DistinctPaths(SupportItems) && DistinctPaths(LegalItems)
  {
  }

  /** `handleKeyDown`: only Enter and Space run the action. */
  function HandleKeyDown(key: string): (acts: bool)
    ensures acts <==> key == "Enter" || key == " "
  {
    key == "Enter" || key == " "
  }
}
