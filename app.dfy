/**
 * The application shell (`src/App.tsx`): the two route guards, the table of
 * routes with the guard each one sits behind, and the layout's sidebar and
 * high-contrast switches with the stored preference. The body class and the
 * router's rendering are outside the model.
 */
module App {
  import opened Wrappers
  import opened Types
  import opened AuthContext
  import Sidebar

  /** What a guard renders. */
  datatype View = LoadingView | RedirectTo(path: string) | AccessDenied | Content

  /** `ProtectedRoute`: loading first, then the sign-in check, then the role. */
  function ProtectedRoute(s: AuthState, requiredRole: Option<Role>): (v: View)
    ensures s.isLoading ==> v == LoadingView
    ensures !s.isLoading && !s.isAuthenticated ==> v == RedirectTo("/login")
    ensures !s.isLoading && s.isAuthenticated ==>
      (v == AccessDenied <==> requiredRole.Some? && !RoleGranted(s.user, requiredRole.value)) &&
      (v != AccessDenied ==> v == Content)
  {
    if s.isLoading then LoadingView
    else if !s.isAuthenticated then RedirectTo("/login")
    else if requiredRole.Some? && !RoleGranted(s.user, requiredRole.value) then AccessDenied
    else Content
  }

  /** `PublicRoute`: loading first; a signed-in visitor goes to the dashboard. */
  function PublicRoute(s: AuthState): (v: View)
    ensures s.isLoading ==> v == LoadingView
    ensures !s.isLoading && s.isAuthenticated ==> v == RedirectTo("/dashboard")
    ensures !s.isLoading && !s.isAuthenticated ==> v == Content
  {
    if s.isLoading then LoadingView
    else if s.isAuthenticated then RedirectTo("/dashboard")
    else Content
  }

  /** How a path is served. */
  datatype Guard =
    | PublicOnly                    // `<PublicRoute>`
    | SignedIn(role: Option<Role>)  // `<ProtectedRoute requiredRole=…>`
    | Unguarded                     // the layout alone
    | Elsewhere(to: string)         // `<Navigate to=… replace />`

  const PublicPaths: set<string> := {"/login", "/signup"}
  const TraderPaths: set<string> := {"/trading", "/portfolio", "/order-history"}
  const AdminPaths: set<string> := {"/api-docs"}
  const SignedInPaths: set<string> := {"/dashboard", "/watchlist", "/notifications", "/analytics", "/profile"}
  const OpenPaths: set<string> := {"/help", "/contact", "/terms", "/privacy", "/disclaimers"}

  /** The `<Routes>` table; `/` and every other path redirect to the dashboard. */
  function GuardOf(path: string): (g: Guard)
    ensures path in PublicPaths ==> g == PublicOnly
    ensures path in TraderPaths ==> g == SignedIn(Some(Trader))
    ensures path in AdminPaths ==> g == SignedIn(Some(Admin))
    ensures path in SignedInPaths ==> g == SignedIn(None)
    ensures path in OpenPaths ==> g == Unguarded
    ensures path !in PublicPaths + TraderPaths + AdminPaths + SignedInPaths + OpenPaths ==> g == Elsewhere("/dashboard")
  {
    if path in PublicPaths then PublicOnly
    else if path in TraderPaths then SignedIn(Some(Trader))
    else if path in AdminPaths then SignedIn(Some(Admin))
    else if path in SignedInPaths then SignedIn(None)
    else if path in OpenPaths then Unguarded
    else Elsewhere("/dashboard")
  }

  /** What visiting a path renders. */
  function Visit(s: AuthState, path: string): (v: View)
    ensures path in OpenPaths ==> v == Content
    ensures path !in PublicPaths + TraderPaths + AdminPaths + SignedInPaths + OpenPaths ==> v == RedirectTo("/dashboard")
    ensures s.isLoading && path in PublicPaths + TraderPaths + AdminPaths + SignedInPaths ==> v == LoadingView
    ensures v == AccessDenied ==> path in TraderPaths + AdminPaths && !s.isLoading && s.isAuthenticated
    ensures v == Content && path in TraderPaths + AdminPaths + SignedInPaths ==> !s.isLoading && s.isAuthenticated
  {
    match GuardOf(path)
    case PublicOnly => PublicRoute(s)
    case SignedIn(role) => ProtectedRoute(s, role)
    case Unguarded => Content
    case Elsewhere(to) => RedirectTo(to)
  }

  /** A signed-in administrator reaches every page of the table, as the role check grants an admin every role. */
  lemma AdminReachesAll(s: AuthState, path: string)
    requires Consistent(s) && !s.isLoading && s.isAuthenticated && s.user.value.role == Admin
    requires path in TraderPaths + AdminPaths + SignedInPaths + OpenPaths
    ensures Visit(s, path) == Content
  {
  }

  /** A visitor who is not signed in is sent to `/login` from every guarded page, and sees the open ones. */
  lemma SignedOutVisits(s: AuthState, path: string)
    requires !s.isLoading && !s.isAuthenticated
    ensures path in TraderPaths + AdminPaths + SignedInPaths ==> Visit(s, path) == RedirectTo("/login")
    ensures path in OpenPaths + PublicPaths ==> Visit(s, path) == Content
  {
  }

  /** A guest is turned away from the trading and administration pages. */
  lemma GuestDenied(s: AuthState, path: string)
    requires Consistent(s) && !s.isLoading && s.isAuthenticated && s.user.value.role == Guest
    requires path in TraderPaths + AdminPaths
    ensures Visit(s, path) == AccessDenied
  {
  }

  /** The role each sidebar link needs is the role its route demands. */
  function SidebarRole(path: string): Option<Role>
  {
    match GuardOf(path)
    case SignedIn(role) => role
    case _ => None
  }

  /**
   * For a signed-in user the sidebar shows a link exactly when its page would
   * not answer "Access Denied".
   */
  lemma SidebarMatchesRoutes(s: AuthState, item: Sidebar.NavItem)
    requires Consistent(s) && !s.isLoading && s.isAuthenticated
    requires item in Sidebar.MainItems + Sidebar.SupportItems + Sidebar.LegalItems
    ensures item.requiredRole == SidebarRole(item.path)
    ensures Sidebar.Permitted(s.user, item) <==> Visit(s, item.path) != AccessDenied
  {
    var all := Sidebar.MainItems + Sidebar.SupportItems + Sidebar.LegalItems;
    var i :| 0 <= i < |all| && all[i] == item;
    assert |all| == 13;
  }

  // ----- the layout ----------------------------------------------------------

  const HighContrastKey: string := "high_contrast_mode"

  /** The stored preference is on only for the exact text `"true"`. */
  function ParseHighContrast(stored: Option<string>): (on: bool)
    ensures on <==> stored == Some("true")
  {
    stored.Some? && stored.value == "true"
  }

  /** `isHighContrast.toString()`. */
  function ShowBool(b: bool): (r: string)
    ensures r == "true" || r == "false"
    ensures r == "true" <==> b
  {
    if b then "true" else "false"
  }

  lemma PreferenceRoundTrip(b: bool)
    ensures ParseHighContrast(Some(ShowBool(b))) == b
  {
  }

  class AppLayout {
    var isSidebarOpen: bool
    var isHighContrast: bool
    /** The local store's entries. */
    var stored: map<string, string>

    constructor (stored: map<string, string>)
      ensures !isSidebarOpen && !isHighContrast && this.stored == stored
    {
      isSidebarOpen := false;
      isHighContrast := false;
      this.stored := stored;
    }

    /** The mount effect: read the preference. */
    method LoadPreference()
      modifies this`isHighContrast
      ensures isHighContrast <==> HighContrastKey in stored && stored[HighContrastKey] == "true"
    {
      var v := if HighContrastKey in stored then Some(stored[HighContrastKey]) else None;
      isHighContrast := ParseHighContrast(v);
    }

    /** The effect that runs on every change of the flag: write it back. */
    method StorePreference()
      modifies this`stored
      ensures stored == old(stored)[HighContrastKey := ShowBool(isHighContrast)]
    {
      stored := stored[HighContrastKey := ShowBool(isHighContrast)];
    }

    method ToggleSidebar()
      modifies this`isSidebarOpen
      ensures isSidebarOpen == !old(isSidebarOpen)
    {
      isSidebarOpen := !isSidebarOpen;
    }

    method CloseSidebar()
      modifies this`isSidebarOpen
      ensures !isSidebarOpen
    {
      isSidebarOpen := false;
    }

    method ToggleHighContrast()
      modifies this`isHighContrast, this`stored
      ensures isHighContrast == !old(isHighContrast)
      ensures stored == old(stored)[HighContrastKey := ShowBool(isHighContrast)]
    {
      isHighContrast := !isHighContrast;
      StorePreference();
    }
  }

  /** A toggled preference survives a reload. */
  method ToggleThenReload(layout: AppLayout) returns (reloaded: AppLayout)
    modifies layout
    ensures fresh(reloaded)
    ensures reloaded.isHighContrast == !old(layout.isHighContrast)
  {
    layout.ToggleHighContrast();
    reloaded := new AppLayout(layout.stored);
    reloaded.LoadPreference();
  }
}
