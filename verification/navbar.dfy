/** The navigation bar's auth-dependent choices (client/src/components/Navbar.jsx):
    which route each button leads to, the logout handler, and the greeting title. */
module Navbar {
  import opened JsText
  import opened UserCodec
  import opened AuthSession

  /** The bar's buttons. */
  datatype Button = Logo | Insurance | Marketplace | Profile | LogoutButton | GetStarted

  const HomeRoute: string := "/"
  const LoginRoute: string := "/login"
  const MarketplaceRoute: string := "/mdashboard"
  const ProfileRoute: string := "/profile"
  const InsuranceRoute: string := "/selectinsurance"

  /** The buttons rendered: profile and logout when authenticated, otherwise "get started". */
  function VisibleButtons(isAuthenticated: bool): (bs: set<Button>)
    ensures {Logo, Insurance, Marketplace} <= bs
    ensures Profile in bs <==> isAuthenticated
    ensures LogoutButton in bs <==> isAuthenticated
    ensures GetStarted in bs <==> !isAuthenticated
  {
    if isAuthenticated then {Logo, Insurance, Marketplace, Profile, LogoutButton}
    else {Logo, Insurance, Marketplace, GetStarted}
  }

  /** The route a button navigates to. */
  function Target(b: Button, isAuthenticated: bool): (route: string)
    ensures b == Marketplace ==> (route == MarketplaceRoute <==> isAuthenticated)
    ensures b == Profile ==> (route == ProfileRoute <==> isAuthenticated)
    ensures route == LoginRoute <==> b == GetStarted || (!isAuthenticated && b in {Marketplace, Profile})
  {
    match b
    case Logo => HomeRoute
    case Insurance => InsuranceRoute
    case Marketplace => if isAuthenticated then MarketplaceRoute else LoginRoute
    case Profile => if isAuthenticated then ProfileRoute else LoginRoute
    case LogoutButton => HomeRoute
    case GetStarted => LoginRoute
  }

  /** Only the marketplace and profile buttons depend on the session; the insurance
      button always leads to `/selectinsurance`. */
  lemma OnlyGuardedButtonsDependOnAuth(b: Button)
    ensures Target(b, true) != Target(b, false) <==> b in {Marketplace, Profile}
    ensures Target(Insurance, true) == Target(Insurance, false) == InsuranceRoute
  {
  }

  /** A profile button that is actually rendered never sends the user to login. */
  lemma VisibleProfileLeadsToProfile(isAuthenticated: bool)
    requires Profile in VisibleButtons(isAuthenticated)
    ensures Target(Profile, isAuthenticated) == ProfileRoute
  {
  }

  /** `handleLogout`: `logout()` and then navigation to `/`. */
  function HandleLogout(ctx: Context): (r: (Context, string))
    ensures !r.0.state.isAuthenticated && r.0.state.user.None?
    ensures TokenKey !in r.0.storage && UserDataKey !in r.0.storage
    ensures r.0 == Logout(ctx)
    ensures r.1 == HomeRoute
  {
    (Logout(ctx), HomeRoute)
  }

  /** After the logout handler the bar shows "get started" and every guarded
      button leads to login, also after a re-check of storage. */
  lemma AfterLogoutGuardsRedirect(ctx: Context)
    ensures var after := CheckAuthStatus(HandleLogout(ctx).0).state.isAuthenticated;
            !after && Target(Marketplace, after) == LoginRoute && GetStarted in VisibleButtons(after)
  {
    LogoutThenCheck(ctx);
  }

  /** The profile button's title: `Welcome, ${user?.name || "User"}`. */
  function GreetingTitle(user: Option<UserProfile>): (title: string)
    ensures user.Some? && user.value.name != "" ==> title == "Welcome, " + user.value.name
    ensures user.None? || user.value.name == "" ==> title == "Welcome, User"
  {
    var name := if user.Some? && user.value.name != "" then user.value.name else "User";
    "Welcome, " + name
  }
}
