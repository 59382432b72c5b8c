/**
 * The start screen of app/index.tsx: it reads isAuthenticated and isLoading
 * from the authentication provider and either redirects or shows a
 * loading indicator.
 */
module StartScreen {
  import opened Wrappers
  import opened AuthContext

  datatype StartView = Redirect(href: string) | LoadingView

  const DashboardRoute: string := "/dashboard"
  const LoginRoute: string := "/auth/login"

  /** The view `Index` renders for the two provider flags, checks taken in the order written. */
  function Index(isAuthenticated: bool, isLoading: bool): (v: StartView)
    ensures v == Redirect(DashboardRoute) <==> isAuthenticated
    ensures v == Redirect(LoginRoute) <==> !isAuthenticated && !isLoading
    ensures v == LoadingView <==> !isAuthenticated && isLoading
  {
    if isAuthenticated then Redirect(DashboardRoute)
    else if !isLoading && !isAuthenticated then Redirect(LoginRoute)
    else LoadingView
  }

  /** Right after mount the provider is still loading, so the start screen shows the indicator. */
  lemma MountShowsLoading(stored: Option<User>)
    ensures var s := InitialState(stored); Index(s.isAuthenticated, s.isLoading) == LoadingView
  {
  }

  /**
   * Once bootstrap has settled the start screen always redirects: to the
   * dashboard exactly when a persisted user was read back, otherwise to login.
   */
  lemma BootstrapRedirects(stored: Option<User>, readFails: bool)
    ensures var s := Apply(InitialState(stored), BootstrapEffects(stored, readFails));
      Index(s.isAuthenticated, s.isLoading) ==
        (if stored.Some? && !readFails then Redirect(DashboardRoute) else Redirect(LoginRoute))
  {
    BootstrapOutcome(InitialState(stored), readFails);
  }

  /** After any non-empty sequence of provider calls, the loading view is never shown. */
  lemma SettledNeverLoading(stored: Option<User>, ops: seq<Operation>)
    requires ops != []
    ensures var s := Run(InitialState(stored), ops); Index(s.isAuthenticated, s.isLoading) != LoadingView
  {
    FromMountValid(stored, ops);
  }
}
