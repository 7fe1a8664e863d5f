/** The top-level screen choice of `App.tsx`: what is shown for a given auth state
    (`loading`, `user`) and the two pieces of local state (`showRegister`, `currentView`). */
module App {
  import opened Common
  import opened Rows

  /** The four manager screens `renderView` can mount inside the main layout. */
  datatype Page = DashboardPage | PlanoPage | RegionaisPage | ResponsaveisPage

  datatype Screen =
    | LoadingScreen
    | LoginScreen
    | RegisterScreen
    | MainLayout(currentView: string, page: Page)

  /** The initial values of the local state. */
  const InitialView := "dashboard"
  const InitialShowRegister := false

  /** `renderView`: the `switch` over `currentView`; an unknown id falls back to the dashboard. */
  function PageFor(view: string): (p: Page)
    ensures p == PlanoPage <==> view == "plano"
    ensures p == RegionaisPage <==> view == "regionais"
    ensures p == ResponsaveisPage <==> view == "responsaveis"
    ensures p == DashboardPage <==> view != "plano" && view != "regionais" && view != "responsaveis"
  {
    if view == "dashboard" then DashboardPage
    else if view == "plano" then PlanoPage
    else if view == "regionais" then RegionaisPage
    else if view == "responsaveis" then ResponsaveisPage
    else DashboardPage
  }

  /** The screen `App` renders. */
  function ScreenFor(loading: bool, user: Option<Id>, showRegister: bool, currentView: string): (s: Screen)
    ensures s == LoadingScreen <==> loading
    ensures s == RegisterScreen <==> !loading && user.None? && showRegister
    ensures s == LoginScreen <==> !loading && user.None? && !showRegister
    ensures s.MainLayout? <==> !loading && user.Some?
    ensures s.MainLayout? ==> s.currentView == currentView && s.page == PageFor(currentView)
  {
    if loading then LoadingScreen
    else if user.None? then (if showRegister then RegisterScreen else LoginScreen)
    else MainLayout(currentView, PageFor(currentView))
  }

  /** No manager screen is reachable without a signed-in user, whatever the other state. */
  lemma NoPageWithoutUser(loading: bool, showRegister: bool, currentView: string)
    ensures !ScreenFor(loading, None, showRegister, currentView).MainLayout?
  {
  }

  /** On the first render after the page loads, a signed-in user sees the dashboard. */
  lemma SignedInStartsOnDashboard(user: Id)
    ensures ScreenFor(false, Some(user), InitialShowRegister, InitialView) == MainLayout(InitialView, DashboardPage)
  {
  }

  /** On the first render after the page loads, a visitor who is not signed in sees the
      login screen, whatever the view. */
  lemma SignedOutStartsOnLogin(currentView: string)
    ensures ScreenFor(false, None, InitialShowRegister, currentView) == LoginScreen
  {
  }

  /** Signing out resets neither the view nor the register flag, so a user who signs in
      again gets the page that was open before, not the dashboard. */
  lemma SignInAgainKeepsView(user: Id, currentView: string)
    ensures ScreenFor(false, Some(user), false, currentView) == MainLayout(currentView, PageFor(currentView))
  {
  }

  /** Sign-out does not reset `showRegister` either, so a user who came in through the
      register screen sees Register again, not Login, after signing out. */
  lemma SignOutAfterRegisterShowsRegister(currentView: string)
    ensures ScreenFor(false, None, true, currentView) == RegisterScreen
  {
  }
}
