/**
 * The sign-in page (app/auth/signin/page.tsx): sends a signed-in visitor to the
 * dashboard, otherwise shows the sign-in button, which starts the default login.
 */
module SignInPage {
  import opened Wrappers
  import opened Routes
  import opened UseAuth

  datatype View = Spinner | SignInForm

  /** The `useEffect` body: reads only `isAuthenticated`. */
  function Effect(a: AuthState): (push: Option<string>)
    ensures push.Some? <==> IsAuthenticated(a)
    ensures push.Some? ==> push.value == DashboardPath
  {
    if IsAuthenticated(a) then Some(DashboardPath) else None
  }

  /** What the component returns: a spinner while loading, otherwise the form. */
  function Render(a: AuthState): (v: View)
    ensures v == Spinner <==> IsLoading(a)
  {
    if IsLoading(a) then Spinner else SignInForm
  }

  /** `handleLogin`: `login()` with no provider. */
  function HandleLogin(outcome: CallOutcome): (r: Settled)
    ensures r.call == SignIn("auth0", DashboardPath)
    ensures r.loggedError.Some? <==> outcome.Threw?
  {
    Login(None, outcome)
  }

  /** The redirect ignores the loading status; an unauthenticated, loaded visitor gets the form and stays. */
  lemma RedirectIgnoresLoading(a: AuthState, status: Status)
    ensures Effect(AuthState(a.session, status)) == Effect(a)
    ensures !IsAuthenticated(a) && !IsLoading(a) ==> Effect(a).None? && Render(a) == SignInForm
  {
  }
}
