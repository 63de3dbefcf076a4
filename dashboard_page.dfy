/**
 * The dashboard page's client-side guard (app/dashboard/page.tsx): a redirect to
 * sign-in for a missing session, and the admin card for administrators.
 */
module DashboardPage {
  import opened Wrappers
  import opened Routes
  import opened UseAuth

  /** A rendered dashboard says whether it carries the admin-panel card. */
  datatype View = Spinner | Blank | DashboardPanel(adminCard: bool)

  /** Where the admin card's button navigates. */
  const AdminCardTarget := AdminPath

  /** The `useEffect` body: the path pushed to the router, if any. */
  function Effect(a: AuthState): (push: Option<string>)
    ensures push.Some? ==> push.value == SignInPath
    ensures push.Some? <==> !IsLoading(a) && !IsAuthenticated(a)
  {
    if !IsLoading(a) && a.session.None? then Some(SignInPath) else None
  }

  /** What the component returns. */
  function Render(a: AuthState): (v: View)
    ensures v == Spinner <==> IsLoading(a)
    ensures v == Blank <==> !IsLoading(a) && !IsAuthenticated(a)
    ensures v.DashboardPanel? ==> IsAuthenticated(a) && (v.adminCard <==> IsAdmin(a))
  {
    if IsLoading(a) then Spinner
    else if a.session.None? then Blank
    else DashboardPanel(IsAdmin(a))
  }

  /** The page never redirects on role: any signed-in user, admin or not, sees the panel once loaded. */
  lemma NoRoleRedirect(a: AuthState)
    requires IsAuthenticated(a)
    ensures Effect(a).None?
    ensures !IsLoading(a) ==> Render(a) == DashboardPanel(IsAdmin(a))
  {
  }
}
