/**
 * The admin page's client-side guard (app/admin/page.tsx): the redirect its effect
 * issues and what it renders, as functions of the hook's state.
 */
module AdminPage {
  import opened Wrappers
  import opened Routes
  import opened UseAuth

  datatype View = Spinner | Blank | AdminPanel

  /** The `useEffect` body: the path pushed to the router, if any. */
  function Effect(a: AuthState): (push: Option<string>)
    ensures push.Some? ==> push.value == SignInPath || push.value == DashboardPath
    ensures push == Some(SignInPath) <==> !IsLoading(a) && !IsAuthenticated(a)
    ensures push == Some(DashboardPath) <==> !IsLoading(a) && IsAuthenticated(a) && !IsAdmin(a)
    ensures push.None? <==> IsLoading(a) || IsAdmin(a)
  {
    if !IsLoading(a) && a.session.None? then Some(SignInPath)
    else if !IsLoading(a) && !IsAdmin(a) then Some(DashboardPath)
    else None
  }

  /** What the component returns. */
  function Render(a: AuthState): (v: View)
    ensures v == Spinner <==> IsLoading(a)
    ensures v == AdminPanel <==> !IsLoading(a) && IsAuthenticated(a) && IsAdmin(a)
  {
    if IsLoading(a) then Spinner
    else if a.session.None? || !IsAdmin(a) then Blank
    else AdminPanel
  }

  /** The panel is shown exactly when the page neither waits nor redirects. */
  lemma PanelIffNoRedirect(a: AuthState)
    ensures Render(a) == AdminPanel <==> !IsLoading(a) && Effect(a).None?
    ensures Render(a) == Blank <==> Effect(a).Some?
  {
  }
}
