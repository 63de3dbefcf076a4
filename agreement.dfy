/**
 * Agreement between the layers of the access gate: the middleware reads the JWT with
 * `token.roles || []`, while pages and the API read the session, whose roles the
 * session callback defaulted with `token.roles || ['user']`. These lemmas show the
 * layers reach the same verdicts and redirect to the same two places.
 */
module Agreement {
  import opened Wrappers
  import opened Claims
  import opened Routes
  import AuthUtils
  import AuthConfig
  import Middleware
  import UseAuth
  import ProtectedUserRoute
  import AdminPage
  import DashboardPage
  import SignInPage

  /** The hook state of a signed-in browser whose session came from token `t`. */
  function SignedIn(base: SessionView, t: JwtClaims): UseAuth.AuthState {
    UseAuth.AuthState(Some(AuthConfig.SessionUpdate(base, t)), UseAuth.Authenticated)
  }

  /** "admin" is in `t.roles || ['user']` exactly when it is in `t.roles || []`. */
  lemma AdminVerdictAgrees(t: JwtClaims)
    ensures AuthUtils.IsAdmin(AuthConfig.SessionRoles(t.roles)) == AuthUtils.IsAdmin(Middleware.GuardRoles(t))
  {
  }

  /** On an admin path, the admin page shows its panel iff the middleware lets the request through, and otherwise both redirect to the dashboard. */
  lemma AdminPageAgreesWithGuard(base: SessionView, t: JwtClaims, path: string)
    requires Middleware.IsAdminPage(path)
    ensures AdminPage.Render(SignedIn(base, t)) == AdminPage.AdminPanel <==> Middleware.Guard(path, Some(t)) == Middleware.Next
    ensures AdminPage.Effect(SignedIn(base, t)) ==
              if Middleware.Guard(path, Some(t)) == Middleware.Next then None else Some(DashboardPath)
  {
    Middleware.PageClassesDisjoint(path);
    AdminVerdictAgrees(t);
  }

  /** With no session the admin and dashboard pages send the browser where the middleware does. */
  lemma SignedOutPagesAgreeWithGuard(path: string, status: UseAuth.Status)
    requires Middleware.IsProtectedPage(path) && status != UseAuth.Loading
    ensures var a := UseAuth.AuthState(None, status);
      && AdminPage.Effect(a) == Some(Middleware.Guard(path, None).target)
      && DashboardPage.Effect(a) == Some(Middleware.Guard(path, None).target)
  {
  }

  /** A signed-in visitor to an `/auth` page is sent to the dashboard by both the middleware and the page. */
  lemma SignInPageAgreesWithGuard(base: SessionView, t: JwtClaims, path: string)
    requires Middleware.IsAuthPage(path)
    ensures SignInPage.Effect(SignedIn(base, t)) == Some(Middleware.Guard(path, Some(t)).target)
  {
  }

  /** The dashboard's admin card appears only when the middleware will let its target through. */
  lemma AdminCardLeadsThrough(base: SessionView, t: JwtClaims)
    requires DashboardPage.Render(SignedIn(base, t)) == DashboardPage.DashboardPanel(true)
    ensures Middleware.Handle(DashboardPage.AdminCardTarget, Some(t)) == Middleware.Next
  {
    AdminVerdictAgrees(t);
    Middleware.PageClassesDisjoint(DashboardPage.AdminCardTarget);
  }

  /** A token without a roles claim still reaches the API: the session granted "user". */
  lemma DefaultRoleReachesApi(base: SessionView, t: JwtClaims, timestamp: string)
    requires t.roles.None?
    ensures ProtectedUserRoute.Get(ProtectedUserRoute.Resolved(Some(AuthConfig.SessionUpdate(base, t))), timestamp).status == 200
  {
  }

  /** Whoever the middleware admits to the admin area, the API admits too. */
  lemma AdminAreaImpliesApi(base: SessionView, t: JwtClaims, path: string, timestamp: string)
    requires Middleware.IsAdminPage(path) && Middleware.Guard(path, Some(t)) == Middleware.Next
    ensures ProtectedUserRoute.Get(ProtectedUserRoute.Resolved(Some(AuthConfig.SessionUpdate(base, t))), timestamp).status == 200
  {
  }

  /** The configured sign-in page is where every guard sends a signed-out visitor, and login lands on the dashboard. */
  lemma TargetsAgree(outcome: UseAuth.CallOutcome)
    ensures AuthConfig.SignInPage == SignInPath == Middleware.Guard("/dashboard", None).target
    ensures SignInPage.HandleLogin(outcome).call.callbackUrl == DashboardPath
    ensures DashboardPage.AdminCardTarget == AdminPath
  {
  }

  /** Every redirect the gate issues, on the server or in a page, goes to one of two paths. */
  lemma RedirectTargets(path: string, token: Option<JwtClaims>, a: UseAuth.AuthState)
    ensures var d := Middleware.Handle(path, token); d.Redirect? ==> d.target in {SignInPath, DashboardPath}
    ensures AdminPage.Effect(a).Some? ==> AdminPage.Effect(a).value in {SignInPath, DashboardPath}
    ensures DashboardPage.Effect(a).Some? ==> DashboardPage.Effect(a).value in {SignInPath, DashboardPath}
    ensures SignInPage.Effect(a).Some? ==> SignInPage.Effect(a).value in {SignInPath, DashboardPath}
  {
  }
}
