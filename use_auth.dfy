/**
 * The client-side hook (lib/auth/useAuth.ts): values derived from the session and
 * its loading status, and the argument choice of `login`/`logout`. The session and
 * status are inputs; `signIn`/`signOut` are foreign calls whose outcome is an input.
 */
module UseAuth {
  import opened Wrappers
  import opened Claims
  import opened Routes
  import AuthUtils

  datatype Status = Loading | Authenticated | Unauthenticated

  /** What `useSession()` reports. */
  datatype AuthState = AuthState(session: Option<SessionView>, status: Status)

  /** `session?.user?.roles?.includes(role) || false`. */
  function HasRole(a: AuthState, role: string): (held: bool)
    ensures held ==> a.session.Some? && a.session.value.user.roles.Some?
    ensures a.session.Some? && a.session.value.user.roles.Some? ==>
              (held <==> AuthUtils.HasRole(a.session.value.user.roles.value, role))
  {
    match a.session
    case None => false
    case Some(s) =>
      match s.user.roles
      case None => false
      case Some(roles) => AuthUtils.HasRole(roles, role)
  }

  /** `hasRole('admin')`: needs a session whose roles hold "admin". */
  function IsAdmin(a: AuthState): (held: bool)
    ensures held <==> a.session.Some? && a.session.value.user.roles.Some? && "admin" in a.session.value.user.roles.value
  {
    HasRole(a, AdminRole)
  }

  /** `hasRole('user')`: needs a session whose roles hold "user". */
  function IsUser(a: AuthState): (held: bool)
    ensures held <==> a.session.Some? && a.session.value.user.roles.Some? && "user" in a.session.value.user.roles.value
  {
    HasRole(a, UserRole)
  }

  /** `!!session`: a session object is present, whatever the status says. */
  function IsAuthenticated(a: AuthState): (signedIn: bool)
    ensures signedIn <==> a.session.Some?
    ensures !signedIn ==> !IsAdmin(a) && !IsUser(a)
  {
    a.session.Some?
  }

  /** `status === 'loading'`: depends on the status alone, not on the session. */
  function IsLoading(a: AuthState): (loading: bool)
    ensures loading <==> a.status == Loading
    ensures loading ==> a.status != Authenticated && a.status != Unauthenticated
  {
    a.status == Loading
  }

  /** The hook's role tests agree with the server-side helpers on the session's roles, and fail without them. */
  lemma HookRolesAgree(a: AuthState)
    ensures a.session.None? ==> !IsAdmin(a) && !IsUser(a)
    ensures a.session.Some? && a.session.value.user.roles.None? ==> !IsAdmin(a) && !IsUser(a)
    ensures a.session.Some? && a.session.value.user.roles.Some? ==>
              IsAdmin(a) == AuthUtils.IsAdmin(a.session.value.user.roles.value) &&
              IsUser(a) == AuthUtils.IsUser(a.session.value.user.roles.value)
    ensures IsAdmin(a) || IsUser(a) ==> IsAuthenticated(a)
  {
  }

  /** A call into next-auth's client: `signIn(provider, { callbackUrl })` or `signOut({ callbackUrl })`. */
  datatype ForeignCall = SignIn(provider: string, callbackUrl: string) | SignOut(callbackUrl: string)

  /** How the foreign call ended. */
  datatype CallOutcome = Completed | Threw(error: string)

  /**
   * What `login`/`logout` leave behind: the call they made and the error they logged.
   * There is no rejected variant: a failure is caught and logged, never rethrown.
   */
  datatype Settled = Settled(call: ForeignCall, loggedError: Option<string>)

  /** `provider || 'auth0'`. */
  function ProviderOrDefault(provider: Option<string>): (p: string)
    ensures provider.Some? && provider.value != "" ==> p == provider.value
    ensures provider.None? || provider == Some("") ==> p == "auth0"
  {
    if provider.Some? && provider.value != "" then provider.value else "auth0"
  }

  /** What `console.error` receives: the caught error, if there was one. */
  function Logged(outcome: CallOutcome): Option<string> {
    if outcome.Threw? then Some(outcome.error) else None
  }

  /** `login(provider)`: always the dashboard as callback URL; failures are swallowed. */
  function Login(provider: Option<string>, outcome: CallOutcome): (r: Settled)
    ensures r.call == SignIn(ProviderOrDefault(provider), DashboardPath)
    ensures r.call.provider != ""
    ensures r.loggedError == Logged(outcome)
    ensures r.loggedError.Some? <==> outcome.Threw?
  {
    Settled(SignIn(ProviderOrDefault(provider), DashboardPath), Logged(outcome))
  }

  /** `logout()`: always the home page as callback URL; failures are swallowed. */
  function Logout(outcome: CallOutcome): (r: Settled)
    ensures r.call == SignOut(HomePath)
    ensures r.loggedError.Some? <==> outcome.Threw?
  {
    Settled(SignOut(HomePath), Logged(outcome))
  }
}
