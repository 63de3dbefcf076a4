/**
 * The route guard that runs before a page is served (middleware.ts). It classifies the
 * request path with raw, case-sensitive prefix tests and applies three ordered
 * redirect rules to the request's JWT, if any.
 */
module Middleware {
  import opened Wrappers
  import opened Claims
  import opened Routes

  /** What the guard tells the framework: serve the page, or redirect elsewhere. */
  datatype Decision = Next | Redirect(target: string)

  // Page classes: plain `startsWith` on the pathname, no normalisation.
  predicate IsAuthPage(path: string) { "/auth" <= path }
  predicate IsDashboardPage(path: string) { "/dashboard" <= path }
  predicate IsAdminPage(path: string) { "/admin" <= path }
  predicate IsProtectedPage(path: string) { IsDashboardPage(path) || IsAdminPage(path) }

  /** The roles the guard checks: `token.roles || []`. */
  function GuardRoles(token: JwtClaims): seq<string> {
    token.roles.GetOr([])
  }

  /**
   * The inner `middleware(req)` function. The three `if`s are tried in the source's
   * order; the contract states the outcome without reference to that order.
   */
  function Guard(path: string, token: Option<JwtClaims>): (d: Decision)
    ensures d.Redirect? ==> d.target == SignInPath || d.target == DashboardPath
    ensures d == Redirect(SignInPath) <==> IsProtectedPage(path) && token.None?
    ensures d == Redirect(DashboardPath) <==>
              token.Some? && (IsAuthPage(path) || (IsAdminPage(path) && AdminRole !in GuardRoles(token.value)))
  {
    var isAuth := token.Some?;
    if IsProtectedPage(path) && !isAuth then
      Redirect(SignInPath)
    else if IsAuthPage(path) && isAuth then
      Redirect(DashboardPath)
    else if IsAdminPage(path) && isAuth && AdminRole !in GuardRoles(token.value) then
      Redirect(DashboardPath)
    else
      Next
  }

  // ---------------------------------------------------------------------------
  // The matcher: which paths reach the guard at all.

  /** Path-to-regexp's `base/:path*`: the base itself or anything below it. */
  predicate Within(path: string, base: string) {
    path == base || base + "/" <= path
  }

  /** The three matcher entries `/dashboard/:path*`, `/admin/:path*` and `/auth/:path*`. */
  function Matched(path: string): (matched: bool)
    ensures matched <==> path == "/dashboard" || path == "/admin" || path == "/auth"
                         || "/dashboard/" <= path || "/admin/" <= path || "/auth/" <= path
    ensures matched ==> IsAuthPage(path) || IsProtectedPage(path)
  {
    Within(path, "/dashboard") || Within(path, "/admin") || Within(path, "/auth")
  }

  /** The framework's dispatch: the guard runs only on matched paths. */
  function Handle(path: string, token: Option<JwtClaims>): (d: Decision)
    ensures d != Next ==> Matched(path)
    ensures Matched(path) ==> d == Guard(path, token)
    ensures d.Redirect? ==> d.target == SignInPath || d.target == DashboardPath
  {
    if Matched(path) then Guard(path, token) else Next
  }

  /** Two prefixes that differ at some position cannot both start the same path. */
  lemma PrefixesClash(path: string, p: string, q: string, k: int)
    requires 0 <= k < |p| && k < |q| && p[k] != q[k]
    ensures !(p <= path && q <= path)
  {
  }

  /**
   * The page classes are consistent: admin pages are protected pages, and `/auth`
   * pages are neither dashboard nor admin pages.
   */
  lemma PageClassesDisjoint(path: string)
    ensures IsAdminPage(path) ==> IsProtectedPage(path)
    ensures !(IsAuthPage(path) && IsDashboardPage(path))
    ensures !(IsAuthPage(path) && IsAdminPage(path))
    ensures !(IsDashboardPage(path) && IsAdminPage(path))
  {
    PrefixesClash(path, "/auth", "/dashboard", 1);
    PrefixesClash(path, "/auth", "/admin", 2);
    PrefixesClash(path, "/dashboard", "/admin", 1);
  }

  /** Every matched path belongs to exactly the page class its matcher entry names. */
  lemma MatchedPathClasses(path: string)
    requires Matched(path)
    ensures IsAuthPage(path) <==> Within(path, "/auth")
    ensures IsDashboardPage(path) <==> Within(path, "/dashboard")
    ensures IsAdminPage(path) <==> Within(path, "/admin")
    ensures IsAuthPage(path) != IsProtectedPage(path)
  {
    WithinPrefix(path, "/auth");
    WithinPrefix(path, "/dashboard");
    WithinPrefix(path, "/admin");
    PageClassesDisjoint(path);
  }

  lemma WithinPrefix(path: string, base: string)
    ensures Within(path, base) ==> base <= path
  {
  }

  /** A path outside the matcher is served whatever the token says, `/administrator` included. */
  lemma UnmatchedPassesThrough(path: string, token: Option<JwtClaims>)
    requires !Matched(path)
    ensures Handle(path, token) == Next
  {
  }

  // ---------------------------------------------------------------------------
  // The rules are pairwise exclusive, so their order does not matter.

  datatype Rule = SignInRequired | AlreadySignedIn | AdminRequired

  /** The decision a single rule produces, if its condition holds. */
  function Fires(rule: Rule, path: string, token: Option<JwtClaims>): Option<Decision> {
    match rule
    case SignInRequired =>
      if IsProtectedPage(path) && token.None? then Some(Redirect(SignInPath)) else None
    case AlreadySignedIn =>
      if IsAuthPage(path) && token.Some? then Some(Redirect(DashboardPath)) else None
    case AdminRequired =>
      if IsAdminPage(path) && token.Some? && AdminRole !in GuardRoles(token.value)
      then Some(Redirect(DashboardPath)) else None
  }

  /** Rules tried in the given order; the first that fires decides. */
  function FirstMatch(rules: seq<Rule>, path: string, token: Option<JwtClaims>): Decision {
    if rules == [] then Next
    else match Fires(rules[0], path, token)
      case Some(d) => d
      case None => FirstMatch(rules[1..], path, token)
  }

  /** At most one rule fires on any request, and the guard returns that rule's decision. */
  lemma OneRuleDecides(path: string, token: Option<JwtClaims>)
    ensures forall r, s :: r != s && Fires(r, path, token).Some? ==> Fires(s, path, token).None?
    ensures forall r :: Fires(r, path, token).Some? ==> Guard(path, token) == Fires(r, path, token).value
    ensures (forall r :: Fires(r, path, token).None?) ==> Guard(path, token) == Next
  {
    PageClassesDisjoint(path);
    assert (Fires(SignInRequired, path, token).None? && Fires(AlreadySignedIn, path, token).None?
            && Fires(AdminRequired, path, token).None?) ==> Guard(path, token) == Next;
  }

  /**
   * Any order of the rules (repetitions allowed) that lists every rule gives the
   * guard's decision.
   */
  lemma {:induction false} AnyRuleOrder(rules: seq<Rule>, path: string, token: Option<JwtClaims>)
    requires forall r: Rule :: r in rules
    ensures FirstMatch(rules, path, token) == Guard(path, token)
  {
    FirstMatchCovering(rules, path, token);
  }

  lemma {:induction false} FirstMatchCovering(rules: seq<Rule>, path: string, token: Option<JwtClaims>)
    requires forall r :: Fires(r, path, token).Some? ==> r in rules
    ensures FirstMatch(rules, path, token) == Guard(path, token)
    decreases |rules|
  {
    OneRuleDecides(path, token);
    if rules != [] && Fires(rules[0], path, token).None? {
      forall r | Fires(r, path, token).Some? ensures r in rules[1..] {
        assert r in rules && r != rules[0];
      }
      FirstMatchCovering(rules[1..], path, token);
    }
  }

  /** Concrete requests: the guard's decisions for representative paths. */
  lemma Scenarios(userToken: JwtClaims, adminToken: JwtClaims)
    requires userToken.roles == Some([UserRole])
    requires adminToken.roles == Some([AdminRole, UserRole])
    ensures Handle("/dashboard", None) == Redirect(SignInPath)
    ensures Handle("/admin/users", Some(userToken)) == Redirect(DashboardPath)
    ensures Handle("/admin/users", Some(adminToken)) == Next
    ensures Handle("/auth/signin", Some(userToken)) == Redirect(DashboardPath)
    ensures Handle("/", None) == Next
    ensures Handle("/Admin", None) == Next
    ensures !IsAdminPage("/Admin/users")
  {
    assert "/dashboard" <= "/dashboard";
    assert "/admin/" <= "/admin/users";
    PageClassesDisjoint("/admin/users");
    assert "/auth/" <= "/auth/signin";
  }
}
