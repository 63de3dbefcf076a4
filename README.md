# Role-based access gate of a next-auth web application, in Dafny

The application signs users in through an OAuth2/OIDC provider (Auth0) with next-auth,
keeps the identity in a JWT, and gates its pages by role. This project models the part
of it that decides access:

- the **route guard** (`middleware.ts`): from a request path and an optional JWT it
  decides to serve the page, redirect to `/auth/signin`, or redirect to `/dashboard`;
  the matcher limits it to `/dashboard`, `/admin` and `/auth` and what lies below them;
- the **role helpers** of `lib/utils/auth.ts` (`hasRole`, `isAdmin`, `isUser`), the
  segment selection and alphabet step of `decodeToken`, and `isTokenExpired`;
- the **claim-shaping callbacks** of `lib/auth/auth-config.ts`: `jwt` updates the
  token object in place from the provider account and profile, `session` updates the
  session object in place from the token and grants the default role `"user"`;
- the **client hook** `useAuth` (role tests, `isAuthenticated`, `isLoading`, the
  arguments of `login`/`logout`);
- the **protected API endpoint** `GET /api/protected/user` (401 / 403 / 500 / 200);
- the **client-side page guards** of the admin, dashboard and sign-in pages.

Files, one module each: `wrappers.dfy` (Option), `claims.dfy` (the JWT and session
record shapes of `types/next-auth.d.ts`), `routes.dfy` (page paths), `middleware.dfy`,
`auth_utils.dfy`, `auth_config.dfy`, `use_auth.dfy`, `protected_user_route.dfy`,
`admin_page.dfy`, `dashboard_page.dfy`, `signin_page.dfy`, and `agreement.dfy`, which
proves that the layers agree with one another.

The callbacks are methods on mutable `Token`, `Session` and `SessionUser` objects;
each method's postcondition ties the object's new value to a function of its old value
(`JwtUpdate`, `SessionUpdate`), and the properties are proved about those functions.
Everything else in the core is pure decision logic and is modelled by functions.
JavaScript truthiness is written out: an absent field is `None`; an array is truthy even
when empty, so `token.roles || ['user']` keeps `[]`; `token.sub || ''` and
`provider || 'auth0'` also replace the empty string; `!decoded.exp` also holds for 0.

Three facts about the code that the model keeps:
- the guard does not look at token expiry, so a token past its `exp` still counts as
  signed in;
- paths are classified with raw, case-sensitive `startsWith`, so `/Admin` is not an
  admin page, and `/administrator` passes the `startsWith('/admin')` test but is never
  matched, so it is never guarded;
- the session callback grants the default role `"user"` to a token without roles, so
  pages and the API see a role the identity provider never supplied.

## Model

| member | source | states |
|---|---|---|
| `Middleware.Guard` | middleware.ts:22-55 | redirects to `/auth/signin` iff the path starts with `/dashboard` or `/admin` and there is no token; to `/dashboard` iff there is a token and the path starts with `/auth`, or starts with `/admin` while the token's roles (absent counted as empty) lack `"admin"`; every redirect goes to one of those two paths |
| `Middleware.Matched` | middleware.ts:68-74 | a path is matched iff it is `/dashboard`, `/admin` or `/auth` or starts with one of them followed by `/`; every matched path is an `/auth` page or a protected page |
| `Middleware.Handle` | middleware.ts:68-74 | on a matched path the decision is exactly the guard's; only matched paths can be redirected, and every redirect targets `/auth/signin` or `/dashboard` |
| `Middleware.UnmatchedPassesThrough` | middleware.ts:68-74 | a path outside the matcher is served whatever the token |
| `Middleware.MatchedPathClasses` | middleware.ts:30-33 | on matched paths, each `startsWith` class coincides with its matcher entry, and a path is an `/auth` page iff it is not a protected page |
| `Middleware.PageClassesDisjoint` | middleware.ts:30-33 | admin pages are protected pages; `/auth`, `/dashboard` and `/admin` pages are pairwise disjoint |
| `Middleware.PrefixesClash` | middleware.ts:30-33 | two prefixes differing at some position cannot both start a path (the reason the page classes are disjoint) |
| `Middleware.OneRuleDecides` | middleware.ts:36-51 | at most one of the three redirect rules fires on any request, and the guard returns the decision of the one that fires, else proceeds |
| `Middleware.AnyRuleOrder` | middleware.ts:36-54 | trying the three rules in any order, repetitions allowed, gives the guard's decision |
| `Middleware.FirstMatchCovering` | middleware.ts:36-54 | first-match evaluation over any rule list containing every rule that fires equals the guard |
| `Middleware.Scenarios` | middleware.ts:22-55 | `/dashboard` without token goes to sign-in; `/admin/users` goes to the dashboard for a plain user and proceeds for an admin; `/auth/signin` with a token goes to the dashboard; `/` and `/Admin` proceed |
| `AuthUtils.HasRole` | lib/utils/auth.ts:14-16 | `hasRole` holds iff some position of the list equals the role exactly; false on the empty list |
| `AuthUtils.HasRoleMonotone` | lib/utils/auth.ts:14-16 | adding roles at either end never makes `hasRole` false |
| `AuthUtils.IsAdmin` | lib/utils/auth.ts:21-23 | holds iff some position of the list is exactly `"admin"` |
| `AuthUtils.IsUser` | lib/utils/auth.ts:28-30 | holds iff some position of the list is exactly `"user"` |
| `AuthUtils.FirstDot` | lib/utils/auth.ts:37 | finds the first `.`: absent iff the string has none, else a `.` with none before it |
| `AuthUtils.Split` | lib/utils/auth.ts:37 | `split('.')` gives at least one part, no part contains `.`, and joining the parts with `.` gives back the string |
| `AuthUtils.FirstDotAfter` | lib/utils/auth.ts:37 | in `p + "." + t` with no `.` in `p`, the first `.` is right after `p` |
| `AuthUtils.SplitJoin` | lib/utils/auth.ts:37 | splitting a `.`-join of dot-free parts gives back the parts |
| `AuthUtils.PayloadSegment` | lib/utils/auth.ts:37 | `split('.')[1]` is absent iff the token has no `.`; otherwise it is dot-free and is exactly the text after the first `.` up to the next `.` or the end |
| `AuthUtils.ReplaceAll` | lib/utils/auth.ts:38 | a global one-character replace keeps the length and changes exactly the occurrences of that character |
| `AuthUtils.Base64UrlToBase64` | lib/utils/auth.ts:38 | the two replaces keep the length, map `-` to `+` and `_` to `/`, leave every other character, and leave no `-` or `_` |
| `AuthUtils.Base64UrlRoundTrip` | lib/utils/auth.ts:38 | on text without `+` or `/` the reverse substitution restores every character |
| `AuthUtils.DecodeToken` | lib/utils/auth.ts:35-50 | fails when the token has no `.`; when it has one, the result is exactly the payload parser applied to the re-alphabeted second segment |
| `AuthUtils.IsTokenExpired` | lib/utils/auth.ts:55-61 | expired when decoding fails or `exp` is missing or 0; otherwise expired iff `nowMs >= (exp + 1) * 1000`, i.e. iff `exp < floor(nowMs / 1000)` |
| `AuthUtils.NotExpiredWithinItsSecond` | lib/utils/auth.ts:59-60 | a token whose `exp` equals the current second is not expired |
| `AuthUtils.ExpiryIsPermanent` | lib/utils/auth.ts:55-61 | once expired, a token stays expired at every later time |
| `AuthConfig.JwtCallback` | lib/auth/auth-config.ts:43-70 | updates the token object in place and returns it; its new claims are `JwtUpdate` of its old claims |
| `AuthConfig.JwtAccountFields` | lib/auth/auth-config.ts:45-50 | with an account, `accessToken`, `refreshToken`, `expiresAt` come from `access_token`, `refresh_token`, `expires_at`; without one they are kept |
| `AuthConfig.JwtProfileFields` | lib/auth/auth-config.ts:53-58 | with a profile, `sub`, `email`, `name`, `picture` come from it; without one they are kept |
| `AuthConfig.JwtRoles` | lib/auth/auth-config.ts:63-66 | roles are replaced only by a truthy namespaced roles claim of a profile; otherwise the previous roles stay |
| `AuthConfig.JwtStable` | lib/auth/auth-config.ts:43-70 | with neither account nor profile the token is unchanged; running the callback twice with the same inputs equals running it once |
| `AuthConfig.UserId` | lib/auth/auth-config.ts:82 | the session id is the token's `sub` when present, else `""` |
| `AuthConfig.SessionCallback` | lib/auth/auth-config.ts:79-86 | updates the session and its user object in place and returns the session; its new value is `SessionUpdate` of its old value and the token |
| `AuthConfig.SessionFields` | lib/auth/auth-config.ts:81-83 | `accessToken` and `user.id` come from the token; `user.name`, `user.email`, `user.image` are left as given |
| `AuthConfig.SessionRoles` | lib/auth/auth-config.ts:83 | a defined roles list is kept as is, an absent one becomes `["user"]`; `"admin"` is present only if the token's roles hold it |
| `AuthConfig.SessionRolesDefault` | lib/auth/auth-config.ts:83 | afterwards the session always has roles: the token's whenever defined (including `[]`), else `["user"]` |
| `AuthConfig.SessionStable` | lib/auth/auth-config.ts:79-86 | the result depends only on the token and the session's name, email and image; applying it twice equals once |
| `AuthConfig.SignInRolesChain` | lib/auth/auth-config.ts:63-83 | after `jwt` with a profile then `session`, the session's roles are the profile's roles claim if truthy, else the token's previous roles, else `["user"]` |
| `UseAuth.HasRole` | lib/auth/useAuth.ts:67-71 | false without a session or without roles; otherwise exactly the list-membership test of the server-side helper |
| `UseAuth.IsAdmin` | lib/auth/useAuth.ts:78-80 | holds iff there is a session whose roles are defined and contain `"admin"` |
| `UseAuth.IsUser` | lib/auth/useAuth.ts:87-89 | holds iff there is a session whose roles are defined and contain `"user"` |
| `UseAuth.IsAuthenticated` | lib/auth/useAuth.ts:100 | holds iff a session is present, whatever the status; without one neither role test holds |
| `UseAuth.IsLoading` | lib/auth/useAuth.ts:101 | holds iff the status is `loading`, so never together with `authenticated` or `unauthenticated` |
| `UseAuth.HookRolesAgree` | lib/auth/useAuth.ts:78-89 | `isAdmin()`/`isUser()` are false without a session or roles and otherwise equal the server-side `isAdmin`/`isUser`; either implies authenticated |
| `UseAuth.ProviderOrDefault` | lib/auth/useAuth.ts:38 | the given provider when non-empty, else `"auth0"` |
| `UseAuth.Login` | lib/auth/useAuth.ts:34-42 | calls `signIn` with exactly the given provider (`"auth0"` when it is absent or empty) and callback URL `/dashboard`; the logged error is exactly the thrown one, and a failure is never rethrown |
| `UseAuth.Logout` | lib/auth/useAuth.ts:49-57 | calls `signOut` with callback URL `/`; a failure is logged and never rethrown |
| `ProtectedUserRoute.Permitted` | app/api/protected/user/route.ts:19-20 | a user without roles is refused; otherwise permitted iff the roles hold `"user"` or `"admin"` |
| `ProtectedUserRoute.Get` | app/api/protected/user/route.ts:7-45 | 500 iff the session lookup threw; 401 iff there is no session; 403 iff there is a session whose roles (absent counted as empty) hold neither `"user"` nor `"admin"`; else 200 with `id`, `name`, `email`, `roles` copied unchanged from the session; each error carries its message |
| `ProtectedUserRoute.MissingRolesForbidden` | app/api/protected/user/route.ts:19-25 | a session without roles, or whose roles contain neither `"user"` nor `"admin"` (`"Admin"` included), gets 403 |
| `AdminPage.Effect` | app/admin/page.tsx:12-18 | pushes `/auth/signin` iff loaded without a session, `/dashboard` iff loaded with a session but not admin, and nothing iff loading or admin |
| `AdminPage.Render` | app/admin/page.tsx:20-30 | a spinner iff loading; the admin panel iff loaded, signed in and admin; otherwise nothing |
| `AdminPage.PanelIffNoRedirect` | app/admin/page.tsx:12-30 | the panel shows exactly when the page is loaded and issues no redirect; it renders nothing exactly when it redirects |
| `DashboardPage.Effect` | app/dashboard/page.tsx:12-16 | pushes `/auth/signin` iff loaded without a session, and nothing else |
| `DashboardPage.Render` | app/dashboard/page.tsx:18-28 | a spinner iff loading; nothing iff loaded without a session; the panel otherwise, with the admin card iff `isAdmin()` |
| `DashboardPage.NoRoleRedirect` | app/dashboard/page.tsx:12-16 | a signed-in user, admin or not, is never redirected and sees the panel once loaded |
| `SignInPage.Effect` | app/auth/signin/page.tsx:11-15 | pushes `/dashboard` iff a session is present |
| `SignInPage.Render` | app/auth/signin/page.tsx:21-27 | a spinner iff loading, else the form |
| `SignInPage.HandleLogin` | app/auth/signin/page.tsx:17-19 | the button signs in with provider `"auth0"` and callback URL `/dashboard`, swallowing failures |
| `SignInPage.RedirectIgnoresLoading` | app/auth/signin/page.tsx:11-15 | the redirect does not depend on the loading status; a loaded, signed-out visitor gets the form and no redirect |
| `Agreement.AdminVerdictAgrees` | lib/auth/auth-config.ts:83 | `"admin"` is among the session's roles (absent token roles defaulted to `["user"]`) iff it is among the middleware's roles (absent counted as empty, middleware.ts:47-48) |
| `Agreement.AdminPageAgreesWithGuard` | app/admin/page.tsx:12-30 | for a session made from token `t`, the admin page shows its panel iff the middleware lets `t` through to the admin path, and otherwise both send it to `/dashboard` |
| `Agreement.SignedOutPagesAgreeWithGuard` | app/dashboard/page.tsx:12-16 | without a session, once loaded, the admin and dashboard pages push the same target the middleware redirects to |
| `Agreement.SignInPageAgreesWithGuard` | app/auth/signin/page.tsx:11-15 | a signed-in visitor to an `/auth` page is sent to the same place by the page and by the middleware |
| `Agreement.AdminCardLeadsThrough` | app/dashboard/page.tsx:96-108 | when the dashboard shows the admin card, the middleware lets that token through to `/admin` |
| `Agreement.DefaultRoleReachesApi` | app/api/protected/user/route.ts:19-20 | a session made from a token without roles gets 200 from the API, thanks to the default role |
| `Agreement.AdminAreaImpliesApi` | app/api/protected/user/route.ts:19-25 | a token the middleware admits to an admin path yields a session the API accepts |
| `Agreement.TargetsAgree` | lib/auth/auth-config.ts:96 | the configured sign-in page is the middleware's sign-in target; the sign-in button's callback is `/dashboard` |
| `Agreement.RedirectTargets` | middleware.ts:37-49 | every redirect of the middleware and of the three pages goes to `/auth/signin` or `/dashboard` |

## Left out

- The `withAuth` wrapper and its `authorized` callback (middleware.ts:56-63): what
  next-auth does when it returns false happens inside the library, which is not part of
  this model; only the inner guard function is modelled.
- The OAuth2/OIDC exchange, JWT signing and verification, `getServerSession`,
  `useSession`, `signIn` and `signOut`: foreign library and network calls. Their results
  (token, session, status, whether a call threw) are inputs.
- `atob`, `decodeURIComponent`, `JSON.parse` and the per-character hex re-encoding inside
  `decodeToken`: foreign string and JSON routines, represented by the `parse` parameter.
- AuthUtils.Payload: `exp` is an integer; a fractional or non-numeric `exp` from JSON is
  not modelled.
- AuthConfig.Profile: the namespaced roles claim is modelled as an array of strings or
  absent; a truthy non-array value, which the callback would copy as is, is not modelled.
- `Date.now()` and the ISO timestamp of the API payload: parameters (`nowMs`,
  `timestamp`).
- `NextResponse` and `URL` construction and `router.push`: effects represented as
  returned values (a status and body, a pushed path).
- `console.error` logging: only `login` and `logout` (lib/auth/useAuth.ts:40, 55) model
  it, as a returned logged error; the logging in the API route's catch
  (app/api/protected/user/route.ts:39) and in `decodeToken`'s catch
  (lib/utils/auth.ts:47) is dropped, and only their results (500, None) are modelled.
- The matcher is modelled as "the base path, or the base path followed by `/`"; the
  path-to-regexp rules for empty or unusual segments are not.
- `getSession` (lib/utils/auth.ts:7-9) only calls `getServerSession`; `pages.error`
  names a page that no modelled code reads.
- All JSX markup and styling, the logout buttons' wiring and the admin page's
  dashboard button: presentation without decisions.
