/**
 * The next-auth configuration (lib/auth/auth-config.ts): the `jwt` callback, which
 * copies provider account and profile fields into the token object in place, and the
 * `session` callback, which copies token fields into the session object in place.
 * Each callback is a method over the mutable object, specified by a function of the
 * object's previous value (`JwtUpdate`, `SessionUpdate`) about which the properties
 * are proved.
 */
module AuthConfig {
  import opened Wrappers
  import opened Claims

  /** `pages.signIn`. */
  const SignInPage := "/auth/signin"

  /** The provider account of a fresh sign-in (`access_token`, `refresh_token`, `expires_at`). */
  datatype Account = Account(accessToken: Option<string>, refreshToken: Option<string>, expiresAt: Option<int>)

  /**
   * The provider profile. `roles` is the namespaced roles claim: None when it is
   * absent or falsy; an array, even an empty one, is truthy.
   */
  datatype Profile = Profile(
    sub: Option<string>,
    email: Option<string>,
    name: Option<string>,
    picture: Option<string>,
    roles: Option<seq<string>>)

  // ---------------------------------------------------------------------------
  // The jwt callback

  /** The token after the `jwt` callback, as a function of the token before. */
  function JwtUpdate(t: JwtClaims, account: Option<Account>, profile: Option<Profile>): JwtClaims {
    var afterAccount :=
      if account.Some? then
        t.(accessToken := account.value.accessToken,
           refreshToken := account.value.refreshToken,
           expiresAt := account.value.expiresAt)
      else t;
    if profile.Some? then
      var p := profile.value;
      var afterProfile := afterAccount.(sub := p.sub, email := p.email, name := p.name, picture := p.picture);
      if p.roles.Some? then afterProfile.(roles := p.roles) else afterProfile
    else afterAccount
  }

  /** With an account, the three provider-token fields come from it; without, they are kept. */
  lemma JwtAccountFields(t: JwtClaims, account: Option<Account>, profile: Option<Profile>)
    ensures account.Some? ==> JwtUpdate(t, account, profile).accessToken == account.value.accessToken
    ensures account.Some? ==> JwtUpdate(t, account, profile).refreshToken == account.value.refreshToken
    ensures account.Some? ==> JwtUpdate(t, account, profile).expiresAt == account.value.expiresAt
    ensures account.None? ==> JwtUpdate(t, account, profile).accessToken == t.accessToken
    ensures account.None? ==> JwtUpdate(t, account, profile).refreshToken == t.refreshToken
    ensures account.None? ==> JwtUpdate(t, account, profile).expiresAt == t.expiresAt
  {
  }

  /** With a profile, the four identity claims come from it; without, they are kept. */
  lemma JwtProfileFields(t: JwtClaims, account: Option<Account>, profile: Option<Profile>)
    ensures var r := JwtUpdate(t, account, profile);
      profile.Some? ==> (r.sub, r.email, r.name, r.picture) ==
                        (profile.value.sub, profile.value.email, profile.value.name, profile.value.picture)
    ensures var r := JwtUpdate(t, account, profile);
      profile.None? ==> (r.sub, r.email, r.name, r.picture) == (t.sub, t.email, t.name, t.picture)
  {
  }

  /** Roles change only when a profile carries a truthy roles claim; otherwise the old roles stay. */
  lemma JwtRoles(t: JwtClaims, account: Option<Account>, profile: Option<Profile>)
    ensures JwtUpdate(t, account, profile).roles ==
              if profile.Some? && profile.value.roles.Some? then profile.value.roles else t.roles
  {
  }

  /** Neither account nor profile: the token comes back as it was. Re-running the callback changes nothing more. */
  lemma JwtStable(t: JwtClaims, account: Option<Account>, profile: Option<Profile>)
    ensures JwtUpdate(t, None, None) == t
    ensures JwtUpdate(JwtUpdate(t, account, profile), account, profile) == JwtUpdate(t, account, profile)
  {
  }

  /** The mutable JWT object the callback receives. */
  class Token {
    var sub: Option<string>
    var name: Option<string>
    var email: Option<string>
    var picture: Option<string>
    var accessToken: Option<string>
    var refreshToken: Option<string>
    var expiresAt: Option<int>
    var roles: Option<seq<string>>

    constructor (claims: JwtClaims)
      ensures View() == claims
    {
      sub, name, email, picture := claims.sub, claims.name, claims.email, claims.picture;
      accessToken, refreshToken, expiresAt := claims.accessToken, claims.refreshToken, claims.expiresAt;
      roles := claims.roles;
    }

    /** The token's current claims. */
    function View(): JwtClaims
      reads this
    {
      JwtClaims(sub, name, email, picture, accessToken, refreshToken, expiresAt, roles)
    }
  }

  /** The `jwt` callback: updates `token` in place and returns the same object. */
  method JwtCallback(token: Token, account: Option<Account>, profile: Option<Profile>) returns (r: Token)
    modifies token
    ensures r == token
    ensures token.View() == JwtUpdate(old(token.View()), account, profile)
  {
    if account.Some? {
      token.accessToken := account.value.accessToken;
      token.refreshToken := account.value.refreshToken;
      token.expiresAt := account.value.expiresAt;
    }
    if profile.Some? {
      var p := profile.value;
      token.sub := p.sub;
      token.email := p.email;
      token.name := p.name;
      token.picture := p.picture;
      if p.roles.Some? {
        token.roles := p.roles;
      }
    }
    r := token;
  }

  // ---------------------------------------------------------------------------
  // The session callback

  /** `token.sub || ''`. */
  function UserId(sub: Option<string>): (id: string)
    ensures sub.Some? ==> id == sub.value
    ensures sub.None? ==> id == ""
  {
    if sub.Some? && sub.value != "" then sub.value else ""
  }

  /** `token.roles || ['user']`: any roles array, the empty one included, is kept. */
  function SessionRoles(roles: Option<seq<string>>): (r: seq<string>)
    ensures roles.Some? ==> r == roles.value
    ensures roles.None? ==> r == ["user"]
    ensures AdminRole in r <==> roles.Some? && AdminRole in roles.value
  {
    roles.GetOr([UserRole])
  }

  /** The session after the `session` callback, as a function of the session before and the token. */
  function SessionUpdate(s: SessionView, t: JwtClaims): SessionView {
    s.(accessToken := t.accessToken,
       user := s.user.(id := UserId(t.sub), roles := Some(SessionRoles(t.roles))))
  }

  /** The session's id and access token come from the token; name, email and image are left as given. */
  lemma SessionFields(s: SessionView, t: JwtClaims)
    ensures var r := SessionUpdate(s, t);
      && r.accessToken == t.accessToken
      && r.user.id == (if t.sub.Some? then t.sub.value else "")
      && r.user.name == s.user.name && r.user.email == s.user.email && r.user.image == s.user.image
  {
  }

  /** After the callback the session always has roles: the token's when defined, else just "user". */
  lemma SessionRolesDefault(s: SessionView, t: JwtClaims)
    ensures SessionUpdate(s, t).user.roles.Some?
    ensures t.roles.Some? ==> SessionUpdate(s, t).user.roles == t.roles
    ensures t.roles.None? ==> SessionUpdate(s, t).user.roles == Some([UserRole])
    ensures t.roles == Some([]) ==> SessionUpdate(s, t).user.roles == Some([])
  {
  }

  /** The result depends only on the token and the session's own name, email and image. */
  lemma SessionStable(s: SessionView, s': SessionView, t: JwtClaims)
    requires s.user.name == s'.user.name && s.user.email == s'.user.email && s.user.image == s'.user.image
    ensures SessionUpdate(s, t) == SessionUpdate(s', t)
    ensures SessionUpdate(SessionUpdate(s, t), t) == SessionUpdate(s, t)
  {
  }

  /** Roles seen by the session after a sign-in: the profile's claim, else the token's old roles, else "user". */
  lemma SignInRolesChain(s: SessionView, t: JwtClaims, account: Option<Account>, p: Profile)
    ensures SessionUpdate(s, JwtUpdate(t, account, Some(p))).user.roles ==
              Some(if p.roles.Some? then p.roles.value else SessionRoles(t.roles))
  {
  }

  /** `session.user`, a mutable object of its own. */
  class SessionUser {
    var id: string
    var name: Option<string>
    var email: Option<string>
    var image: Option<string>
    var roles: Option<seq<string>>

    constructor (v: UserView)
      ensures View() == v
    {
      id, name, email, image, roles := v.id, v.name, v.email, v.image, v.roles;
    }

    function View(): UserView
      reads this
    {
      UserView(id, name, email, image, roles)
    }
  }

  /** The mutable session object the callback receives. */
  class Session {
    var accessToken: Option<string>
    var user: SessionUser

    constructor (v: SessionView)
      ensures View() == v && fresh(user)
    {
      accessToken := v.accessToken;
      user := new SessionUser(v.user);
    }

    function View(): SessionView
      reads this, user
    {
      SessionView(accessToken, user.View())
    }
  }

  /** The `session` callback: updates `session` and `session.user` in place and returns the same session. */
  method SessionCallback(session: Session, token: Token) returns (r: Session)
    modifies session, session.user
    ensures r == session && session.user == old(session.user)
    ensures session.View() == SessionUpdate(old(session.View()), token.View())
  {
    session.accessToken := token.accessToken;
    session.user.id := UserId(token.sub);
    session.user.roles := Some(SessionRoles(token.roles));
    r := session;
  }
}
