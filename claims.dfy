/**
 * The record shapes that the access gate reads and writes: the JWT carried by every
 * request and the session handed to pages and API routes (the next-auth type
 * augmentation in types/next-auth.d.ts, plus the standard claims next-auth itself
 * puts into a JWT). An absent or `null` field is `None`.
 */
module Claims {
  import opened Wrappers

  /** The two role names the application recognises; any other string is a role that grants nothing. */
  const AdminRole := "admin"
  const UserRole := "user"

  /** The JWT: next-auth's standard claims (sub, name, email, picture) and the application's own. */
  datatype JwtClaims = JwtClaims(
    sub: Option<string>,
    name: Option<string>,
    email: Option<string>,
    picture: Option<string>,
    accessToken: Option<string>,
    refreshToken: Option<string>,
    expiresAt: Option<int>,
    roles: Option<seq<string>>)

  /** `session.user`. Its roles are declared required but may be absent before the session callback ran. */
  datatype UserView = UserView(
    id: string,
    name: Option<string>,
    email: Option<string>,
    image: Option<string>,
    roles: Option<seq<string>>)

  datatype SessionView = SessionView(accessToken: Option<string>, user: UserView)
}
