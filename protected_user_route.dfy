/**
 * The protected API endpoint (app/api/protected/user/route.ts): maps the server-side
 * session lookup to 401, 403, 500 or 200 with the user's data.
 */
module ProtectedUserRoute {
  import opened Wrappers
  import opened Claims
  import AuthUtils

  /** How `getServerSession` ended: it threw, or it resolved to an optional session. */
  datatype SessionLookup = LookupThrew | Resolved(session: Option<SessionView>)

  /** The `user` object of the success payload. */
  datatype UserPayload = UserPayload(id: string, name: Option<string>, email: Option<string>, roles: Option<seq<string>>)

  datatype Body =
    | ErrorBody(error: string)
    | UserBody(message: string, user: UserPayload, timestamp: string)

  datatype Response = Response(status: int, body: Body)

  /** `session.user.roles || []` contains "user" or "admin". */
  function Permitted(user: UserView): (ok: bool)
    ensures user.roles.None? ==> !ok
    ensures user.roles.Some? ==> (ok <==> UserRole in user.roles.value || AdminRole in user.roles.value)
  {
    var userRoles := user.roles.GetOr([]);
    AuthUtils.IsUser(userRoles) || AuthUtils.IsAdmin(userRoles)
  }

  /** `GET`, with the ISO timestamp as the parameter `timestamp`. */
  function Get(lookup: SessionLookup, timestamp: string): (r: Response)
    ensures r.status == 500 <==> lookup.LookupThrew?
    ensures r.status == 401 <==> lookup == Resolved(None)
    ensures r.status == 403 <==> lookup.Resolved? && lookup.session.Some? && !Permitted(lookup.session.value.user)
    ensures r.status == 200 <==> lookup.Resolved? && lookup.session.Some? && Permitted(lookup.session.value.user)
    ensures r.status == 500 ==> r.body == ErrorBody("Internal server error")
    ensures r.status == 401 ==> r.body == ErrorBody("Unauthorized")
    ensures r.status == 403 ==> r.body == ErrorBody("Insufficient permissions")
    ensures r.status == 200 ==> r.body.UserBody? && r.body.message == "Protected user data" && r.body.timestamp == timestamp
    ensures r.status == 200 ==>
              var u := lookup.session.value.user;
              r.body.user == UserPayload(u.id, u.name, u.email, u.roles)
  {
    match lookup
    case LookupThrew => Response(500, ErrorBody("Internal server error"))
    case Resolved(session) =>
      if session.None? then
        Response(401, ErrorBody("Unauthorized"))
      else
        var user := session.value.user;
        var userRoles := user.roles.GetOr([]);
        if !AuthUtils.HasRole(userRoles, UserRole) && !AuthUtils.HasRole(userRoles, AdminRole) then
          Response(403, ErrorBody("Insufficient permissions"))
        else
          Response(200, UserBody("Protected user data", UserPayload(user.id, user.name, user.email, user.roles), timestamp))
  }

  /** A session without roles is refused; one with only unrecognised roles is too. */
  lemma MissingRolesForbidden(s: SessionView, timestamp: string)
    requires forall r :: r in s.user.roles.GetOr([]) ==> r != UserRole && r != AdminRole
    ensures Get(Resolved(Some(s)), timestamp).status == 403
  {
  }
}
