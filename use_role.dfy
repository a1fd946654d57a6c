/** The `useRole` hook's predicates, with the current session passed in. */
module UseRole {
  import opened Wrappers
  import opened Types
  import opened Tokens
  import RoleCheck

  /** `hasRole`: false without a session, otherwise membership of the session's role name. */
  function HasRole(session: Option<Claims>, allowed: seq<Role>): (r: bool)
    ensures r <==> session.Some? && ParseRole(session.value.role).Some? && ParseRole(session.value.role).value in allowed
  {
    if session.None? then false
    else
      IncludesRoleNameIff(allowed, session.value.role);
      IncludesRoleName(allowed, session.value.role)
  }

  function IsAdmin(session: Option<Claims>): (r: bool)
    ensures r <==> session.Some? && session.value.role == "admin"
  {
    HasRole(session, [Admin])
  }

  function IsDesigner(session: Option<Claims>): (r: bool)
    ensures r <==> session.Some? && session.value.role in {"designer", "admin"}
  {
    HasRole(session, [Designer, Admin])
  }

  function IsWorker(session: Option<Claims>): (r: bool)
    ensures r <==> session.Some? && session.value.role in {"worker", "admin"}
  {
    HasRole(session, [Worker, Admin])
  }

  /** `isUser`: any of the four roles. */
  function IsUser(session: Option<Claims>): (r: bool)
    ensures r <==> session.Some? && session.value.role in {"user", "designer", "worker", "admin"}
  {
    HasRole(session, AllRoles)
  }

  /** The session seen as the `User` record `checkRole` takes. */
  function AsUser(session: Option<Claims>): Option<AppUser> {
    match session
    case None => None
    case Some(c) => Some(AppUser(c.id, c.name, c.email, c.role))
  }

  /** The hook and `checkRole` agree on every session and every allow-list, so do the derived predicates. */
  lemma AgreesWithRoleCheck(session: Option<Claims>, allowed: seq<Role>)
    ensures HasRole(session, allowed) == RoleCheck.CheckRole(AsUser(session), allowed)
    ensures IsAdmin(session) == RoleCheck.IsAdmin(AsUser(session))
    ensures IsDesigner(session) == RoleCheck.IsDesigner(AsUser(session))
    ensures IsWorker(session) == RoleCheck.IsWorker(AsUser(session))
  {
  }
}
