/** `checkRole` and the three role predicates built on it. */
module RoleCheck {
  import opened Wrappers
  import opened Types

  /** `checkRole`: false for no user or an empty role, otherwise membership of the role name. */
  function CheckRole(user: Option<AppUser>, allowed: seq<Role>): (r: bool)
    ensures user.None? || user.value.role == "" ==> !r
    ensures r <==> user.Some? && ParseRole(user.value.role).Some? && ParseRole(user.value.role).value in allowed
    ensures allowed == [] ==> !r
  {
    if user.None? || user.value.role == "" then false
    else
      IncludesRoleNameIff(allowed, user.value.role);
      IncludesRoleName(allowed, user.value.role)
  }

  function IsAdmin(user: Option<AppUser>): (r: bool)
    ensures r <==> user.Some? && user.value.role == "admin"
  {
    CheckRole(user, [Admin])
  }

  function IsDesigner(user: Option<AppUser>): (r: bool)
    ensures r <==> user.Some? && user.value.role in {"designer", "admin"}
  {
    CheckRole(user, [Designer, Admin])
  }

  function IsWorker(user: Option<AppUser>): (r: bool)
    ensures r <==> user.Some? && user.value.role in {"worker", "admin"}
  {
    CheckRole(user, [Worker, Admin])
  }

  /** An admin passes all three predicates; a plain user passes none. */
  lemma AdminAllPlainUserNone(u: AppUser)
    ensures u.role == "admin" ==> IsAdmin(Some(u)) && IsDesigner(Some(u)) && IsWorker(Some(u))
    ensures u.role == "user" ==> !IsAdmin(Some(u)) && !IsDesigner(Some(u)) && !IsWorker(Some(u))
  {
  }
}
