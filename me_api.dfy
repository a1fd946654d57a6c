/** `GET /api/auth/me`: the profile behind a bearer token. */
module MeApi {
  import opened Wrappers
  import opened Types
  import opened Tokens
  import opened UserModel
  import opened Storage
  import opened Http
  import Jwt
  import ApiAuth

  datatype Profile = Profile(id: string, name: string, email: string, role: Role)

  function HasId(id: string): UserRecord -> bool {
    (u: UserRecord) => u.id == id
  }

  /** The handler's reply; the token is the header's second space-separated field, as in `withAuth`. */
  function Me(header: Option<string>, decode: string -> Option<Token>, env: Option<string>, now: int,
              users: seq<UserRecord>, storeUp: bool): (r: Response<Profile>)
    ensures ApiAuth.HeaderToken(header).None? || ApiAuth.HeaderToken(header).value == "" ==> r == Failure(401, "Unauthorized")
    ensures (ApiAuth.HeaderToken(header).Some? && ApiAuth.HeaderToken(header).value != "" &&
             (Jwt.VerifyToken(ApiAuth.HeaderToken(header).value, decode, env, now).None? ||
              Jwt.VerifyToken(ApiAuth.HeaderToken(header).value, decode, env, now).value.TextPayload?)) ==>
      r == Failure(401, "Invalid token")
    ensures (ApiAuth.HeaderToken(header).Some? && ApiAuth.HeaderToken(header).value != "" &&
             Jwt.VerifyToken(ApiAuth.HeaderToken(header).value, decode, env, now).Some? &&
             Jwt.VerifyToken(ApiAuth.HeaderToken(header).value, decode, env, now).value.ClaimsPayload? && !storeUp) ==>
      r == Failure(500, "Something went wrong")
    ensures r.Success? <==>
      ApiAuth.HeaderToken(header).Some? && ApiAuth.HeaderToken(header).value != "" &&
      Jwt.VerifyToken(ApiAuth.HeaderToken(header).value, decode, env, now).Some? &&
      Jwt.VerifyToken(ApiAuth.HeaderToken(header).value, decode, env, now).value.ClaimsPayload? && storeUp &&
      FindFirst(users, HasId(Jwt.VerifyToken(ApiAuth.HeaderToken(header).value, decode, env, now).value.claims.id)).Some?
    ensures r.Success? ==> r.status == 200
    ensures r.Success? ==>
      var c := Jwt.VerifyToken(ApiAuth.HeaderToken(header).value, decode, env, now).value.claims;
      exists i :: 0 <= i < |users| && users[i].id == c.id && r.data == Profile(users[i].id, users[i].name, users[i].email, users[i].role)
  {
    var token := ApiAuth.HeaderToken(header);
    if token.None? || token.value == "" then Failure(401, "Unauthorized")
    else
      match Jwt.VerifyToken(token.value, decode, env, now)
      case None => Failure(401, "Invalid token")
      case Some(TextPayload(_)) => Failure(401, "Invalid token")
      case Some(ClaimsPayload(c)) =>
        if !storeUp then Failure(500, "Something went wrong")
        else
          match FindFirst(users, HasId(c.id))
          case None => Failure(404, "User not found")
          case Some(u) =>
            var k := FindIndex(users, HasId(c.id)).value;
            assert users[k] == u;
            Success(200, Profile(u.id, u.name, u.email, u.role))
  }

  /** A verified token whose user is gone gets 404; the profile never comes from the token alone. */
  lemma DeletedUserNotFound(header: Option<string>, decode: string -> Option<Token>, env: Option<string>, now: int,
                            users: seq<UserRecord>)
    requires ApiAuth.HeaderToken(header).Some? && ApiAuth.HeaderToken(header).value != ""
    requires Jwt.VerifyToken(ApiAuth.HeaderToken(header).value, decode, env, now).Some?
    requires Jwt.VerifyToken(ApiAuth.HeaderToken(header).value, decode, env, now).value.ClaimsPayload?
    requires forall i :: 0 <= i < |users| ==> users[i].id != Jwt.VerifyToken(ApiAuth.HeaderToken(header).value, decode, env, now).value.claims.id
    ensures Me(header, decode, env, now, users, true) == Failure(404, "User not found")
  {
  }
}
