/**
 * The bearer-token guard of API routes (`middleware/auth.ts`), built on
 * the `jsonwebtoken` helpers.
 */
module ApiAuth {
  import opened Wrappers
  import opened Strings
  import opened Types
  import opened Tokens
  import Jwt

  /** `hasRole`: the claims' role name is one of the allowed roles. */
  function HasRole(claims: Claims, allowed: seq<Role>): (r: bool)
    ensures r <==> ParseRole(claims.role).Some? && ParseRole(claims.role).value in allowed
  {
    IncludesRoleNameIff(allowed, claims.role);
    IncludesRoleName(allowed, claims.role)
  }

  /**
   * `authorization?.split(" ")[1]`: the second space-separated field of
   * the header, whatever the first field says; `None` for no header or a
   * header without a space.
   */
  function HeaderToken(header: Option<string>): (r: Option<string>)
    ensures header.None? || ' ' !in header.value ==> r == None
    ensures header.Some? && ' ' in header.value ==>
      r == Some(UpTo(header.value[IndexOf(header.value, ' ').value + 1..], ' '))
  {
    if header.None? then None
    else
      match IndexOf(header.value, ' ')
      case None => None
      case Some(k) =>
        SplitSecond(header.value, ' ', k);
        Some(Split(header.value, ' ')[1])
  }

  /** The outcome of `withAuth`: the decoded claims, or a JSON error response. */
  datatype AuthResult = Granted(claims: Claims) | Denied(status: nat, message: string)

  /** `withAuth`: 401 without a token, 401 for a token that does not verify or is a bare string, 403 for a role outside `allowed`. */
  function WithAuth(header: Option<string>, allowed: seq<Role>, decode: string -> Option<Token>, env: Option<string>, now: int): (r: AuthResult)
    ensures HeaderToken(header).None? || HeaderToken(header).value == "" ==> r == Denied(401, "Authentication required")
    ensures HeaderToken(header).Some? && HeaderToken(header).value != "" ==>
      match Jwt.VerifyToken(HeaderToken(header).value, decode, env, now)
      case None => r == Denied(401, "Invalid token")
      case Some(TextPayload(_)) => r == Denied(401, "Invalid token")
      case Some(ClaimsPayload(c)) => r == if HasRole(c, allowed) then Granted(c) else Denied(403, "Insufficient permissions")
  {
    var tokenStr := HeaderToken(header);
    if tokenStr.None? || tokenStr.value == "" then Denied(401, "Authentication required")
    else
      match Jwt.VerifyToken(tokenStr.value, decode, env, now)
      case None => Denied(401, "Invalid token")
      case Some(TextPayload(_)) => Denied(401, "Invalid token")
      case Some(ClaimsPayload(c)) =>
        if !HasRole(c, allowed) then Denied(403, "Insufficient permissions") else Granted(c)
  }

  /** Access is granted only to a correctly signed, unexpired, claims-carrying token whose role is allowed. */
  lemma GrantedMeansVerified(header: Option<string>, allowed: seq<Role>, decode: string -> Option<Token>, env: Option<string>, now: int)
    ensures WithAuth(header, allowed, decode, env, now).Granted? <==>
      HeaderToken(header).Some? && HeaderToken(header).value != "" &&
      decode(HeaderToken(header).value).Some? &&
      decode(HeaderToken(header).value).value.key == ConfiguredSecret(env) &&
      Unexpired(decode(HeaderToken(header).value).value, now) &&
      decode(HeaderToken(header).value).value.payload.ClaimsPayload? &&
      HasRole(decode(HeaderToken(header).value).value.payload.claims, allowed)
  {
  }

  /** With the default allow-list every one of the four roles passes. */
  function WithAuthDefault(header: Option<string>, decode: string -> Option<Token>, env: Option<string>, now: int): (r: AuthResult)
    ensures r == WithAuth(header, AllRoles, decode, env, now)
    ensures r.Denied? ==> r.status in {401} || (r.status == 403 && r.message == "Insufficient permissions")
  {
    WithAuth(header, AllRoles, decode, env, now)
  }

  /** `withRoleCheck`: returns exactly what `withAuth` returns for the same allow-list. */
  function WithRoleCheck(header: Option<string>, allowed: seq<Role>, decode: string -> Option<Token>, env: Option<string>, now: int): (r: AuthResult)
    ensures r == WithAuth(header, allowed, decode, env, now)
  {
    WithAuth(header, allowed, decode, env, now)
  }

  /** With the default list, a verified token is refused only when its role is not one of the four names. */
  lemma DefaultListRefusesOnlyUnknownRoles(c: Claims)
    ensures HasRole(c, AllRoles) <==> c.role in {"user", "designer", "worker", "admin"}
  {
  }

  /** The header's first space decides the token: the text after it, up to the next space. */
  lemma HeaderTokenAt(h: string, k: nat)
    requires k < |h| && h[k] == ' ' && ' ' !in h[..k]
    ensures HeaderToken(Some(h)) == Some(UpTo(h[k + 1..], ' '))
  {
  }

  /** A header "<scheme> <token>" with a space-free scheme and token yields the token, whatever the scheme (so "Basic xyz" yields "xyz"). */
  lemma SchemeIgnored(scheme: string, token: string)
    requires ' ' !in scheme && ' ' !in token
    ensures HeaderToken(Some(scheme + " " + token)) == Some(token)
  {
    var h := scheme + " " + token;
    assert h[..|scheme|] == scheme && h[|scheme| + 1..] == token;
    HeaderTokenAt(h, |scheme|);
    assert IndexOf(token, ' ').None?;
  }
}
