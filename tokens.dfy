/**
 * The signed session token, modelled abstractly: a payload, optional
 * issued-at and expiry times (seconds), and the key it was signed with. A
 * signature verifies exactly when that key is the verifier's secret; the
 * compact string form is produced and parsed by the JWT library, which the
 * model receives as functions (`decode` returns `None` for a malformed
 * string).
 */
module Tokens {
  import opened Wrappers

  /** The identity a session carries: `{id, name, email, role}`. */
  datatype Claims = Claims(id: string, name: string, email: string, role: string)

  /** A token's payload: a claims object, or (for the `jsonwebtoken` library) a bare string. */
  datatype Payload = ClaimsPayload(claims: Claims) | TextPayload(text: string)

  datatype Token = Token(payload: Payload, iat: Option<int>, exp: Option<int>, key: string)

  /** The fallback used when `JWT_SECRET` is unset or empty. */
  const DefaultSecret: string := "your-secret-key"

  /** `process.env.JWT_SECRET || "your-secret-key"`: the one secret both signing and verification use. */
  function ConfiguredSecret(env: Option<string>): (r: string)
    ensures r != ""
    ensures env.Some? && env.value != "" ==> r == env.value
    ensures env.None? || env.value == "" ==> r == DefaultSecret
  {
    if env.Some? && env.value != "" then env.value else DefaultSecret
  }

  /** Both libraries reject a token once `now >= exp`; a token without `exp` never expires. */
  predicate Unexpired(t: Token, now: int) {
    t.exp.None? || now < t.exp.value
  }

  /** Signature and expiry check; `None` where the library would throw. */
  function CheckToken(t: Token, secret: string, now: int): (r: Option<Payload>)
    ensures r.Some? <==> t.key == secret && Unexpired(t, now)
    ensures r.Some? ==> r.value == t.payload
  {
    if t.key == secret && Unexpired(t, now) then Some(t.payload) else None
  }

  /** A token expiring `lifetime` seconds after `now` is accepted until then and never after. */
  lemma FreshTokenWindow(t: Token, secret: string, issued: int, lifetime: nat, now: int)
    requires t.key == secret && t.exp == Some(issued + lifetime)
    ensures CheckToken(t, secret, now) == if now < issued + lifetime then Some(t.payload) else None
  {
  }
}
