/** The `jsonwebtoken` helpers: 7-day tokens, null-on-failure verification and bearer-header parsing. */
module Jwt {
  import opened Wrappers
  import opened Strings
  import opened Tokens

  /** `JWT_EXPIRES_IN = "7d"`, in seconds. */
  const ExpiresIn: nat := 7 * 24 * 60 * 60

  /** `generateToken`: the library stamps `iat` with the signing time and `exp` seven days later. */
  function GenerateToken(claims: Claims, env: Option<string>, now: int): (t: Token)
    ensures t.payload == ClaimsPayload(claims) && t.iat == Some(now) && t.exp == Some(now + 604800)
    ensures t.key == ConfiguredSecret(env)
  {
    Token(ClaimsPayload(claims), Some(now), Some(now + ExpiresIn), ConfiguredSecret(env))
  }

  /** `verifyToken`: the payload, or `None` where `jwt.verify` throws (malformed, wrongly signed, expired). */
  function VerifyToken(token: string, decode: string -> Option<Token>, env: Option<string>, now: int): (r: Option<Payload>)
    ensures r.Some? <==> decode(token).Some? && decode(token).value.key == ConfiguredSecret(env) && Unexpired(decode(token).value, now)
    ensures r.Some? ==> r.value == decode(token).value.payload
  {
    match decode(token)
    case None => None
    case Some(t) => CheckToken(t, ConfiguredSecret(env), now)
  }

  /** A generated token verifies for exactly seven days. */
  lemma GeneratedTokenLifetime(claims: Claims, env: Option<string>, issued: int, now: int)
    ensures CheckToken(GenerateToken(claims, env, issued), ConfiguredSecret(env), now)
      == if now < issued + 604800 then Some(ClaimsPayload(claims)) else None
  {
  }

  const BearerPrefix: string := "Bearer "

  /**
   * `getTokenFromHeader`: `None` unless the header starts with "Bearer "
   * (case and the space included); then the second space-separated field:
   * the text after the prefix up to the next space, possibly empty.
   */
  function GetTokenFromHeader(header: Option<string>): (r: Option<string>)
    ensures r.Some? <==> header.Some? && StartsWith(header.value, "Bearer ")
    ensures r.Some? ==> r.value == UpTo(header.value[7..], ' ')
  {
    if header.None? || header.value == "" || !StartsWith(header.value, BearerPrefix) then None
    else
      var h := header.value;
      assert h[6] == ' ' && ' ' !in h[..6] by { assert h[..7] == BearerPrefix; assert h[..6] == "Bearer"; }
      SplitSecond(h, ' ', 6);
      Some(Split(h, ' ')[1])
  }

  /** A returned token never contains a space and is exactly what follows the prefix up to the next space. */
  lemma BearerTokenShape(h: string)
    requires StartsWith(h, "Bearer ")
    ensures GetTokenFromHeader(Some(h)).Some?
    ensures ' ' !in GetTokenFromHeader(Some(h)).value
    ensures h[7..] == GetTokenFromHeader(Some(h)).value + h[7 + |GetTokenFromHeader(Some(h)).value|..]
    ensures 7 + |GetTokenFromHeader(Some(h)).value| == |h| || h[7 + |GetTokenFromHeader(Some(h)).value|] == ' '
  {
    var t := GetTokenFromHeader(Some(h)).value;
    var rest := h[7..];
    assert t <= rest;
    assert rest == t + rest[|t|..];
  }

  /** Concrete headers: a lone token, a token followed by more text, and a bare prefix. */
  lemma BearerExamples()
    ensures GetTokenFromHeader(Some("Bearer abc")) == Some("abc")
    ensures GetTokenFromHeader(Some("Bearer a b")) == Some("a")
    ensures GetTokenFromHeader(Some("Bearer ")) == Some("")
    ensures GetTokenFromHeader(Some("bearer abc")) == None
    ensures GetTokenFromHeader(None) == None && GetTokenFromHeader(Some("")) == None
  {
    assert StartsWith("Bearer abc", "Bearer ") && "Bearer abc"[7..] == "abc";
    assert IndexOf("abc", ' ') == None;
    assert StartsWith("Bearer a b", "Bearer ") && "Bearer a b"[7..] == "a b";
    assert "a b"[..1] == "a";
    assert IndexOf("a b", ' ') == Some(1);
    assert StartsWith("Bearer ", "Bearer ") && "Bearer "[7..] == "";
    assert !StartsWith("bearer abc", "Bearer ") by { assert "bearer abc"[0] != "Bearer "[0]; }
  }
}
