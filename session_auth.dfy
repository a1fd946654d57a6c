/**
 * The cookie session helpers of `lib/auth.ts`, built on the `jose`
 * library: 24-hour tokens in an http-only "token" cookie.
 */
module SessionAuth {
  import opened Wrappers
  import opened Tokens

  /** `setExpirationTime("24h")` and the cookie's `maxAge`, both in seconds. */
  const SessionLifetime: nat := 60 * 60 * 24

  const CookieName: string := "token"

  /** `signJWT`: the claims signed with the configured secret, no `iat`, expiring 24 hours after `now`. */
  function SignJWT(claims: Claims, env: Option<string>, now: int): (t: Token)
    ensures t.payload == ClaimsPayload(claims) && t.iat == None && t.exp == Some(now + 86400)
    ensures t.key == ConfiguredSecret(env)
  {
    Token(ClaimsPayload(claims), None, Some(now + SessionLifetime), ConfiguredSecret(env))
  }

  /**
   * `verifyJWT`: the claims, or `None` where `jwtVerify` throws. `jose`
   * also refuses a payload that is not a JSON object.
   */
  function VerifyJWT(token: string, decode: string -> Option<Token>, env: Option<string>, now: int): (r: Option<Claims>)
    ensures r.Some? <==>
      decode(token).Some? && decode(token).value.key == ConfiguredSecret(env) &&
      Unexpired(decode(token).value, now) && decode(token).value.payload.ClaimsPayload?
    ensures r.Some? ==> decode(token).value.payload == ClaimsPayload(r.value)
  {
    match decode(token)
    case None => None
    case Some(t) =>
      match CheckToken(t, ConfiguredSecret(env), now)
      case Some(ClaimsPayload(c)) => Some(c)
      case _ => None
  }

  /** `getSession`: a missing or empty "token" cookie is no session; otherwise the verified claims. */
  function GetSession(cookies: map<string, string>, decode: string -> Option<Token>, env: Option<string>, now: int): (r: Option<Claims>)
    ensures CookieName !in cookies || cookies[CookieName] == "" ==> r == None
    ensures CookieName in cookies && cookies[CookieName] != "" ==> r == VerifyJWT(cookies[CookieName], decode, env, now)
  {
    if CookieName !in cookies || cookies[CookieName] == "" then None
    else VerifyJWT(cookies[CookieName], decode, env, now)
  }

  /** A response cookie with the attributes `setSession` gives it. */
  datatype Cookie = Cookie(value: string, httpOnly: bool, secure: bool, sameSite: string, maxAge: Option<int>)

  /** The "token" cookie `setSession` writes; `secure` only when `NODE_ENV` is "production". */
  function SessionCookie(claims: Claims, env: Option<string>, now: int, production: bool, encode: Token -> string): (c: Cookie)
    ensures c.value == encode(SignJWT(claims, env, now))
    ensures c.httpOnly && c.secure == production && c.sameSite == "lax"
    ensures c.maxAge == Some(86400)
  {
    Cookie(encode(SignJWT(claims, env, now)), true, production, "lax", Some(SessionLifetime))
  }

  /** The cookie and the token inside it expire together. */
  lemma CookieMatchesTokenLifetime(claims: Claims, env: Option<string>, now: int, production: bool, encode: Token -> string)
    ensures SessionCookie(claims, env, now, production, encode).maxAge.value == SignJWT(claims, env, now).exp.value - now
  {
  }

  /** The values a later request would send back for a cookie jar. */
  function Values(jar: map<string, Cookie>): (m: map<string, string>)
    ensures m.Keys == jar.Keys
    ensures forall k :: k in jar ==> m[k] == jar[k].value
  {
    map k | k in jar :: jar[k].value
  }

  /**
   * What `setSession` followed by `getSession` returns: the signed claims
   * while the token is fresh, nothing afterwards, provided the library's
   * string form of a token parses back to that token.
   */
  lemma SessionRoundTrip(jar: map<string, Cookie>, claims: Claims, env: Option<string>, now: int, later: int,
                         production: bool, encode: Token -> string, decode: string -> Option<Token>)
    requires decode(encode(SignJWT(claims, env, now))) == Some(SignJWT(claims, env, now))
    requires encode(SignJWT(claims, env, now)) != ""
    ensures GetSession(Values(jar[CookieName := SessionCookie(claims, env, now, production, encode)]), decode, env, later)
      == if later < now + 86400 then Some(claims) else None
  {
    var m := Values(jar[CookieName := SessionCookie(claims, env, now, production, encode)]);
    assert m[CookieName] == encode(SignJWT(claims, env, now));
  }

  /** After `clearSession` there is no session, whatever the jar held. */
  lemma ClearedJarHasNoSession(jar: map<string, Cookie>, decode: string -> Option<Token>, env: Option<string>, now: int)
    ensures GetSession(Values(jar - {CookieName}), decode, env, now) == None
  {
    assert CookieName !in Values(jar - {CookieName});
  }

  /** The response cookies a route handler writes through `cookies()`. */
  class CookieStore {
    var jar: map<string, Cookie>

    constructor(initial: map<string, Cookie>)
      ensures jar == initial
    {
      jar := initial;
    }

    /** `getSession` reading this store. */
    function Session(decode: string -> Option<Token>, env: Option<string>, now: int): Option<Claims>
      reads this
    {
      GetSession(Values(jar), decode, env, now)
    }

    /** `setSession`: sign the claims and store them as the "token" cookie; other cookies are unchanged. */
    method SetSession(claims: Claims, env: Option<string>, now: int, production: bool, encode: Token -> string)
      modifies this
      ensures jar == old(jar)[CookieName := SessionCookie(claims, env, now, production, encode)]
    {
      var token := SignJWT(claims, env, now);
      jar := jar[CookieName := Cookie(encode(token), true, production, "lax", Some(SessionLifetime))];
    }

    /** `clearSession`: drop the "token" cookie; other cookies are unchanged. */
    method ClearSession()
      modifies this
      ensures jar == old(jar) - {CookieName}
      ensures forall decode: string -> Option<Token>, env: Option<string>, now: int :: Session(decode, env, now) == None
    {
      jar := jar - {CookieName};
      forall decode: string -> Option<Token>, env: Option<string>, now: int
        ensures Session(decode, env, now) == None
      {
        ClearedJarHasNoSession(old(jar), decode, env, now);
      }
    }
  }

  /** What `requireAuth` yields: a redirect to "/login" or the verified claims. */
  datatype Gate = RedirectTo(path: string) | Authenticated(claims: Claims)

  /** `requireAuth`: redirect to "/login" for a missing, empty or unverifiable cookie. */
  function RequireAuth(cookies: map<string, string>, decode: string -> Option<Token>, env: Option<string>, now: int): (g: Gate)
    ensures g.RedirectTo? ==> g.path == "/login"
    ensures g.Authenticated? <==> GetSession(cookies, decode, env, now).Some?
    ensures g.Authenticated? ==> g.claims == GetSession(cookies, decode, env, now).value
  {
    if CookieName !in cookies || cookies[CookieName] == "" then RedirectTo("/login")
    else
      match VerifyJWT(cookies[CookieName], decode, env, now)
      case None => RedirectTo("/login")
      case Some(c) => Authenticated(c)
  }
}
