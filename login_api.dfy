/** `POST /api/auth/login`: check the credentials and open a cookie session. */
module LoginApi {
  import opened Wrappers
  import opened Strings
  import opened Types
  import opened Tokens
  import opened UserModel
  import opened Storage
  import opened Http
  import SessionAuth

  /**
   * `findOne({ email })`: the `trim` and `lowercase` setters of `email`
   * apply to the filter value as well; an absent value is filtered as
   * null, which no stored user (all have an email) matches.
   */
  function HasEmail(email: string): UserRecord -> bool {
    (u: UserRecord) => u.email == NormalizeEmail(email)
  }

  function FindByEmail(users: seq<UserRecord>, email: Option<string>): (r: Option<UserRecord>)
    ensures email.None? ==> r.None?
    ensures email.Some? ==> r == FindFirst(users, HasEmail(email.value))
  {
    if email.None? then None else FindFirst(users, HasEmail(email.value))
  }

  /** The claims the session is opened with. */
  function ClaimsOf(u: UserRecord): Claims {
    Claims(u.id, u.name, u.email, RoleName(u.role))
  }

  /** The handler's reply; a 200 carries the claims given to `setSession` (the reply itself says only "Login successful"). */
  function Login(email: Option<string>, password: Option<string>, users: seq<UserRecord>, storeUp: bool): (r: Response<Claims>)
    ensures !Truthy(email) || !Truthy(password) ==> r == Failure(400, "Email and password are required")
    ensures Truthy(email) && Truthy(password) && !storeUp ==> r == Failure(500, "An internal server error occurred")
    ensures r.Success? <==>
      Truthy(email) && Truthy(password) && storeUp && FindByEmail(users, email).Some? &&
      ComparePassword(password.value, FindByEmail(users, email).value.password)
    ensures r.Success? ==> r.status == 200 && r.data == ClaimsOf(FindByEmail(users, email).value)
  {
    if !Truthy(email) || !Truthy(password) then Failure(400, "Email and password are required")
    else if !storeUp then Failure(500, "An internal server error occurred")
    else
      match FindByEmail(users, email)
      case None => Failure(401, "Invalid email or password")
      case Some(u) =>
        if !ComparePassword(password.value, u.password) then Failure(401, "Invalid email or password")
        else Success(200, ClaimsOf(u))
  }

  /** Every stored email was normalised on save, so logging in with it as typed finds a user with that email. */
  lemma StoredEmailIsFound(users: seq<UserRecord>, i: int, typed: string)
    requires 0 <= i < |users| && users[i].email == NormalizeEmail(typed)
    ensures FindByEmail(users, Some(users[i].email)).Some?
    ensures FindByEmail(users, Some(users[i].email)).value.email == users[i].email
  {
    NormalizeEmailIdempotent(typed);
    assert HasEmail(users[i].email)(users[i]);
  }

  /** After appending a user with a new email, a login with that email is decided by that user's password alone. */
  lemma LoginAfterAppend(email: Option<string>, password: string, users: seq<UserRecord>, u: UserRecord)
    requires Truthy(email) && password != ""
    requires FindByEmail(users, email).None? && HasEmail(email.value)(u)
    ensures Login(email, Some(password), users + [u], true) ==
      if ComparePassword(password, u.password) then Success(200, ClaimsOf(u)) else Failure(401, "Invalid email or password")
  {
    FindAppended(users, u, HasEmail(email.value));
  }

  /** An unknown email and a wrong password get the identical reply, so the reply does not reveal which accounts exist. */
  lemma FailuresIndistinguishable(email: string, password: string, users: seq<UserRecord>)
    requires email != "" && password != ""
    requires FindByEmail(users, Some(email)).None? || !ComparePassword(password, FindByEmail(users, Some(email)).value.password)
    ensures Login(Some(email), Some(password), users, true) == Failure(401, "Invalid email or password")
  {
  }

  /** A signed-in session is always the first stored user with that (normalised) email. */
  lemma SessionIsStoredUser(email: string, password: string, users: seq<UserRecord>)
    requires Login(Some(email), Some(password), users, true).Success?
    ensures var c := Login(Some(email), Some(password), users, true).data;
      exists i :: 0 <= i < |users| && users[i].email == NormalizeEmail(email) && c == ClaimsOf(users[i])
  {
    var u := FindByEmail(users, Some(email)).value;
    var k := FindIndex(users, HasEmail(email)).value;
    assert users[k] == u;
  }

  /** The handler with the response cookies: only a successful login writes the session cookie. */
  method LoginRoute(cookies: SessionAuth.CookieStore, email: Option<string>, password: Option<string>, users: seq<UserRecord>,
                    storeUp: bool, env: Option<string>, now: int, production: bool, encode: Token -> string)
    returns (r: Response<Claims>)
    modifies cookies
    ensures r == Login(email, password, users, storeUp)
    ensures r.Success? ==> cookies.jar == old(cookies.jar)[SessionAuth.CookieName := SessionAuth.SessionCookie(r.data, env, now, production, encode)]
    ensures r.Failure? ==> cookies.jar == old(cookies.jar)
  {
    r := Login(email, password, users, storeUp);
    if r.Success? {
      cookies.SetSession(r.data, env, now, production, encode);
    }
  }
}
