/**
 * `POST /api/register`, the older registration route. It hashes the
 * password itself before the pre-save hook hashes it again.
 */
module LegacyRegisterApi {
  import opened Wrappers
  import opened Types
  import opened UserModel
  import opened Storage
  import opened Http
  import LoginApi

  /** The document handed to `new User(...)`: the already hashed password, the role defaulting to "user". */
  function DraftAsWritten(name: Option<string>, email: Option<string>, password: string, role: Option<string>): UserDraft {
    UserDraft(name, email, Some(Hashed(Plain(password))), Some(role.GetOr("user")))
  }

  /**
   * The handler as written. `bcrypt.hash` of an absent password throws (a
   * 500); no field is checked before the lookup. A 201 carries the stored
   * record; the reply itself shows only its id, name, email and role.
   */
  function RegisterAsWritten(name: Option<string>, email: Option<string>, password: Option<string>, role: Option<string>,
                             users: seq<UserRecord>, id: string, now: int, storeUp: bool): (r: Response<UserRecord>)
    ensures storeUp && LoginApi.FindByEmail(users, email).Some? ==> r == Failure(400, "User already exists")
    ensures r.Success? <==>
      storeUp && LoginApi.FindByEmail(users, email).None? && password.Some? &&
      CreateUser(DraftAsWritten(name, email, password.value, role), id, now).Ok?
    ensures r.Success? ==> r.status == 201 && r.data == CreateUser(DraftAsWritten(name, email, password.value, role), id, now).value
    ensures r.Failure? && r.status != 400 ==> r == Failure(500, "Registration failed")
  {
    if !storeUp then Failure(500, "Registration failed")
    else if LoginApi.FindByEmail(users, email).Some? then Failure(400, "User already exists")
    else if password.None? then Failure(500, "Registration failed")
    else
      match CreateUser(DraftAsWritten(name, email, password.value, role), id, now)
      case Err(_) => Failure(500, "Registration failed")
      case Ok(u) => Success(201, u)
  }

  /** The stored password is a hash of a hash. */
  lemma StoredHashIsDoubled(name: Option<string>, email: Option<string>, password: string, role: Option<string>,
                            users: seq<UserRecord>, id: string, now: int)
    requires RegisterAsWritten(name, email, Some(password), role, users, id, now, true).Success?
    ensures RegisterAsWritten(name, email, Some(password), role, users, id, now, true).data.password == Hashed(Hashed(Plain(password)))
  {
  }

  /** Registration followed by login with the same credentials always fails. */
  lemma RegisteredUserCannotLogIn(name: Option<string>, email: Option<string>, password: string, role: Option<string>,
                                  users: seq<UserRecord>, id: string, now: int)
    requires RegisterAsWritten(name, email, Some(password), role, users, id, now, true).Success?
    ensures var u := RegisterAsWritten(name, email, Some(password), role, users, id, now, true).data;
      LoginApi.Login(email, Some(password), users + [u], true).Failure?
    ensures password != "" ==>
      var u := RegisterAsWritten(name, email, Some(password), role, users, id, now, true).data;
      LoginApi.Login(email, Some(password), users + [u], true) == Failure(401, "Invalid email or password")
  {
    var u := RegisterAsWritten(name, email, Some(password), role, users, id, now, true).data;
    if email.Some? && email.value != "" && password != "" {
      LoginApi.LoginAfterAppend(email, password, users, u);
    }
  }

  /** `minlength: 6` is checked against the 60-character hash, so a password of any length is accepted. */
  lemma MinLengthNeverApplies(name: Option<string>, email: Option<string>, password: string, role: Option<string>)
    ensures PasswordPath !in UserErrors(Prepare(DraftAsWritten(name, email, password, role)))
  {
    HashPassesLength(Prepare(DraftAsWritten(name, email, password, role)));
  }

  /** A hashed password always meets the length rule. */
  lemma HashPassesLength(p: Prepared)
    requires p.password.Some? && p.password.value.Hashed?
    ensures PasswordPath !in UserErrors(p)
  {
    assert !Fails(p, PasswordPath);
  }

  /** The intended handler: the plain password goes to the document and the pre-save hook hashes it once. */
  function DraftFixed(name: Option<string>, email: Option<string>, password: string, role: Option<string>): UserDraft {
    UserDraft(name, email, Some(Plain(password)), Some(role.GetOr("user")))
  }

  function RegisterFixed(name: Option<string>, email: Option<string>, password: Option<string>, role: Option<string>,
                         users: seq<UserRecord>, id: string, now: int, storeUp: bool): (r: Response<UserRecord>)
    ensures storeUp && LoginApi.FindByEmail(users, email).Some? ==> r == Failure(400, "User already exists")
    ensures r.Success? <==>
      storeUp && LoginApi.FindByEmail(users, email).None? && password.Some? &&
      CreateUser(DraftFixed(name, email, password.value, role), id, now).Ok?
    ensures r.Success? ==> r.status == 201 && r.data == CreateUser(DraftFixed(name, email, password.value, role), id, now).value
    ensures r.Success? ==> r.data.password == Hashed(Plain(password.value))
    ensures r.Success? ==> |password.value| >= 6
  {
    if !storeUp then Failure(500, "Registration failed")
    else if LoginApi.FindByEmail(users, email).Some? then Failure(400, "User already exists")
    else if password.None? then Failure(500, "Registration failed")
    else
      UserErrorsEmptyIff(Prepare(DraftFixed(name, email, password.value, role)));
      match CreateUser(DraftFixed(name, email, password.value, role), id, now)
      case Err(_) => Failure(500, "Registration failed")
      case Ok(u) => Success(201, u)
  }

  /** With the fix, registration followed by login with the same credentials opens that user's session. */
  lemma FixedRegisterThenLogin(name: Option<string>, email: Option<string>, password: string, role: Option<string>,
                               users: seq<UserRecord>, id: string, now: int)
    requires RegisterFixed(name, email, Some(password), role, users, id, now, true).Success?
    ensures var u := RegisterFixed(name, email, Some(password), role, users, id, now, true).data;
      LoginApi.Login(email, Some(password), users + [u], true) == Success(200, LoginApi.ClaimsOf(u))
  {
    var u := RegisterFixed(name, email, Some(password), role, users, id, now, true).data;
    assert email.Some? && u.email == NormalizeEmail(email.value) && EmailPattern(u.email);
    LoginApi.LoginAfterAppend(email, password, users, u);
  }
}
