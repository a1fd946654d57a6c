/** `POST /api/auth/register`: create an account from a complete form. */
module RegisterApi {
  import opened Wrappers
  import opened Strings
  import opened Types
  import opened UserModel
  import opened Storage
  import opened Http
  import LoginApi

  /** The document handed to `new User(...)`: the plain password, which the pre-save hook hashes. */
  function DraftOf(name: string, email: string, password: string, role: string): UserDraft {
    UserDraft(Some(name), Some(email), Some(Plain(password)), Some(role))
  }

  /**
   * The handler's reply; a 201 carries the record that is stored (the
   * reply itself says only "User created successfully").
   */
  function Register(name: Option<string>, email: Option<string>, password: Option<string>, role: Option<string>,
                    users: seq<UserRecord>, id: string, now: int, storeUp: bool): (r: Response<UserRecord>)
    ensures !(Truthy(name) && Truthy(email) && Truthy(password) && Truthy(role)) ==> r == Failure(400, "All fields are required")
    ensures Truthy(name) && Truthy(email) && Truthy(password) && Truthy(role) && !storeUp ==> r == Failure(500, "An internal server error occurred")
    ensures Truthy(name) && Truthy(email) && Truthy(password) && Truthy(role) && storeUp && LoginApi.FindByEmail(users, email).Some? ==>
      r == Failure(409, "User with this email already exists")
    ensures r.Success? <==>
      Truthy(name) && Truthy(email) && Truthy(password) && Truthy(role) && storeUp &&
      LoginApi.FindByEmail(users, email).None? && CreateUser(DraftOf(name.value, email.value, password.value, role.value), id, now).Ok?
    ensures r.Success? ==> r.status == 201 && r.data == CreateUser(DraftOf(name.value, email.value, password.value, role.value), id, now).value
  {
    if !(Truthy(name) && Truthy(email) && Truthy(password) && Truthy(role)) then Failure(400, "All fields are required")
    else if !storeUp then Failure(500, "An internal server error occurred")
    else if LoginApi.FindByEmail(users, email).Some? then Failure(409, "User with this email already exists")
    else
      match CreateUser(DraftOf(name.value, email.value, password.value, role.value), id, now)
      case Err(_) => Failure(500, "An internal server error occurred")
      case Ok(u) => Success(201, u)
  }

  /** A role outside the four names, a malformed email or a password under six characters is a 500, not a 400. */
  lemma SchemaRejectionsAreServerErrors(name: string, email: string, password: string, role: string,
                                        users: seq<UserRecord>, id: string, now: int)
    requires name != "" && email != "" && password != "" && role != ""
    requires LoginApi.FindByEmail(users, Some(email)).None?
    requires ParseRole(role).None? || !EmailPattern(NormalizeEmail(email)) || |password| < 6
    ensures Register(Some(name), Some(email), Some(password), Some(role), users, id, now, true) == Failure(500, "An internal server error occurred")
  {
    var p := Prepare(DraftOf(name, email, password, role));
    EmailShapedIff(NormalizeEmail(email));
    UserErrorsEmptyIff(p);
  }

  /** Whoever registers here can sign in afterwards with the same email and password. */
  lemma RegisterThenLogin(name: string, email: string, password: string, role: string,
                          users: seq<UserRecord>, id: string, now: int)
    requires Register(Some(name), Some(email), Some(password), Some(role), users, id, now, true).Success?
    ensures var u := Register(Some(name), Some(email), Some(password), Some(role), users, id, now, true).data;
      LoginApi.Login(Some(email), Some(password), users + [u], true) == Success(200, LoginApi.ClaimsOf(u))
  {
    var u := Register(Some(name), Some(email), Some(password), Some(role), users, id, now, true).data;
    LoginApi.LoginAfterAppend(Some(email), password, users, u);
  }

  /** The handler with its collection: only a 201 stores a user. */
  method RegisterRoute(accounts: Collection<UserRecord>, name: Option<string>, email: Option<string>, password: Option<string>,
                       role: Option<string>, id: string, now: int, storeUp: bool)
    returns (r: Response<UserRecord>)
    modifies accounts
    ensures r == Register(name, email, password, role, old(accounts.records), id, now, storeUp)
    ensures accounts.records == old(accounts.records) + (if r.Success? then [r.data] else [])
  {
    r := Register(name, email, password, role, accounts.records, id, now, storeUp);
    if r.Success? {
      accounts.Insert(r.data);
    }
  }
}
