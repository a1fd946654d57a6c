/**
 * The `User` schema: the setters and validators applied on save, the
 * pre-save hook that hashes the password, and password comparison.
 */
module UserModel {
  import opened Wrappers
  import opened Strings
  import opened Types
  import opened Schema

  /**
   * A password as the store sees it: plain text, or the bcrypt hash of
   * another password. Hashes are symbolic: comparison recognises exactly
   * the hash of the candidate.
   */
  datatype Password = Plain(text: string) | Hashed(of: Password)

  /** A bcrypt hash string is 60 characters long. */
  const HashLength: nat := 60

  function PasswordLength(p: Password): nat {
    match p
    case Plain(t) => |t|
    case Hashed(_) => HashLength
  }

  /** `comparePassword`: `bcrypt.compare(candidate, stored)`. */
  predicate ComparePassword(candidate: string, stored: Password): (r: bool)
    ensures r ==> stored.Hashed? && stored.of.Plain?
    ensures stored.Hashed? && stored.of.Plain? ==> (r <==> candidate == stored.of.text)
  {
    stored == Hashed(Plain(candidate))
  }

  /** A stored user. */
  datatype UserRecord = UserRecord(id: string, name: string, email: string, password: Password, role: Role,
                                   createdAt: int, updatedAt: int)

  /** The fields given to `new User({...})`; `None` is a field left undefined. */
  datatype UserDraft = UserDraft(name: Option<string>, email: Option<string>, password: Option<Password>, role: Option<string>)

  /** The `trim` and `lowercase` setters of `email`. */
  function NormalizeEmail(s: string): (r: string)
    ensures |r| <= |s| && |r| == |Trim(s)|
    ensures forall i :: 0 <= i < |r| ==> r[i] == ToLowerChar(Trim(s)[i])
    ensures forall i :: 0 <= i < |r| ==> !IsAsciiUpper(r[i])
    ensures IsTrimmed(r)
  {
    var t := Trim(s);
    LowerKeepsTrimmed(t);
    ToLower(t)
  }

  /** Normalising a normalised address changes nothing, so a stored email is its own lookup key. */
  lemma NormalizeEmailIdempotent(s: string)
    ensures NormalizeEmail(NormalizeEmail(s)) == NormalizeEmail(s)
  {
    var r := NormalizeEmail(s);
    assert Trim(r) == r;
    assert ToLower(r) == r by {
      forall i | 0 <= i < |r| ensures ToLower(r)[i] == r[i] { }
    }
  }

  /** `/^\S+@\S+\.\S+$/`: no whitespace; a non-empty part, "@", a non-empty part, ".", a non-empty part. */
  ghost predicate EmailPattern(s: string) {
    NoSpace(s) && exists i, j :: 1 <= i && i + 2 <= j && j + 2 <= |s| && s[i] == '@' && s[j] == '.'
  }

  /** The same test, computed: the first "@" after position 0, then a "." leaving a character on each side. */
  predicate EmailShaped(s: string) {
    NoSpace(s) && |s| >= 5 &&
    match IndexOf(s[1..], '@')
    case None => false
    case Some(k) => k + 3 <= |s| - 1 && '.' in s[k + 3..|s| - 1]
  }

  lemma EmailShapedIff(s: string)
    ensures EmailShaped(s) <==> EmailPattern(s)
  {
    if EmailShaped(s) {
      var k := IndexOf(s[1..], '@').value;
      var t := s[k + 3..|s| - 1];
      var m :| 0 <= m < |t| && t[m] == '.';
      assert s[k + 1] == '@' && s[k + 3 + m] == '.';
    }
    if EmailPattern(s) {
      var i, j :| 1 <= i && i + 2 <= j && j + 2 <= |s| && s[i] == '@' && s[j] == '.';
      assert s[1..][i - 1] == '@';
      var k := IndexOf(s[1..], '@').value;
      assert k <= i - 1;
      assert s[k + 3..|s| - 1][j - k - 3] == '.';
    }
  }

  /** The schema paths a validation error can name. */
  datatype UserPath = NamePath | EmailPath | PasswordPath | RolePath

  const AllUserPaths: set<UserPath> := {NamePath, EmailPath, PasswordPath, RolePath}

  /** A document after construction: the setters and the `role` default applied. */
  datatype Prepared = Prepared(name: Option<string>, email: Option<string>, password: Option<Password>, role: string)

  function Prepare(d: UserDraft): (p: Prepared)
    ensures p.name == TrimmedField(d.name) && p.password == d.password
    ensures p.email.Some? <==> d.email.Some?
    ensures p.email.Some? ==> p.email.value == NormalizeEmail(d.email.value)
    ensures p.role == d.role.GetOr("user")
  {
    Prepared(TrimmedField(d.name), if d.email.None? then None else Some(NormalizeEmail(d.email.value)),
             d.password, d.role.GetOr("user"))
  }

  /** Whether the validator of path `q` fails on the prepared document. */
  predicate Fails(p: Prepared, q: UserPath) {
    match q
    case NamePath => !RequiredString(p.name)
    case EmailPath => !RequiredString(p.email) || !EmailShaped(p.email.value)
    case PasswordPath => p.password.None? || PasswordLength(p.password.value) < 6
    case RolePath => ParseRole(p.role).None?
  }

  function UserErrors(p: Prepared): (e: set<UserPath>)
    ensures forall q :: q in e <==> Fails(p, q)
  {
    set q | q in AllUserPaths && Fails(p, q)
  }

  lemma UserErrorsEmptyIff(p: Prepared)
    ensures UserErrors(p) == {} <==>
      RequiredString(p.name) && RequiredString(p.email) && EmailShaped(p.email.value) &&
      p.password.Some? && PasswordLength(p.password.value) >= 6 && ParseRole(p.role).Some?
  {
    var e := UserErrors(p);
    if e == {} {
      assert !Fails(p, NamePath) && !Fails(p, EmailPath) && !Fails(p, PasswordPath) && !Fails(p, RolePath);
    } else {
      var q :| q in e;
      assert Fails(p, q);
    }
  }

  /** The pre-save hook: a modified password is replaced by its hash, an unmodified one kept. */
  function HookedPassword(p: Password, modified: bool): (r: Password)
    ensures modified ==> r == Hashed(p)
    ensures !modified ==> r == p
  {
    if modified then Hashed(p) else p
  }

  /**
   * Saving a new user: the failing paths, or the record with the
   * normalised fields and the password hashed once by the hook (every
   * field of a new document counts as modified).
   */
  function CreateUser(d: UserDraft, id: string, now: int): (r: Result<UserRecord, set<UserPath>>)
    ensures r.Err? <==> UserErrors(Prepare(d)) != {}
    ensures r.Err? ==> r.error == UserErrors(Prepare(d))
    ensures r.Ok? ==>
      var u := r.value;
      u.id == id && Some(u.name) == TrimmedField(d.name) && u.name != "" &&
      d.email.Some? && u.email == NormalizeEmail(d.email.value) && EmailPattern(u.email) &&
      d.password.Some? && u.password == Hashed(d.password.value) &&
      RoleName(u.role) == d.role.GetOr("user") && u.createdAt == now && u.updatedAt == now
  {
    var p := Prepare(d);
    UserErrorsEmptyIff(p);
    if UserErrors(p) != {} then Err(UserErrors(p))
    else
      EmailShapedIff(p.email.value);
      Ok(UserRecord(id, p.name.value, p.email.value, HookedPassword(p.password.value, true),
                    ParseRole(p.role).value, now, now))
  }

  /** A user registered with a plain password can sign in with exactly that password. */
  lemma SingleHashLogin(d: UserDraft, id: string, now: int, text: string, candidate: string)
    requires d.password == Some(Plain(text)) && CreateUser(d, id, now).Ok?
    ensures ComparePassword(candidate, CreateUser(d, id, now).value.password) <==> candidate == text
  {
  }

  /** A user document under construction and saving; the fields the setters and the hook change. */
  class UserDocument {
    var name: Option<string>
    var email: Option<string>
    var password: Option<Password>
    var role: string
    var passwordModified: bool

    /** `new User(draft)`: setters and the `role` default run on assignment; every given field is modified. */
    constructor(d: UserDraft)
      ensures Prepared(name, email, password, role) == Prepare(d)
      ensures passwordModified == d.password.Some?
    {
      var p := Prepare(d);
      name := p.name;
      email := p.email;
      password := p.password;
      role := p.role;
      passwordModified := d.password.Some?;
    }

    /** The `pre("save")` hook; it runs only after validation passed, so a password is present. */
    method PreSave()
      requires password.Some?
      modifies this
      ensures password == Some(HookedPassword(old(password.value), old(passwordModified)))
      ensures name == old(name) && email == old(email) && role == old(role) && passwordModified == old(passwordModified)
    {
      if !passwordModified {
        return;
      }
      password := Some(Hashed(password.value));
    }
  }

  /** `new User(draft).save()`: construct, validate, run the hook; the same record `CreateUser` describes. */
  method SaveNewUser(d: UserDraft, id: string, now: int) returns (r: Result<UserRecord, set<UserPath>>)
    ensures r == CreateUser(d, id, now)
  {
    var doc := new UserDocument(d);
    var errors := UserErrors(Prepared(doc.name, doc.email, doc.password, doc.role));
    if errors != {} {
      return Err(errors);
    }
    UserErrorsEmptyIff(Prepare(d));
    doc.PreSave();
    r := Ok(UserRecord(id, doc.name.value, doc.email.value, doc.password.value, ParseRole(doc.role).value, now, now));
  }
}
