/** The `/api/users` listing and the `/api/users/by-role` lookup. */
module UsersApi {
  import opened Wrappers
  import opened Strings
  import opened Types
  import opened Tokens
  import opened UserModel
  import opened Storage
  import opened Http

  /** A user as `select("-password")` returns it: the record without its password. */
  datatype PublicUser = PublicUser(id: string, name: string, email: string, role: Role, createdAt: int, updatedAt: int)

  function WithoutPassword(u: UserRecord): (p: PublicUser)
    ensures p.id == u.id && p.name == u.name && p.email == u.email && p.role == u.role
    ensures p.createdAt == u.createdAt && p.updatedAt == u.updatedAt
  {
    PublicUser(u.id, u.name, u.email, u.role, u.createdAt, u.updatedAt)
  }

  function Publish(users: seq<UserRecord>): (r: seq<PublicUser>)
    ensures |r| == |users|
    ensures forall i :: 0 <= i < |users| ==> r[i] == WithoutPassword(users[i])
  {
    seq(|users|, i requires 0 <= i < |users| => WithoutPassword(users[i]))
  }

  /** The users text index covers `name` and `email`. */
  predicate TextHit(u: UserRecord, search: string, matches: (string, string) -> bool) {
    matches(search, u.name) || matches(search, u.email)
  }

  /** The listing filter: an exact role name when given, a text search when given. */
  predicate Wanted(role: Option<string>, search: Option<string>, u: UserRecord, matches: (string, string) -> bool) {
    (Truthy(role) ==> RoleName(u.role) == role.value) && (Truthy(search) ==> TextHit(u, search.value, matches))
  }

  function WantedBy(role: Option<string>, search: Option<string>, matches: (string, string) -> bool): UserRecord -> bool {
    u => Wanted(role, search, u, matches)
  }

  datatype UserPage = UserPage(users: seq<PublicUser>, totalPages: nat, currentPage: int)

  predicate IsAdminSession(session: Option<Claims>) {
    session.Some? && session.value.role == "admin"
  }

  /** `GET /api/users`: admins only; `store` is in the order the sort produces. */
  function ListUsers(session: Option<Claims>, page: int, limit: int, role: Option<string>, search: Option<string>,
                     store: seq<UserRecord>, storeUp: bool, matches: (string, string) -> bool): (r: Response<UserPage>)
    requires page >= 1 && limit >= 1
    ensures !IsAdminSession(session) ==> r == Failure(403, "Forbidden")
    ensures IsAdminSession(session) && !storeUp ==> r == Failure(500, "Internal Server Error")
    ensures IsAdminSession(session) && storeUp ==> r.Success? && r.status == 200 && r.data.currentPage == page
    ensures r.Success? ==>
      r.data.users == Publish(Window(Filter(store, WantedBy(role, search, matches)), (page - 1) * limit, limit))
    ensures r.Success? ==> r.data.totalPages == PageCount(|Filter(store, WantedBy(role, search, matches))|, limit)
    ensures r.Success? && Truthy(role) ==> forall i :: 0 <= i < |r.data.users| ==> RoleName(r.data.users[i].role) == role.value
  {
    if !IsAdminSession(session) then Failure(403, "Forbidden")
    else if !storeUp then Failure(500, "Internal Server Error")
    else
      var wanted := Filter(store, WantedBy(role, search, matches));
      var window := Window(wanted, (page - 1) * limit, limit);
      assert forall i :: 0 <= i < |window| ==> Wanted(role, search, window[i], matches) by {
        forall i | 0 <= i < |window| ensures Wanted(role, search, window[i], matches) {
          assert window[i] == wanted[(page - 1) * limit + i];
        }
      }
      Success(200, UserPage(Publish(window), PageCount(|wanted|, limit), page))
  }

  /** What `select("name email")` returns. */
  datatype Contact = Contact(id: string, name: string, email: string)

  function ContactOf(u: UserRecord): Contact {
    Contact(u.id, u.name, u.email)
  }

  function HasRoleName(role: string): UserRecord -> bool {
    (u: UserRecord) => RoleName(u.role) == role
  }

  predicate MayLookUpByRole(session: Option<Claims>) {
    session.Some? && session.value.role in {"admin", "designer"}
  }

  /** `GET /api/users/by-role`: admins and designers; the `role` parameter must name one of the four roles. */
  function UsersByRole(session: Option<Claims>, role: Option<string>, store: seq<UserRecord>, storeUp: bool): (r: Response<seq<Contact>>)
    ensures !MayLookUpByRole(session) ==> r == Failure(403, "Forbidden")
    ensures MayLookUpByRole(session) && (role.None? || ParseRole(role.value).None?) ==>
      r == Failure(400, "Valid role parameter is required")
    ensures r.Success? <==> MayLookUpByRole(session) && role.Some? && ParseRole(role.value).Some? && storeUp
    ensures r.Success? ==> r.status == 200 && |r.data| == |Filter(store, HasRoleName(role.value))|
    ensures r.Success? ==> forall i :: 0 <= i < |r.data| ==> r.data[i] == ContactOf(Filter(store, HasRoleName(role.value))[i])
    ensures r.Success? ==> forall i :: 0 <= i < |r.data| ==>
      exists j :: 0 <= j < |store| && RoleName(store[j].role) == role.value && r.data[i] == ContactOf(store[j])
  {
    if !MayLookUpByRole(session) then Failure(403, "Forbidden")
    else if role.None? || ParseRole(role.value).None? then Failure(400, "Valid role parameter is required")
    else if !storeUp then Failure(500, "Internal Server Error")
    else
      var found := Filter(store, HasRoleName(role.value));
      var contacts := seq(|found|, i requires 0 <= i < |found| => ContactOf(found[i]));
      assert forall i :: 0 <= i < |contacts| ==> exists j :: 0 <= j < |store| && RoleName(store[j].role) == role.value && contacts[i] == ContactOf(store[j]) by {
        forall i | 0 <= i < |contacts|
          ensures exists j :: 0 <= j < |store| && RoleName(store[j].role) == role.value && contacts[i] == ContactOf(store[j])
        {
          assert found[i] in store && HasRoleName(role.value)(found[i]);
          var j :| 0 <= j < |store| && store[j] == found[i];
        }
      }
      Success(200, contacts)
  }
}
