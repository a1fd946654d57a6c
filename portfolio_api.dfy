/** The `/api/portfolio` collection route: a staff member's portfolio items. */
module PortfolioApi {
  import opened Wrappers
  import opened Strings
  import opened Tokens
  import opened PortfolioModel
  import opened Storage
  import opened Http

  predicate IsStaff(session: Option<Claims>) {
    session.Some? && session.value.role in {"admin", "designer", "worker"}
  }

  /** The `POST` body; a client-sent `user` is overwritten by the session's id. */
  datatype PortfolioBody = PortfolioBody(title: Option<string>, description: Option<string>, imageUrl: Option<string>,
                                         category: Option<string>, user: Option<string>)

  predicate HasRequiredFields(b: PortfolioBody) {
    Truthy(b.title) && Truthy(b.description) && Truthy(b.imageUrl) && Truthy(b.category)
  }

  /** `{...body, user: session.id}`. */
  function DraftOf(session: Claims, b: PortfolioBody): (d: PortfolioDraft)
    ensures d.user == Some(session.id)
  {
    PortfolioDraft(Some(session.id), b.title, b.description, b.imageUrl, b.category)
  }

  /** `POST /api/portfolio`: 403 outside the staff roles, 400 for a missing field, 500 when saving throws. */
  function CreateItemReply(session: Option<Claims>, b: PortfolioBody, id: string, now: int, storeUp: bool): (r: Response<PortfolioItem>)
    ensures !IsStaff(session) ==> r == Failure(403, "Forbidden")
    ensures IsStaff(session) && !HasRequiredFields(b) ==> r == Failure(400, "Missing required fields")
    ensures r.Success? <==> IsStaff(session) && HasRequiredFields(b) && storeUp && CreatePortfolioItem(DraftOf(session.value, b), id, now).Ok?
    ensures r.Success? ==> r.status == 201 && r.data == CreatePortfolioItem(DraftOf(session.value, b), id, now).value
    ensures r.Success? ==> r.data.user == session.value.id
    ensures r.Failure? && IsStaff(session) && HasRequiredFields(b) ==> r == Failure(500, "Internal Server Error")
  {
    if !IsStaff(session) then Failure(403, "Forbidden")
    else if !HasRequiredFields(b) then Failure(400, "Missing required fields")
    else
      match CreatePortfolioItem(DraftOf(session.value, b), id, now)
      case Err(_) => Failure(500, "Internal Server Error")
      case Ok(it) => if storeUp then Success(201, it) else Failure(500, "Internal Server Error")
  }

  /** The owner recorded is the session's, whatever `user` the client sent. */
  lemma OwnerFromSession(session: Claims, b: PortfolioBody, forged: string, id: string, now: int, storeUp: bool)
    ensures CreateItemReply(Some(session), b, id, now, storeUp) == CreateItemReply(Some(session), b.(user := Some(forged)), id, now, storeUp)
  {
  }

  function OwnedBy(session: Claims): PortfolioItem -> bool {
    (it: PortfolioItem) => session.role == "admin" || it.user == session.id
  }

  /** `GET /api/portfolio`: 403 without a session; an admin gets every item, anyone else their own. */
  function ListItems(session: Option<Claims>, store: seq<PortfolioItem>, storeUp: bool): (r: Response<seq<PortfolioItem>>)
    ensures session.None? ==> r == Failure(403, "Forbidden")
    ensures session.Some? && !storeUp ==> r == Failure(500, "Internal Server Error")
    ensures session.Some? && storeUp ==> r.Success? && r.status == 200
    ensures r.Success? && session.value.role == "admin" ==> r.data == store
    ensures r.Success? && session.value.role != "admin" ==>
      (forall i :: 0 <= i < |r.data| ==> r.data[i].user == session.value.id) &&
      (forall i :: 0 <= i < |store| && store[i].user == session.value.id ==> store[i] in r.data)
    ensures r.Success? && session.value.role != "admin" ==> r.data == Filter(store, OwnedBy(session.value))
    ensures r.Success? ==> forall i :: 0 <= i < |r.data| ==> r.data[i] in store
  {
    if session.None? then Failure(403, "Forbidden")
    else if !storeUp then Failure(500, "Internal Server Error")
    else if session.value.role == "admin" then Success(200, store)
    else Success(200, Filter(store, OwnedBy(session.value)))
  }

  method PostItem(items: Collection<PortfolioItem>, session: Option<Claims>, b: PortfolioBody, id: string, now: int, storeUp: bool)
    returns (r: Response<PortfolioItem>)
    modifies items
    ensures r == CreateItemReply(session, b, id, now, storeUp)
    ensures items.records == old(items.records) + (if r.Success? then [r.data] else [])
  {
    r := CreateItemReply(session, b, id, now, storeUp);
    if r.Success? {
      items.Insert(r.data);
    }
  }
}
