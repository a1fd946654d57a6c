/** The `createPortfolioItem` server action. No page calls it: the admin portfolio form posts to `/api/portfolio` instead. */
module PortfolioActions {
  import opened Wrappers
  import opened Tokens
  import opened PortfolioModel
  import Schema

  /** The action's argument: the four form fields. */
  datatype ItemData = ItemData(title: string, description: string, category: string, imageUrl: string)

  /** `{ success, error? }`. */
  datatype ActionResult = ActionResult(success: bool, error: Option<string>)

  predicate IsAdminSession(session: Option<Claims>) {
    session.Some? && session.value.role == "admin"
  }

  /** `new PortfolioItem(data)` as written: no `user` is given. */
  function DraftAsWritten(data: ItemData): (d: PortfolioDraft)
    ensures d.user.None?
  {
    PortfolioDraft(None, Some(data.title), Some(data.description), Some(data.imageUrl), Some(data.category))
  }

  /** The action as written; a failing save is caught and reported. */
  function CreateItemAsWritten(data: ItemData, session: Option<Claims>, id: string, now: int, storeUp: bool): (r: ActionResult)
    ensures !IsAdminSession(session) ==> r == ActionResult(false, Some("Unauthorized"))
    ensures r.success <==> IsAdminSession(session) && storeUp && CreatePortfolioItem(DraftAsWritten(data), id, now).Ok?
  {
    if !IsAdminSession(session) then ActionResult(false, Some("Unauthorized"))
    else if !storeUp || CreatePortfolioItem(DraftAsWritten(data), id, now).Err? then
      ActionResult(false, Some("Failed to create portfolio item."))
    else ActionResult(true, None)
  }

  /** As written the action never succeeds: the schema requires `user`, so an admin's save always fails. */
  lemma AsWrittenAlwaysFails(data: ItemData, session: Option<Claims>, id: string, now: int, storeUp: bool)
    ensures IsAdminSession(session) ==>
      CreateItemAsWritten(data, session, id, now, storeUp) == ActionResult(false, Some("Failed to create portfolio item."))
    ensures !CreateItemAsWritten(data, session, id, now, storeUp).success
  {
  }

  /** The intended action stamps the admin's id as the owner, as the API route does. */
  function DraftFixed(data: ItemData, session: Claims): (d: PortfolioDraft)
    ensures d.user == Some(session.id)
  {
    PortfolioDraft(Some(session.id), Some(data.title), Some(data.description), Some(data.imageUrl), Some(data.category))
  }

  function CreateItemFixed(data: ItemData, session: Option<Claims>, id: string, now: int, storeUp: bool): (r: ActionResult)
    ensures !IsAdminSession(session) ==> r == ActionResult(false, Some("Unauthorized"))
    ensures r.success <==> IsAdminSession(session) && storeUp && CreatePortfolioItem(DraftFixed(data, session.value), id, now).Ok?
  {
    if !IsAdminSession(session) then ActionResult(false, Some("Unauthorized"))
    else if !storeUp || CreatePortfolioItem(DraftFixed(data, session.value), id, now).Err? then
      ActionResult(false, Some("Failed to create portfolio item."))
    else ActionResult(true, None)
  }

  /** With the fix, an admin with complete data succeeds and the stored item is theirs. */
  lemma FixedSucceedsForAdmins(data: ItemData, session: Claims, id: string, now: int)
    requires session.role == "admin" && session.id != ""
    requires Schema.RequiredString(Schema.TrimmedField(Some(data.title))) && data.description != "" && data.imageUrl != ""
    requires Schema.RequiredString(Schema.TrimmedField(Some(data.category)))
    ensures CreateItemFixed(data, Some(session), id, now, true) == ActionResult(true, None)
    ensures CreatePortfolioItem(DraftFixed(data, session), id, now).Ok? && CreatePortfolioItem(DraftFixed(data, session), id, now).value.user == session.id
  {
    PortfolioErrorsEmptyIff(DraftFixed(data, session));
  }
}
