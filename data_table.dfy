/**
 * The dashboard's generic table: client or server pagination, the sort
 * toggle on column headers, and the per-row edit, delete and take
 * actions it offers.
 */
module DataTable {
  import opened Wrappers
  import opened Tokens
  import Storage

  /** Rows per page when the table slices the data itself. */
  const PageSize: nat := 10

  /** The three optional paging props a parent may pass (`setCurrentPage` only as present or absent). */
  datatype PagingProps = PagingProps(currentPage: Option<int>, totalPages: Option<int>, hasSetCurrentPage: bool)

  /** Server pagination is in force only when the parent passes all three props. */
  predicate IsServerPaginated(p: PagingProps) {
    p.currentPage.Some? && p.totalPages.Some? && p.hasSetCurrentPage
  }

  /** The page shown: the parent's in server mode, the table's own otherwise. */
  function CurrentPage(p: PagingProps, internalPage: int): (r: int)
    ensures IsServerPaginated(p) ==> r == p.currentPage.value
    ensures !IsServerPaginated(p) ==> r == internalPage
  {
    if IsServerPaginated(p) then p.currentPage.value else internalPage
  }

  /** The page count: the parent's in server mode, else enough pages of ten to hold every row. */
  function TotalPages(p: PagingProps, rows: nat): (r: int)
    ensures IsServerPaginated(p) ==> r == p.totalPages.value
    ensures !IsServerPaginated(p) ==> r >= 0 && (r == 0 <==> rows == 0)
    ensures !IsServerPaginated(p) && rows > 0 ==> (r - 1) * PageSize < rows <= r * PageSize
  {
    if IsServerPaginated(p) then p.totalPages.value else Storage.PageCount(rows, PageSize)
  }

  /**
   * The rows rendered: all of `data` in server mode (the parent already
   * fetched one page), otherwise at most ten rows starting at row
   * `(page - 1) * 10` of `data`.
   */
  function CurrentItems<T>(p: PagingProps, data: seq<T>, internalPage: int): (r: seq<T>)
    requires !IsServerPaginated(p) ==> internalPage >= 1
    ensures IsServerPaginated(p) ==> r == data
    ensures !IsServerPaginated(p) ==> |r| <= PageSize
    ensures !IsServerPaginated(p) ==> (internalPage - 1) * PageSize + |r| <= |data| || r == []
    ensures !IsServerPaginated(p) ==> forall i :: 0 <= i < |r| ==> r[i] == data[(internalPage - 1) * PageSize + i]
    ensures !IsServerPaginated(p) && (internalPage - 1) * PageSize < |data| ==>
      |r| == if internalPage * PageSize <= |data| then PageSize else |data| - (internalPage - 1) * PageSize
  {
    if IsServerPaginated(p) then data else Storage.Window(data, (internalPage - 1) * PageSize, PageSize)
  }

  /** In client mode every row is shown on some page between 1 and the page count. */
  lemma ClientPagesCoverData<T>(p: PagingProps, data: seq<T>, i: nat)
    requires !IsServerPaginated(p) && i < |data|
    ensures var page := i / PageSize + 1;
      1 <= page <= TotalPages(p, |data|) && CurrentItems(p, data, page)[i % PageSize] == data[i]
  {
    Storage.RecordOnItsPage(data, PageSize, i);
  }

  datatype Direction = Asc | Desc

  datatype SortConfig = SortConfig(key: string, direction: Direction)

  /**
   * A click on a sortable header: `None` when the table has no sort state
   * or no setter (nothing happens); otherwise the new order is on the
   * clicked key, descending only when that key was already ascending.
   */
  function HandleSort(config: Option<SortConfig>, hasSetter: bool, key: string): (r: Option<SortConfig>)
    ensures r.None? <==> config.None? || !hasSetter
    ensures r.Some? ==> r.value.key == key
    ensures r.Some? ==> (r.value.direction == Desc <==> config.value == SortConfig(key, Asc))
  {
    if !hasSetter || config.None? then None
    else if config.value.key == key && config.value.direction == Asc then Some(SortConfig(key, Desc))
    else Some(SortConfig(key, Asc))
  }

  /** Clicking one header over and over alternates ascending and descending, starting ascending. */
  lemma SortClicksAlternate(config: SortConfig, key: string)
    ensures var first := HandleSort(Some(config), true, key).value;
      var second := HandleSort(Some(first), true, key).value;
      var third := HandleSort(Some(second), true, key).value;
      (first.direction == Asc ==> second == SortConfig(key, Desc) && third == SortConfig(key, Asc)) &&
      (first.direction == Desc ==> second == SortConfig(key, Asc) && third == SortConfig(key, Desc))
  {
  }

  /**
   * What a row holds in its `user` field: nothing, a bare id string, or a
   * populated user document with its `_id`.
   */
  datatype UserRef = NoUser | BareId(id: string) | Populated(userId: string)

  /** JavaScript truthiness of the `user` field: absent and the empty id are falsy. */
  predicate HasUser(u: UserRef) {
    match u
    case NoUser => false
    case BareId(id) => id != ""
    case Populated(_) => true
  }

  /**
   * `user?._id === session?.id || user === session?.id`. Both sides are
   * `undefined` when there is no session and the field has no `_id`,
   * which counts as ownership.
   */
  function IsOwner(session: Option<Claims>, u: UserRef): (r: bool)
    ensures session.Some? ==> (r <==> u == BareId(session.value.id) || u == Populated(session.value.id))
    ensures session.None? ==> (r <==> !u.Populated?)
  {
    var sessionId := if session.Some? then Some(session.value.id) else None;
    var underscoreId := if u.Populated? then Some(u.userId) else None;
    underscoreId == sessionId || (u.BareId? && sessionId == Some(u.id))
  }

  function IsAdmin(session: Option<Claims>): bool {
    session.Some? && session.value.role == "admin"
  }

  /** "Edit" shows when an edit handler exists and the row passes `isEditable`, or there is no such test. */
  function CanEdit(hasOnEdit: bool, isEditable: Option<bool>): (r: bool)
    ensures r <==> hasOnEdit && isEditable != Some(false)
  {
    hasOnEdit && (if isEditable.Some? then isEditable.value else true)
  }

  /** "Delete" shows when a delete handler exists and the viewer is admin, the row's owner, or the row has no user. */
  function CanDelete(hasOnDelete: bool, session: Option<Claims>, u: UserRef): (r: bool)
    ensures !hasOnDelete ==> !r
    ensures hasOnDelete && IsAdmin(session) ==> r
    ensures hasOnDelete && !HasUser(u) ==> r
    ensures session.Some? && !IsAdmin(session) && HasUser(u) ==>
      (r <==> hasOnDelete && (u == BareId(session.value.id) || u == Populated(session.value.id)))
  {
    hasOnDelete && (IsAdmin(session) || IsOwner(session, u) || !HasUser(u))
  }

  /**
   * Without a session, a row whose user is a bare id string still offers
   * "Delete": both sides of the `_id` comparison are `undefined`.
   */
  lemma AnonymousViewerMayDeleteBareRows(hasOnDelete: bool, id: string)
    ensures CanDelete(hasOnDelete, None, BareId(id)) == hasOnDelete
    ensures !CanDelete(hasOnDelete, None, Populated(id))
  {
  }

  /** "Take" shows when a take handler exists, the viewer is a designer, and no designer is assigned. */
  function CanTake(hasOnTake: bool, session: Option<Claims>, designer: Option<string>): (r: bool)
    ensures r <==> hasOnTake && session.Some? && session.value.role == "designer" && designer.None?
  {
    hasOnTake && (session.Some? && session.value.role == "designer") && designer.None?
  }

  /** The pager row shows only when there is more than one page. */
  function ShowsControls(totalPages: int): bool {
    totalPages > 1
  }

  function PreviousDisabled(page: int): bool {
    page == 1
  }

  function NextDisabled(page: int, totalPages: int): bool {
    page >= totalPages
  }

  /** The controls never send the page below 1, and Next never goes past the last page. */
  lemma ControlsStayInRange(page: int, totalPages: int)
    requires page >= 1
    ensures ShowsControls(totalPages) && !PreviousDisabled(page) ==> page - 1 >= 1
    ensures ShowsControls(totalPages) && !NextDisabled(page, totalPages) ==> page + 1 <= totalPages
    ensures !ShowsControls(totalPages) ==> PreviousDisabled(page) || NextDisabled(page, totalPages)
  {
  }

  /**
   * The table's own page index (`internalCurrentPage`), moved by the
   * Previous and Next buttons; a click on a hidden or disabled button
   * changes nothing.
   */
  class Pager {
    var page: int

    constructor()
      ensures page == 1
    {
      page := 1;
    }

    predicate Valid()
      reads this
    {
      page >= 1
    }

    method Previous(totalPages: int)
      requires Valid()
      modifies this
      ensures Valid()
      ensures page == if ShowsControls(totalPages) && !PreviousDisabled(old(page)) then old(page) - 1 else old(page)
    {
      if ShowsControls(totalPages) && !PreviousDisabled(page) {
        page := page - 1;
      }
    }

    method Next(totalPages: int)
      requires Valid()
      modifies this
      ensures Valid()
      ensures page == if ShowsControls(totalPages) && !NextDisabled(old(page), totalPages) then old(page) + 1 else old(page)
      ensures old(page) <= totalPages ==> page <= totalPages
    {
      if ShowsControls(totalPages) && !NextDisabled(page, totalPages) {
        page := page + 1;
      }
    }

    /** The rows the table renders at the pager's page. */
    function Shown<T>(p: PagingProps, data: seq<T>): (r: seq<T>)
      requires Valid()
      reads this
      ensures !IsServerPaginated(p) ==> |r| <= PageSize
    {
      CurrentItems(p, data, page)
    }
  }
}
