/**
 * The dashboard's order table: which rows a signed-in user may edit, who
 * may create or take orders, and how the status filter reaches the
 * listing request.
 */
module OrdersTable {
  import opened Wrappers
  import opened Tokens
  import opened Types
  import opened Http
  import OrderModel
  import OrdersApi
  import DataTable

  /** An order row as the listing returns it, its user, designer and workers populated down to their ids. */
  datatype OrderRow = OrderRow(id: string, user: Option<string>, designer: Option<string>,
                               workers: seq<string>, status: string)

  /** The row the listing shows for a stored order. */
  function RowOf(o: OrderModel.Order): OrderRow {
    OrderRow(o.id, Some(o.user), o.designer, o.workers, OrderModel.StatusValue(o.status))
  }

  predicate IsStaffFor(s: Claims, o: OrderRow) {
    s.role == "admin" || o.designer == Some(s.id) || s.id in o.workers
  }

  /**
   * `isOrderEditable`: no one without a session; an admin, the assigned
   * designer or an assigned worker always; the owner only while the order
   * is still "pending".
   */
  function IsOrderEditable(session: Option<Claims>, o: OrderRow): (r: bool)
    ensures session.None? ==> !r
    ensures session.Some? && IsStaffFor(session.value, o) ==> r
    ensures session.Some? && !IsStaffFor(session.value, o) ==> (r <==> o.user == Some(session.value.id) && o.status == "pending")
  {
    if session.None? then false
    else
      var s := session.value;
      var isOwner := o.user == Some(s.id);
      var isAssignedDesigner := o.designer == Some(s.id);
      var isAssignedWorker := s.id in o.workers;
      var isAdmin := s.role == "admin";
      if isAdmin || isAssignedDesigner || isAssignedWorker then true
      else isOwner && o.status == "pending"
  }

  /**
   * For an owner with no staff part in a stored order, the row is editable
   * exactly while the order is `Pending`: moving it to any other status
   * locks the owner out.
   */
  lemma OwnerEditsOnlyPending(s: Claims, o: OrderModel.Order)
    requires o.user == s.id && !IsStaffFor(s, RowOf(o))
    ensures IsOrderEditable(Some(s), RowOf(o)) <==> o.status == OrderModel.Pending
    ensures forall st :: st != OrderModel.Pending ==> !IsOrderEditable(Some(s), RowOf(o.(status := st)))
  {
    OrderModel.StatusRoundTrip(o.status);
    forall st | st != OrderModel.Pending
      ensures !IsOrderEditable(Some(s), RowOf(o.(status := st)))
    {
      OrderModel.StatusRoundTrip(st);
    }
  }

  /** Someone who neither owns nor works on an order, and is not an admin, never edits it. */
  lemma StrangersNeverEdit(s: Claims, o: OrderRow)
    requires o.user != Some(s.id) && !IsStaffFor(s, o)
    ensures !IsOrderEditable(Some(s), o)
  {
  }

  /** The "Create" button: admins and plain users only. */
  function CanCreate(session: Option<Claims>): (r: bool)
    ensures r <==> session.Some? && ParseRole(session.value.role) in {Some(Admin), Some(User)}
  {
    session.Some? && (session.value.role == "admin" || session.value.role == "user")
  }

  /** Designers are the only viewers the table hands a take handler to. */
  function OffersTake(session: Option<Claims>): bool {
    session.Some? && session.value.role == "designer"
  }

  datatype TakeBody = TakeBody(designer: string)

  /**
   * `handleTakeProject`: refused with no request unless the viewer is a
   * designer; otherwise one PUT to the order naming the viewer as its
   * designer and nothing else.
   */
  function TakeProjectRequest(session: Option<Claims>, orderId: string): (r: Option<Request<TakeBody>>)
    ensures r.None? <==> !(session.Some? && session.value.role == "designer")
    ensures r.Some? ==> r.value == Request(Put, "/api/orders/" + orderId, TakeBody(session.value.id))
  {
    if session.None? || session.value.role != "designer" then None
    else Some(Request(Put, "/api/orders/" + orderId, TakeBody(session.value.id)))
  }

  /** Whenever the table shows "Take" on a row, the click sends the request. */
  lemma ShownTakeIsSent(session: Option<Claims>, o: OrderRow)
    requires DataTable.CanTake(OffersTake(session), session, o.designer)
    ensures TakeProjectRequest(session, o.id).Some?
    ensures TakeProjectRequest(session, o.id).value.body.designer == session.value.id
  {
  }

  /** "Take" appears only for designers, and only on rows without a designer. */
  lemma TakeOnlyForDesigners(session: Option<Claims>, o: OrderRow)
    ensures DataTable.CanTake(OffersTake(session), session, o.designer) ==>
      ParseRole(session.value.role) == Some(Designer) && o.designer.None?
  {
  }

  /** The status select: "all" clears the filter; a status is kept as chosen. */
  function StatusFilterValue(selected: string): (r: string)
    ensures selected == "all" ==> r == ""
    ensures selected != "all" ==> r == selected
  {
    if selected == "all" then "" else selected
  }

  /** The `status` query parameter: sent only for a non-empty filter. */
  function StatusParam(filter: string): (r: Option<string>)
    ensures r.None? <==> filter == ""
    ensures r.Some? ==> r.value == filter
  {
    if filter == "" then None else Some(filter)
  }

  /** Choosing "all" lists exactly what a request without a status lists. */
  lemma AllStatusesMeansNoFilter(session: Claims, search: Option<string>, o: OrderModel.Order, matches: (string, string) -> bool)
    ensures OrdersApi.Wanted(session, StatusParam(StatusFilterValue("all")), search, o, matches) ==
            OrdersApi.Wanted(session, None, search, o, matches)
  {
  }

  /** Choosing a status lists only the visible orders holding it. */
  lemma ChosenStatusFilters(session: Claims, st: OrderModel.Status, search: Option<string>, o: OrderModel.Order,
                            matches: (string, string) -> bool)
    ensures OrdersApi.Wanted(session, StatusParam(StatusFilterValue(OrderModel.StatusValue(st))), search, o, matches) ==>
      o.status == st && OrdersApi.VisibleTo(session, o)
  {
    OrderModel.StatusRoundTrip(st);
    OrderModel.StatusRoundTrip(o.status);
  }

  /** `data.totalPages || 1`: an empty listing still shows page 1 of 1. */
  function ShownTotalPages(reported: Option<nat>): (r: nat)
    ensures r >= 1
    ensures reported.Some? && reported.value >= 1 ==> r == reported.value
  {
    if reported.Some? && reported.value != 0 then reported.value else 1
  }

  /** The table's state: the rows shown, the order open in the form, the filter, the page and the sort. */
  class TableState {
    var orders: seq<OrderRow>
    var selected: Option<OrderRow>
    var formOpen: bool
    var statusFilter: string
    var currentPage: int
    var totalPages: nat
    var sort: DataTable.SortConfig

    constructor()
      ensures orders == [] && selected.None? && !formOpen && statusFilter == "" && currentPage == 1
      ensures totalPages == 1 && sort == DataTable.SortConfig("createdAt", DataTable.Desc)
    {
      orders := [];
      selected := None;
      formOpen := false;
      statusFilter := "";
      currentPage := 1;
      totalPages := 1;
      sort := DataTable.SortConfig("createdAt", DataTable.Desc);
    }

    /** `handleCreate`: an empty form. */
    method HandleCreate()
      modifies this
      ensures selected.None? && formOpen
      ensures orders == old(orders) && statusFilter == old(statusFilter) && currentPage == old(currentPage)
      ensures totalPages == old(totalPages) && sort == old(sort)
    {
      selected := None;
      formOpen := true;
    }

    /** `handleEdit`: the form opened on one row. */
    method HandleEdit(o: OrderRow)
      modifies this
      ensures selected == Some(o) && formOpen
      ensures orders == old(orders) && statusFilter == old(statusFilter) && currentPage == old(currentPage)
      ensures totalPages == old(totalPages) && sort == old(sort)
    {
      selected := Some(o);
      formOpen := true;
    }

    /** The status select's change handler. */
    method SelectStatus(value: string)
      modifies this
      ensures statusFilter == StatusFilterValue(value)
      ensures orders == old(orders) && selected == old(selected) && formOpen == old(formOpen)
      ensures currentPage == old(currentPage) && totalPages == old(totalPages) && sort == old(sort)
    {
      statusFilter := StatusFilterValue(value);
    }

    /** A successful fetch: the rows of the page and its page count. */
    method Loaded(rows: seq<OrderRow>, reported: Option<nat>)
      modifies this
      ensures orders == rows && totalPages == ShownTotalPages(reported) && totalPages >= 1
      ensures selected == old(selected) && formOpen == old(formOpen) && statusFilter == old(statusFilter)
      ensures currentPage == old(currentPage) && sort == old(sort)
    {
      orders := rows;
      totalPages := ShownTotalPages(reported);
    }
  }
}
