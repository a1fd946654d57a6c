/**
 * The `/api/orders` collection route: listing the orders a session may
 * see, and creating an order for the signed-in user.
 */
module OrdersApi {
  import opened Wrappers
  import opened Strings
  import opened Tokens
  import opened OrderModel
  import opened Storage
  import opened Http

  /**
   * The reference visibility rule: an admin sees every order, a designer
   * the orders they are assigned to, a worker the orders listing them,
   * anyone else the orders they placed.
   */
  predicate VisibleTo(session: Claims, o: Order) {
    if session.role == "admin" then true
    else if session.role == "designer" then o.designer == Some(session.id)
    else if session.role == "worker" then session.id in o.workers
    else o.user == session.id
  }

  /** The MongoDB filter the handler builds; each field is one condition. */
  datatype OrderQuery = OrderQuery(designer: Option<string>, worker: Option<string>, user: Option<string>,
                                   status: Option<string>, search: Option<string>)

  /** Whether the filter selects a stored order; `matches` is the text engine's word matching. */
  predicate Selects(q: OrderQuery, o: Order, matches: (string, string) -> bool) {
    (q.designer.Some? ==> o.designer == q.designer) &&
    (q.worker.Some? ==> q.worker.value in o.workers) &&
    (q.user.Some? ==> o.user == q.user.value) &&
    (q.status.Some? ==> StatusValue(o.status) == q.status.value) &&
    (q.search.Some? ==> TextHit(o, q.search.value, matches))
  }

  /** The orders the listing is meant to return: visible to the session, then narrowed by the optional filters. */
  predicate Wanted(session: Claims, status: Option<string>, search: Option<string>, o: Order, matches: (string, string) -> bool) {
    VisibleTo(session, o) &&
    (Truthy(status) ==> StatusValue(o.status) == status.value) &&
    (Truthy(search) ==> TextHit(o, search.value, matches))
  }

  /** `Wanted` as the filter function `find` is given. */
  function WantedBy(session: Claims, status: Option<string>, search: Option<string>, matches: (string, string) -> bool): Order -> bool {
    o => Wanted(session, status, search, o, matches)
  }

  /** The narrowing part of `Wanted`: the optional status and search filters. */
  function Narrowing(status: Option<string>, search: Option<string>, matches: (string, string) -> bool): Order -> bool {
    (o: Order) => (Truthy(status) ==> StatusValue(o.status) == status.value) && (Truthy(search) ==> TextHit(o, search.value, matches))
  }

  function VisibleBy(session: Claims): Order -> bool {
    o => VisibleTo(session, o)
  }

  /** The query of `GET`: a role condition from the `switch`, then `status` and `$text` when given. */
  method BuildOrderQuery(session: Claims, status: Option<string>, search: Option<string>, ghost matches: (string, string) -> bool)
    returns (q: OrderQuery)
    ensures forall o :: Selects(q, o, matches) <==> Wanted(session, status, search, o, matches)
  {
    q := OrderQuery(None, None, None, None, None);
    if session.role == "admin" {
    } else if session.role == "designer" {
      q := q.(designer := Some(session.id));
    } else if session.role == "worker" {
      q := q.(worker := Some(session.id));
    } else {
      q := q.(user := Some(session.id));
    }
    if Truthy(status) {
      q := q.(status := status);
    }
    if Truthy(search) {
      q := q.(search := search);
    }
  }

  /** The listing parameters, with `page` and `limit` already parsed; `sortOrder` defaults to "desc". */
  datatype ListParams = ListParams(page: int, limit: int, status: Option<string>, search: Option<string>,
                                   sortOrder: Option<string>)

  /** `sortOrder === "desc" ? -1 : 1`, after `|| "desc"` has replaced an absent or empty value. */
  function SortDirection(sortOrder: Option<string>): (d: int)
    ensures d == -1 || d == 1
    ensures d == -1 <==> !Truthy(sortOrder) || sortOrder.value == "desc"
    ensures sortOrder == Some("") ==> d == -1
  {
    if !Truthy(sortOrder) || sortOrder.value == "desc" then -1 else 1
  }

  datatype OrderPage = OrderPage(orders: seq<Order>, totalPages: nat, currentPage: int)

  /**
   * `GET /api/orders`. `store` is the collection in the order the sort
   * produces; `storeUp` is false when the query throws.
   */
  method ListOrders(session: Option<Claims>, params: ListParams, store: seq<Order>, storeUp: bool,
                    matches: (string, string) -> bool)
    returns (r: Response<OrderPage>)
    requires params.page >= 1 && params.limit >= 1
    ensures session.None? ==> r == Failure(401, "Unauthorized")
    ensures session.Some? && !storeUp ==> r == Failure(500, "Internal Server Error")
    ensures session.Some? && storeUp ==>
      var wanted := Filter(store, WantedBy(session.value, params.status, params.search, matches));
      r == Success(200, OrderPage(Window(wanted, (params.page - 1) * params.limit, params.limit),
                                  PageCount(|wanted|, params.limit), params.page))
  {
    if session.None? {
      return Failure(401, "Unauthorized");
    }
    if !storeUp {
      return Failure(500, "Internal Server Error");
    }
    var q := BuildOrderQuery(session.value, params.status, params.search, matches);
    var found := Filter(store, o => Selects(q, o, matches));
    FilterAgree(store, o => Selects(q, o, matches), WantedBy(session.value, params.status, params.search, matches));
    var skip := (params.page - 1) * params.limit;
    r := Success(200, OrderPage(Window(found, skip, params.limit), PageCount(|found|, params.limit), params.page));
  }

  /** Every listed order is one the session may see; the status and search filters only narrow the listing. */
  lemma ListingNeverWidens(session: Claims, status: Option<string>, search: Option<string>, store: seq<Order>,
                           matches: (string, string) -> bool)
    ensures forall o :: o in Filter(store, WantedBy(session, status, search, matches)) ==> VisibleTo(session, o)
    ensures Filter(store, WantedBy(session, status, search, matches)) ==
            Filter(Filter(store, VisibleBy(session)), Narrowing(status, search, matches))
  {
    var p := VisibleBy(session);
    var w := WantedBy(session, status, search, matches);
    var n := Narrowing(status, search, matches);
    var pn := x => p(x) && n(x);
    FilterThenFilter(store, p, n);
    forall i | 0 <= i < |store| ensures pn(store[i]) == w(store[i]) {
      assert pn(store[i]) == Wanted(session, status, search, store[i], matches);
    }
    FilterAgree(store, pn, w);
    forall o | o in Filter(store, w) ensures VisibleTo(session, o) {
      FilterMember(store, w, o);
    }
  }

  /** The fields of the `POST` body the handler reads; the client's `user`, `status` and `workers` are present but ignored. */
  datatype OrderBody = OrderBody(service: Option<string>, description: Option<string>, budget: Option<int>,
                                 address: Option<string>, clientName: Option<string>, clientPhone: Option<string>,
                                 designer: Option<string>, user: Option<string>, status: Option<string>,
                                 workers: Option<seq<string>>)

  /** `!budget`: absent or 0 is missing. */
  predicate TruthyNumber(v: Option<int>) {
    v.Some? && v.value != 0
  }

  predicate HasRequiredFields(b: OrderBody) {
    Truthy(b.service) && Truthy(b.description) && TruthyNumber(b.budget) &&
    Truthy(b.address) && Truthy(b.clientName) && Truthy(b.clientPhone)
  }

  /** The document `new Order({...})` is given: the session's id as owner, an empty designer dropped. */
  function OrderDraftOf(session: Claims, b: OrderBody): (d: OrderDraft)
    ensures d.user == Some(session.id) && d.status.None? && d.workers.None?
    ensures d.designer == if b.designer == Some("") then None else b.designer
  {
    OrderDraft(Some(session.id), b.service, if b.designer == Some("") then None else b.designer, None, None,
               b.description, b.budget, b.address, b.clientName, b.clientPhone, None, None)
  }

  /** `POST /api/orders`: 401, 400 for a missing field, 500 when saving throws, else 201 with the stored order. */
  function CreateOrderReply(session: Option<Claims>, b: OrderBody, id: string, now: int, storeUp: bool): (r: Response<Order>)
    ensures session.None? ==> r == Failure(401, "Unauthorized")
    ensures session.Some? && !HasRequiredFields(b) ==> r == Failure(400, "Missing required fields")
    ensures r.Success? <==> session.Some? && HasRequiredFields(b) && storeUp && CreateOrder(OrderDraftOf(session.value, b), id, now).Ok?
    ensures r.Success? ==> r.status == 201 && r.data == CreateOrder(OrderDraftOf(session.value, b), id, now).value
    ensures r.Failure? && session.Some? && HasRequiredFields(b) ==> r == Failure(500, "Internal Server Error")
  {
    if session.None? then Failure(401, "Unauthorized")
    else if !HasRequiredFields(b) then Failure(400, "Missing required fields")
    else
      match CreateOrder(OrderDraftOf(session.value, b), id, now)
      case Err(_) => Failure(500, "Internal Server Error")
      case Ok(o) => if storeUp then Success(201, o) else Failure(500, "Internal Server Error")
  }

  /**
   * A created order belongs to the session, starts "pending" with no
   * workers, and has the designer the client named ("" meaning none);
   * the client's own `user`, `status` and `workers` never reach it.
   */
  lemma CreatedOrderOwnedAndPending(session: Claims, b: OrderBody, id: string, now: int, storeUp: bool)
    requires CreateOrderReply(Some(session), b, id, now, storeUp).Success?
    ensures var o := CreateOrderReply(Some(session), b, id, now, storeUp).data;
      o.user == session.id && o.status == Pending && o.workers == [] &&
      o.designer == (if b.designer == Some("") then None else b.designer) &&
      Some(o.description) == b.description && Some(o.budget) == b.budget
  {
  }

  /** Past the 400 check, the schema accepts the order whenever the session id and the designer id cast. */
  lemma RequiredFieldsSuffice(session: Claims, b: OrderBody, id: string, now: int)
    requires HasRequiredFields(b) && session.id != ""
    ensures CreateOrder(OrderDraftOf(session, b), id, now).Ok?
  {
    OrderErrorsEmptyIff(OrderDraftOf(session, b));
  }

  /** The handler with its collection: a created order is appended, a refused one leaves the store unchanged. */
  method PostOrder(orders: Collection<Order>, session: Option<Claims>, b: OrderBody, id: string, now: int, storeUp: bool)
    returns (r: Response<Order>)
    modifies orders
    ensures r == CreateOrderReply(session, b, id, now, storeUp)
    ensures orders.records == old(orders.records) + (if r.Success? then [r.data] else [])
  {
    r := CreateOrderReply(session, b, id, now, storeUp);
    if r.Success? {
      orders.Insert(r.data);
    }
  }
}
