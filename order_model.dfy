/** The `Order` schema: the persisted order record and what a save accepts. */
module OrderModel {
  import opened Wrappers
  import opened Schema

  /** The persisted status values (lower case). */
  datatype Status = Pending | InProgress | Completed | Cancelled

  function StatusValue(s: Status): string {
    match s
    case Pending => "pending"
    case InProgress => "in_progress"
    case Completed => "completed"
    case Cancelled => "cancelled"
  }

  /** The schema's `enum` for `status`. */
  function ParseStatus(v: string): (r: Option<Status>)
    ensures r.Some? <==> v in {"pending", "in_progress", "completed", "cancelled"}
    ensures r.Some? ==> StatusValue(r.value) == v
  {
    if v == "pending" then Some(Pending)
    else if v == "in_progress" then Some(InProgress)
    else if v == "completed" then Some(Completed)
    else if v == "cancelled" then Some(Cancelled)
    else None
  }

  lemma StatusRoundTrip(s: Status)
    ensures ParseStatus(StatusValue(s)) == Some(s)
  {
  }

  /** A stored order; ids are strings, dates are seconds. */
  datatype Order = Order(
    id: string, user: string, service: string, designer: Option<string>, workers: seq<string>,
    status: Status, description: string, budget: int, address: string, clientName: string,
    clientPhone: string, startDate: Option<int>, endDate: Option<int>, createdAt: int, updatedAt: int)

  /** The fields given to `new Order({...})`; `None` is a field left undefined. */
  datatype OrderDraft = OrderDraft(
    user: Option<string>, service: Option<string>, designer: Option<string>, workers: Option<seq<string>>,
    status: Option<string>, description: Option<string>, budget: Option<int>, address: Option<string>,
    clientName: Option<string>, clientPhone: Option<string>, startDate: Option<int>, endDate: Option<int>)

  /** The schema paths a validation error can name. */
  datatype OrderPath = UserPath | ServicePath | DesignerPath | WorkersPath | StatusPath
                     | DescriptionPath | BudgetPath | AddressPath | ClientNamePath | ClientPhonePath

  predicate WorkersCast(w: Option<seq<string>>) {
    w.None? || forall i :: 0 <= i < |w.value| ==> w.value[i] != ""
  }

  const AllOrderPaths: set<OrderPath> :=
    {UserPath, ServicePath, DesignerPath, WorkersPath, StatusPath,
     DescriptionPath, BudgetPath, AddressPath, ClientNamePath, ClientPhonePath}

  /** Whether the validator of path `p` fails on the draft. */
  predicate Fails(d: OrderDraft, p: OrderPath) {
    match p
    case UserPath => !RequiredId(d.user)
    case ServicePath => !RequiredId(d.service)
    case DesignerPath => !CastsToId(d.designer)
    case WorkersPath => !WorkersCast(d.workers)
    case StatusPath => d.status.Some? && ParseStatus(d.status.value).None?
    case DescriptionPath => !RequiredString(d.description)
    case BudgetPath => d.budget.None?
    case AddressPath => !RequiredString(d.address)
    case ClientNamePath => !RequiredString(d.clientName)
    case ClientPhonePath => !RequiredString(d.clientPhone)
  }

  /** The failing paths, keyed by path as Mongoose collects them. */
  function OrderErrors(d: OrderDraft): (e: set<OrderPath>)
    ensures forall p :: p in e <==> Fails(d, p)
  {
    set p | p in AllOrderPaths && Fails(d, p)
  }

  /** A draft saves exactly when every required field is present and non-empty and the rest cast. */
  lemma OrderErrorsEmptyIff(d: OrderDraft)
    ensures OrderErrors(d) == {} <==>
      RequiredId(d.user) && RequiredId(d.service) && CastsToId(d.designer) && WorkersCast(d.workers) &&
      (d.status.None? || ParseStatus(d.status.value).Some?) && RequiredString(d.description) &&
      d.budget.Some? && RequiredString(d.address) && RequiredString(d.clientName) && RequiredString(d.clientPhone)
  {
    var e := OrderErrors(d);
    if e == {} {
      assert !Fails(d, UserPath) && !Fails(d, ServicePath) && !Fails(d, DesignerPath) && !Fails(d, WorkersPath);
      assert !Fails(d, StatusPath) && !Fails(d, DescriptionPath) && !Fails(d, BudgetPath);
      assert !Fails(d, AddressPath) && !Fails(d, ClientNamePath) && !Fails(d, ClientPhonePath);
    } else {
      var p :| p in e;
      assert Fails(d, p);
    }
  }

  /**
   * Validating and saving a new order: the failing paths, or the stored
   * record with `status` defaulting to "pending", `workers` to [] and both
   * timestamps set to the save time.
   */
  function CreateOrder(d: OrderDraft, id: string, now: int): (r: Result<Order, set<OrderPath>>)
    ensures r.Err? <==> OrderErrors(d) != {}
    ensures r.Err? ==> r.error == OrderErrors(d)
    ensures r.Ok? ==>
      var o := r.value;
      o.id == id && Some(o.user) == d.user && Some(o.service) == d.service && o.designer == d.designer &&
      o.workers == d.workers.GetOr([]) && (d.status.None? ==> o.status == Pending) && (d.status.Some? ==> StatusValue(o.status) == d.status.value) &&
      Some(o.description) == d.description && Some(o.budget) == d.budget && Some(o.address) == d.address &&
      Some(o.clientName) == d.clientName && Some(o.clientPhone) == d.clientPhone &&
      o.startDate == d.startDate && o.endDate == d.endDate && o.createdAt == now && o.updatedAt == now
  {
    var errors := OrderErrors(d);
    OrderErrorsEmptyIff(d);
    if errors != {} then Err(errors)
    else
      Ok(Order(id, d.user.value, d.service.value, d.designer, d.workers.GetOr([]),
               if d.status.None? then Pending else ParseStatus(d.status.value).value,
               d.description.value, d.budget.value, d.address.value, d.clientName.value, d.clientPhone.value,
               d.startDate, d.endDate, now, now))
  }

  /** Every stored order holds non-empty text in each required field and a status from the enum. */
  lemma CreatedOrderWellFormed(d: OrderDraft, id: string, now: int)
    requires CreateOrder(d, id, now).Ok?
    ensures var o := CreateOrder(d, id, now).value;
      o.user != "" && o.service != "" && o.description != "" && o.address != "" &&
      o.clientName != "" && o.clientPhone != "" && ParseStatus(StatusValue(o.status)) == Some(o.status)
  {
    OrderErrorsEmptyIff(d);
  }

  /** The fields of the order's text index. */
  function TextFields(o: Order): seq<string> {
    [o.description, o.address, o.clientName]
  }

  /**
   * A `$text` search hits an order when the search string matches one of
   * its indexed fields; `matches` stands for the text engine's word matching.
   */
  predicate TextHit(o: Order, search: string, matches: (string, string) -> bool) {
    exists i :: 0 <= i < |TextFields(o)| && matches(search, TextFields(o)[i])
  }

  lemma TextHitFields(o: Order, search: string, matches: (string, string) -> bool)
    ensures TextHit(o, search, matches) <==>
      matches(search, o.description) || matches(search, o.address) || matches(search, o.clientName)
  {
    if matches(search, o.description) { assert TextFields(o)[0] == o.description; }
    if matches(search, o.address) { assert TextFields(o)[1] == o.address; }
    if matches(search, o.clientName) { assert TextFields(o)[2] == o.clientName; }
  }
}
