/**
 * The order schemas: `orderInputSchema` (create), `orderUpdateSchema`
 * (partial update) and `orderFilterSchema` (list query). Each is a parser
 * from the submitted fields to a typed value, or to the list of fields that
 * failed, in declaration order (zod reports every failing field).
 */
module OrderValidation {
  import opened Wrappers
  import opened Types

  datatype Field = Services | TotalAmount | Status | PaymentStatusField | Page | Limit

  /** What a client may submit; an absent key is `None`. Amounts are integers here. */
  datatype OrderBody = OrderBody(
    services: Option<seq<string>>,
    totalAmount: Option<int>,
    status: Option<string>,
    paymentStatus: Option<string>)

  datatype OrderInput = OrderInput(
    services: seq<string>, totalAmount: int, status: OrderStatus, paymentStatus: PaymentStatus)

  datatype OrderUpdate = OrderUpdate(
    services: Option<seq<string>>, totalAmount: Option<int>,
    status: Option<OrderStatus>, paymentStatus: Option<PaymentStatus>)

  function Failing(ok: bool, f: Field): seq<Field> {
    if ok then [] else [f]
  }

  /** `z.nativeEnum(E).default(d)` / `.optional()`: absent, or one of the enum's values. */
  predicate StatusAcceptable(v: Option<string>) {
    v.None? || ParseOrderStatus(v.value).Some?
  }

  predicate PaymentStatusAcceptable(v: Option<string>) {
    v.None? || ParsePaymentStatus(v.value).Some?
  }

  /** `orderInputSchema.safeParse`. */
  function ParseOrderInput(b: OrderBody): (r: Result<OrderInput, seq<Field>>)
    ensures r.Ok? <==>
      b.services.Some? && |b.services.value| >= 1 &&
      b.totalAmount.Some? && b.totalAmount.value > 0 &&
      StatusAcceptable(b.status) && PaymentStatusAcceptable(b.paymentStatus)
    ensures r.Ok? ==>
      r.value.services == b.services.value && r.value.totalAmount == b.totalAmount.value &&
      (if b.status.None? then r.value.status == OrderStatus.Pending
       else OrderStatusValue(r.value.status) == b.status.value) &&
      (if b.paymentStatus.None? then r.value.paymentStatus == PaymentStatus.Pending
       else PaymentStatusValue(r.value.paymentStatus) == b.paymentStatus.value)
    ensures r.Err? ==>
      (Services in r.error <==> b.services.None? || |b.services.value| == 0) &&
      (TotalAmount in r.error <==> b.totalAmount.None? || b.totalAmount.value <= 0) &&
      (Status in r.error <==> !StatusAcceptable(b.status)) &&
      (PaymentStatusField in r.error <==> !PaymentStatusAcceptable(b.paymentStatus))
  {
    var servicesOk := b.services.Some? && |b.services.value| >= 1;
    var amountOk := b.totalAmount.Some? && b.totalAmount.value > 0;
    var statusOk := StatusAcceptable(b.status);
    var paymentOk := PaymentStatusAcceptable(b.paymentStatus);
    if servicesOk && amountOk && statusOk && paymentOk then
      Ok(OrderInput(
        b.services.value, b.totalAmount.value,
        if b.status.None? then OrderStatus.Pending else ParseOrderStatus(b.status.value).value,
        if b.paymentStatus.None? then PaymentStatus.Pending else ParsePaymentStatus(b.paymentStatus.value).value))
    else
      Err(Failing(servicesOk, Services) + Failing(amountOk, TotalAmount)
        + Failing(statusOk, Status) + Failing(paymentOk, PaymentStatusField))
  }

  /** An order cannot be created without a service or with a non-positive amount. */
  lemma InputRejectsEmptyOrFree(b: OrderBody)
    ensures b.services == Some([]) ==> ParseOrderInput(b).Err?
    ensures b.totalAmount.Some? && b.totalAmount.value <= 0 ==> ParseOrderInput(b).Err?
  {
  }

  /** `orderUpdateSchema.safeParse`: every key optional, a present one must still be valid. */
  function ParseOrderUpdate(b: OrderBody): (r: Result<OrderUpdate, seq<Field>>)
    ensures r.Ok? <==>
      (b.services.None? || |b.services.value| >= 1) &&
      (b.totalAmount.None? || b.totalAmount.value > 0) &&
      StatusAcceptable(b.status) && PaymentStatusAcceptable(b.paymentStatus)
    ensures r.Ok? ==>
      r.value.services == b.services && r.value.totalAmount == b.totalAmount &&
      (r.value.status.Some? <==> b.status.Some?) &&
      (r.value.status.Some? ==> OrderStatusValue(r.value.status.value) == b.status.value) &&
      (r.value.paymentStatus.Some? <==> b.paymentStatus.Some?) &&
      (r.value.paymentStatus.Some? ==> PaymentStatusValue(r.value.paymentStatus.value) == b.paymentStatus.value)
    ensures r.Err? ==>
      (Services in r.error <==> b.services.Some? && |b.services.value| == 0) &&
      (TotalAmount in r.error <==> b.totalAmount.Some? && b.totalAmount.value <= 0) &&
      (Status in r.error <==> !StatusAcceptable(b.status)) &&
      (PaymentStatusField in r.error <==> !PaymentStatusAcceptable(b.paymentStatus))
  {
    var servicesOk := b.services.None? || |b.services.value| >= 1;
    var amountOk := b.totalAmount.None? || b.totalAmount.value > 0;
    var statusOk := StatusAcceptable(b.status);
    var paymentOk := PaymentStatusAcceptable(b.paymentStatus);
    if servicesOk && amountOk && statusOk && paymentOk then
      Ok(OrderUpdate(
        b.services, b.totalAmount,
        if b.status.None? then None else ParseOrderStatus(b.status.value),
        if b.paymentStatus.None? then None else ParsePaymentStatus(b.paymentStatus.value)))
    else
      Err(Failing(servicesOk, Services) + Failing(amountOk, TotalAmount)
        + Failing(statusOk, Status) + Failing(paymentOk, PaymentStatusField))
  }

  /** The empty update is valid and changes nothing. */
  lemma EmptyUpdateAccepted()
    ensures ParseOrderUpdate(OrderBody(None, None, None, None)) == Ok(OrderUpdate(None, None, None, None))
  {
  }

  /** The list query as submitted; page and limit are already numbers. */
  datatype FilterQuery = FilterQuery(
    status: Option<string>, startDate: Option<string>, endDate: Option<string>,
    page: Option<int>, limit: Option<int>)

  datatype OrderFilter = OrderFilter(
    status: Option<OrderStatus>, startDate: Option<string>, endDate: Option<string>,
    page: nat, limit: nat)

  /** `z.number().int().positive().default(d)`. */
  function PositiveOr(v: Option<int>, default: nat): (r: Option<nat>)
    ensures v.None? ==> r == Some(default)
    ensures v.Some? ==> (r.Some? <==> v.value > 0) && (r.Some? ==> r.value == v.value)
  {
    if v.None? then Some(default) else if v.value > 0 then Some(v.value) else None
  }

  /** `orderFilterSchema.safeParse`: page and limit default to 1 and 10 and must be positive. */
  function ParseOrderFilter(q: FilterQuery): (r: Result<OrderFilter, seq<Field>>)
    ensures r.Ok? <==>
      StatusAcceptable(q.status) && (q.page.None? || q.page.value > 0) && (q.limit.None? || q.limit.value > 0)
    ensures r.Ok? ==>
      r.value.page >= 1 && r.value.limit >= 1 &&
      r.value.page == (if q.page.None? then 1 else q.page.value) &&
      r.value.limit == (if q.limit.None? then 10 else q.limit.value) &&
      r.value.startDate == q.startDate && r.value.endDate == q.endDate &&
      (r.value.status.Some? <==> q.status.Some?) &&
      (r.value.status.Some? ==> OrderStatusValue(r.value.status.value) == q.status.value)
    ensures r.Err? ==>
      (Status in r.error <==> !StatusAcceptable(q.status)) &&
      (Page in r.error <==> q.page.Some? && q.page.value <= 0) &&
      (Limit in r.error <==> q.limit.Some? && q.limit.value <= 0)
  {
    var page := PositiveOr(q.page, 1);
    var limit := PositiveOr(q.limit, 10);
    var statusOk := StatusAcceptable(q.status);
    if statusOk && page.Some? && limit.Some? then
      Ok(OrderFilter(
        if q.status.None? then None else ParseOrderStatus(q.status.value),
        q.startDate, q.endDate, page.value, limit.value))
    else
      Err(Failing(statusOk, Status) + Failing(page.Some?, Page) + Failing(limit.Some?, Limit))
  }
}
