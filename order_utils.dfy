/**
 * The order helpers: the price total of a list of services, the
 * order-status and payment-status transition graphs, the status formatters
 * and the status color tables.
 */
module OrderUtils {
  import opened Strings
  import opened Types
  import opened Wrappers

  /** Anything with a price; the total only reads `price`. Prices are integers here. */
  datatype Priced = Priced(price: int)

  /** `services.reduce((total, service) => total + service.price, acc)`: a left fold. */
  function Reduce(acc: int, services: seq<Priced>): int
    decreases |services|
  {
    if services == [] then acc else Reduce(acc + services[0].price, services[1..])
  }

  /** `calculateTotalAmount`: the fold started at 0. */
  function CalculateTotalAmount(services: seq<Priced>): (r: int)
    ensures services == [] ==> r == 0
  {
    Reduce(0, services)
  }

  /** Reference definition: the sum of the prices, element by element. */
  function SumOfPrices(services: seq<Priced>): int {
    if services == [] then 0 else services[0].price + SumOfPrices(services[1..])
  }

  lemma {:induction false} ReduceIsSum(acc: int, services: seq<Priced>)
    ensures Reduce(acc, services) == acc + SumOfPrices(services)
    decreases |services|
  {
    if services != [] {
      ReduceIsSum(acc + services[0].price, services[1..]);
    }
  }

  /** The total of a list is the sum of its prices. */
  lemma TotalIsSumOfPrices(services: seq<Priced>)
    ensures CalculateTotalAmount(services) == SumOfPrices(services)
  {
    ReduceIsSum(0, services);
  }

  lemma {:induction false} SumOfPricesAppend(services: seq<Priced>, extra: Priced)
    ensures SumOfPrices(services + [extra]) == SumOfPrices(services) + extra.price
  {
    if services != [] {
      assert (services + [extra])[1..] == services[1..] + [extra];
      SumOfPricesAppend(services[1..], extra);
    }
  }

  /** Appending one service adds exactly its price to the total. */
  lemma TotalAppend(services: seq<Priced>, extra: Priced)
    ensures CalculateTotalAmount(services + [extra]) == CalculateTotalAmount(services) + extra.price
  {
    TotalIsSumOfPrices(services + [extra]);
    TotalIsSumOfPrices(services);
    SumOfPricesAppend(services, extra);
  }

  /** The `statusFlow` table of `canUpdateOrderStatus`. */
  function OrderSuccessors(s: OrderStatus): seq<OrderStatus> {
    match s
    case Pending => [Confirmed, Cancelled]
    case Confirmed => [InProgress, Cancelled]
    case InProgress => [OrderStatus.Completed, Cancelled]
    case Completed => []
    case Cancelled => []
  }

  /** The allowed order moves, written as pairs. */
  const OrderMoves: set<(OrderStatus, OrderStatus)> :=
    {(OrderStatus.Pending, Confirmed), (OrderStatus.Pending, Cancelled), (Confirmed, InProgress),
     (Confirmed, Cancelled), (InProgress, OrderStatus.Completed), (InProgress, Cancelled)}

  /** `canUpdateOrderStatus`: the new status is listed for the current one. */
  predicate CanUpdateOrderStatus(current: OrderStatus, next: OrderStatus) {
    next in OrderSuccessors(current)
  }

  /** The successor lists allow exactly the listed pairs, in both directions. */
  lemma OrderMovesTable(current: OrderStatus, next: OrderStatus)
    ensures CanUpdateOrderStatus(current, next) <==> (current, next) in OrderMoves
  {
  }

  /** COMPLETED and CANCELLED have no successor. */
  lemma OrderTerminalStates(next: OrderStatus)
    ensures !CanUpdateOrderStatus(OrderStatus.Completed, next)
    ensures !CanUpdateOrderStatus(Cancelled, next)
  {
  }

  /** No status moves to itself. */
  lemma NoOrderSelfTransition(s: OrderStatus)
    ensures !CanUpdateOrderStatus(s, s)
  {
  }

  /** A status may be cancelled in one step exactly when it is not terminal. */
  lemma CancelFromEveryOpenStatus(s: OrderStatus)
    ensures CanUpdateOrderStatus(s, Cancelled) <==> s in {OrderStatus.Pending, Confirmed, InProgress}
  {
  }

  /** A sequence of statuses in which every step is allowed. */
  predicate IsOrderPath(p: seq<OrderStatus>) {
    forall i :: 0 <= i < |p| - 1 ==> CanUpdateOrderStatus(p[i], p[i + 1])
  }

  /** Position of a status along the workflow; every allowed step increases it. */
  function Rank(s: OrderStatus): nat {
    match s
    case Pending => 0
    case Confirmed => 1
    case InProgress => 2
    case Completed => 3
    case Cancelled => 4
  }

  lemma {:induction false} PathRankIncreases(p: seq<OrderStatus>)
    requires IsOrderPath(p) && |p| >= 2
    ensures Rank(p[0]) + |p| - 1 <= Rank(p[|p| - 1])
    decreases |p|
  {
    assert CanUpdateOrderStatus(p[0], p[1]);
    if |p| > 2 {
      var q := p[1..];
      assert IsOrderPath(q);
      PathRankIncreases(q);
    }
  }

  /** The order graph is acyclic: a path of one step or more never returns to its start. */
  lemma OrderGraphAcyclic(p: seq<OrderStatus>)
    requires IsOrderPath(p) && |p| >= 2
    ensures p[0] != p[|p| - 1]
  {
    PathRankIncreases(p);
  }

  /** The one status each of COMPLETED, IN_PROGRESS and CONFIRMED is entered from. */
  lemma OrderPredecessor(a: OrderStatus, b: OrderStatus)
    requires CanUpdateOrderStatus(a, b)
    ensures b == OrderStatus.Completed ==> a == InProgress
    ensures b == InProgress ==> a == Confirmed
    ensures b == Confirmed ==> a == OrderStatus.Pending
  {
  }

  /** Every path that ends in COMPLETED is a suffix of PENDING, CONFIRMED, IN_PROGRESS, COMPLETED. */
  lemma {:induction false} PathsIntoCompleted(p: seq<OrderStatus>)
    requires IsOrderPath(p) && |p| >= 1 && p[|p| - 1] == OrderStatus.Completed
    ensures |p| <= 4
    ensures p == [OrderStatus.Pending, Confirmed, InProgress, OrderStatus.Completed][4 - |p|..]
  {
    var n := |p|;
    if n >= 2 {
      PathRankIncreases(p);
      OrderPredecessor(p[n - 2], p[n - 1]);
    }
    if n >= 3 { OrderPredecessor(p[n - 3], p[n - 2]); }
    if n >= 4 { OrderPredecessor(p[n - 4], p[n - 3]); }
    if n == 1 { assert p == [OrderStatus.Completed]; }
    else if n == 2 { assert p == [InProgress, OrderStatus.Completed]; }
    else if n == 3 { assert p == [Confirmed, InProgress, OrderStatus.Completed]; }
  }

  /** The only path from PENDING to COMPLETED is PENDING, CONFIRMED, IN_PROGRESS, COMPLETED. */
  lemma OnlyPathToCompleted(p: seq<OrderStatus>)
    requires IsOrderPath(p) && |p| >= 1
    requires p[0] == OrderStatus.Pending && p[|p| - 1] == OrderStatus.Completed
    ensures p == [OrderStatus.Pending, Confirmed, InProgress, OrderStatus.Completed]
  {
    PathsIntoCompleted(p);
  }

  /** The `statusFlow` table of `canUpdatePaymentStatus`. */
  function PaymentSuccessors(s: PaymentStatus): seq<PaymentStatus> {
    match s
    case Pending => [Paid, Failed]
    case Paid => [Refunded]
    case Failed => [PaymentStatus.Pending]
    case Refunded => []
  }

  /** The allowed payment moves, written as pairs. */
  const PaymentMoves: set<(PaymentStatus, PaymentStatus)> :=
    {(PaymentStatus.Pending, Paid), (PaymentStatus.Pending, Failed), (Paid, Refunded), (Failed, PaymentStatus.Pending)}

  /** `canUpdatePaymentStatus`: the new status is listed for the current one. */
  predicate CanUpdatePaymentStatus(current: PaymentStatus, next: PaymentStatus) {
    next in PaymentSuccessors(current)
  }

  lemma PaymentMovesTable(current: PaymentStatus, next: PaymentStatus)
    ensures CanUpdatePaymentStatus(current, next) <==> (current, next) in PaymentMoves
  {
  }

  /** REFUNDED is terminal and is entered only from PAID. */
  lemma RefundedOnlyFromPaid(s: PaymentStatus)
    ensures !CanUpdatePaymentStatus(Refunded, s)
    ensures CanUpdatePaymentStatus(s, Refunded) <==> s == Paid
  {
  }

  /** A failed payment may be retried: FAILED goes back to PENDING, which may fail again. */
  lemma PaymentRetryCycle()
    ensures CanUpdatePaymentStatus(Failed, PaymentStatus.Pending)
    ensures CanUpdatePaymentStatus(PaymentStatus.Pending, Failed)
  {
  }

  /** The label each order status is shown with. */
  function OrderStatusLabel(s: OrderStatus): string {
    match s
    case Pending => "pending"
    case Confirmed => "confirmed"
    case InProgress => "in progress"
    case Completed => "completed"
    case Cancelled => "cancelled"
  }

  /** `formatOrderStatus`: lower-cased, the first "_" replaced by a space. */
  function FormatOrderStatus(s: OrderStatus): (r: string)
    ensures r == OrderStatusLabel(s)
    ensures '_' !in r
  {
    FormattedLabel(s);
    ReplaceFirst(ToLower(OrderStatusValue(s)), '_', ' ')
  }

  /** Lower-casing each value and replacing its first "_" gives its label, which has no "_". */
  lemma FormattedLabel(s: OrderStatus)
    ensures ReplaceFirst(ToLower(OrderStatusValue(s)), '_', ' ') == OrderStatusLabel(s)
    ensures '_' !in OrderStatusLabel(s)
  {
    if s == InProgress { InProgressLabel(); } else { PlainLabel(s); }
  }

  /** IN_PROGRESS is shown as "in progress". */
  lemma InProgressLabel()
    ensures ReplaceFirst(ToLower(OrderStatusValue(InProgress)), '_', ' ') == OrderStatusLabel(InProgress)
    ensures '_' !in OrderStatusLabel(InProgress)
  {
    LowerLiteral("IN_PROGRESS", "in_progress");
    ReplaceInProgress("in_progress");
  }

  /** A value without "_" is shown lower-cased. */
  lemma PlainLabel(s: OrderStatus)
    requires s != InProgress
    ensures ReplaceFirst(ToLower(OrderStatusValue(s)), '_', ' ') == OrderStatusLabel(s)
    ensures '_' !in OrderStatusLabel(s)
  {
    LoweredOrderStatusValues();
    assert '_' !in ToLower(OrderStatusValue(s));
  }

  /** `formatPaymentStatus`: lower-cased. */
  function FormatPaymentStatus(s: PaymentStatus): (r: string)
    ensures r == match s
      case Pending => "pending"
      case Paid => "paid"
      case Failed => "failed"
      case Refunded => "refunded"
  {
    LowerLiteral("PENDING", "pending");
    LowerLiteral("PAID", "paid");
    LowerLiteral("FAILED", "failed");
    LowerLiteral("REFUNDED", "refunded");
    ToLower(PaymentStatusValue(s))
  }

  /** Lower-casing a literal, one index at a time. */
  lemma LowerLiteral(s: string, t: string)
    requires |s| == |t| && forall i :: 0 <= i < |s| ==> ToLowerChar(s[i]) == t[i]
    ensures ToLower(s) == t
  {
  }

  /** The lower-cased status values. */
  lemma LoweredOrderStatusValues()
    ensures ToLower(OrderStatusValue(OrderStatus.Pending)) == "pending"
    ensures ToLower(OrderStatusValue(Confirmed)) == "confirmed"
    ensures ToLower(OrderStatusValue(InProgress)) == "in_progress"
    ensures ToLower(OrderStatusValue(OrderStatus.Completed)) == "completed"
    ensures ToLower(OrderStatusValue(Cancelled)) == "cancelled"
  {
    LowerLiteral("PENDING", "pending");
    LowerLiteral("CONFIRMED", "confirmed");
    LowerLiteral("IN_PROGRESS", "in_progress");
    LowerLiteral("COMPLETED", "completed");
    LowerLiteral("CANCELLED", "cancelled");
  }

  lemma ReplaceInProgress(low: string)
    requires low == "in_progress"
    ensures ReplaceFirst(low, '_', ' ') == "in progress"
    ensures '_' !in ReplaceFirst(low, '_', ' ')
  {
    assert low[..2] == "in";
    ReplaceFirstAt(low, '_', ' ', 2);
    assert low[3..] == "progress";
    assert '_' !in low[3..];
  }

  /** The statuses without an underscore are only lower-cased. */
  lemma FormatPlainOrderStatuses(s: OrderStatus)
    requires s != InProgress
    ensures FormatOrderStatus(s) == ToLower(OrderStatusValue(s))
  {
    LoweredOrderStatusValues();
  }

  /** `getOrderStatusColor`: yellow, blue, purple, green and red along the workflow. */
  function OrderStatusColor(s: OrderStatus): (r: string)
    ensures r == "bg-green-100 text-green-800" <==> s == OrderStatus.Completed
    ensures r == "bg-red-100 text-red-800" <==> s == Cancelled
    ensures r == "bg-yellow-100 text-yellow-800" <==> s == OrderStatus.Pending
  {
    match s
    case Pending => "bg-yellow-100 text-yellow-800"
    case Confirmed => "bg-blue-100 text-blue-800"
    case InProgress => "bg-purple-100 text-purple-800"
    case Completed => "bg-green-100 text-green-800"
    case Cancelled => "bg-red-100 text-red-800"
  }

  /** `getPaymentStatusColor`: yellow, green, red and gray. */
  function PaymentStatusColor(s: PaymentStatus): (r: string)
    ensures r == "bg-green-100 text-green-800" <==> s == Paid
    ensures r == "bg-red-100 text-red-800" <==> s == Failed
    ensures r == "bg-gray-100 text-gray-800" <==> s == Refunded
  {
    match s
    case Pending => "bg-yellow-100 text-yellow-800"
    case Paid => "bg-green-100 text-green-800"
    case Failed => "bg-red-100 text-red-800"
    case Refunded => "bg-gray-100 text-gray-800"
  }

  /** Distinct statuses get distinct colors in both tables. */
  lemma StatusColorsDistinct(a: OrderStatus, b: OrderStatus, x: PaymentStatus, y: PaymentStatus)
    ensures a != b ==> OrderStatusColor(a) != OrderStatusColor(b)
    ensures x != y ==> PaymentStatusColor(x) != PaymentStatusColor(y)
  {
  }
}
