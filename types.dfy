/**
 * The enumerations shared by the whole application: the four user roles, the
 * five upper-case order statuses and four payment statuses of the status
 * helpers, and the shape of a paginated response.
 */
module Types {
  import opened Wrappers

  /** The four roles; their wire names are the lower-case strings below. */
  datatype Role = User | Designer | Worker | Admin

  function RoleName(r: Role): string {
    match r
    case User => "user"
    case Designer => "designer"
    case Worker => "worker"
    case Admin => "admin"
  }

  /** Reads a role from its wire name. */
  function ParseRole(s: string): (r: Option<Role>)
    ensures r.Some? <==> s in {"user", "designer", "worker", "admin"}
    ensures r.Some? ==> RoleName(r.value) == s
  {
    if s == "user" then Some(User)
    else if s == "designer" then Some(Designer)
    else if s == "worker" then Some(Worker)
    else if s == "admin" then Some(Admin)
    else None
  }

  /** Every role is read back from its own name, so the names are pairwise distinct. */
  lemma RoleNameRoundTrip(r: Role)
    ensures ParseRole(RoleName(r)) == Some(r)
  {
  }

  /** All four roles, in the order of the source's default allow-lists. */
  const AllRoles: seq<Role> := [User, Designer, Worker, Admin]

  /** `allowedRoles.includes(role)` on a role read as a plain string. */
  predicate IncludesRoleName(allowed: seq<Role>, role: string) {
    exists i :: 0 <= i < |allowed| && RoleName(allowed[i]) == role
  }

  /** Membership by name is membership of the parsed role: a string that is not a role name is in no list. */
  lemma IncludesRoleNameIff(allowed: seq<Role>, role: string)
    ensures IncludesRoleName(allowed, role) <==> (ParseRole(role).Some? && ParseRole(role).value in allowed)
  {
    if ParseRole(role).Some? && ParseRole(role).value in allowed {
      var i :| 0 <= i < |allowed| && allowed[i] == ParseRole(role).value;
      assert RoleName(allowed[i]) == role;
    }
  }

  /** The `User` record as the client and the role helpers see it. */
  datatype AppUser = AppUser(id: string, name: string, email: string, role: string)

  /** The order statuses of the status helpers; each value is its upper-case name. */
  datatype OrderStatus = Pending | Confirmed | InProgress | Completed | Cancelled

  function OrderStatusValue(s: OrderStatus): string {
    match s
    case Pending => "PENDING"
    case Confirmed => "CONFIRMED"
    case InProgress => "IN_PROGRESS"
    case Completed => "COMPLETED"
    case Cancelled => "CANCELLED"
  }

  /** `z.nativeEnum(OrderStatus)`: accepts exactly the five values. */
  function ParseOrderStatus(s: string): (r: Option<OrderStatus>)
    ensures r.Some? <==> s in {"PENDING", "CONFIRMED", "IN_PROGRESS", "COMPLETED", "CANCELLED"}
    ensures r.Some? ==> OrderStatusValue(r.value) == s
  {
    if s == "PENDING" then Some(OrderStatus.Pending)
    else if s == "CONFIRMED" then Some(Confirmed)
    else if s == "IN_PROGRESS" then Some(InProgress)
    else if s == "COMPLETED" then Some(OrderStatus.Completed)
    else if s == "CANCELLED" then Some(Cancelled)
    else None
  }

  lemma OrderStatusRoundTrip(s: OrderStatus)
    ensures ParseOrderStatus(OrderStatusValue(s)) == Some(s)
  {
  }

  /** The payment statuses; each value is its upper-case name. */
  datatype PaymentStatus = Pending | Paid | Failed | Refunded

  function PaymentStatusValue(s: PaymentStatus): string {
    match s
    case Pending => "PENDING"
    case Paid => "PAID"
    case Failed => "FAILED"
    case Refunded => "REFUNDED"
  }

  /** `z.nativeEnum(PaymentStatus)`: accepts exactly the four values. */
  function ParsePaymentStatus(s: string): (r: Option<PaymentStatus>)
    ensures r.Some? <==> s in {"PENDING", "PAID", "FAILED", "REFUNDED"}
    ensures r.Some? ==> PaymentStatusValue(r.value) == s
  {
    if s == "PENDING" then Some(PaymentStatus.Pending)
    else if s == "PAID" then Some(Paid)
    else if s == "FAILED" then Some(Failed)
    else if s == "REFUNDED" then Some(Refunded)
    else None
  }

  lemma PaymentStatusRoundTrip(s: PaymentStatus)
    ensures ParsePaymentStatus(PaymentStatusValue(s)) == Some(s)
  {
  }
}
