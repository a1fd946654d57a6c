/**
 * The dashboard's full order form: the client-side validation of its six
 * content fields, the worker toggle, which sections a viewer sees, the
 * designer lock, and the request a submission sends.
 */
module OrderForm {
  import opened Wrappers
  import opened Strings
  import opened Tokens
  import opened Http
  import OrderModel
  import OrdersApi
  import Storage

  /** The six content fields both order forms edit; `budget` as the number the input coerces to. */
  datatype Content = Content(service: string, description: string, budget: int, clientName: string,
                             clientPhone: string, address: string)

  /** The whole form: the content plus the staff-only status, designer and workers. */
  datatype Values = Values(content: Content, status: string, designer: string, workers: seq<string>)

  const EmptyContent: Content := Content("", "", 0, "", "", "")

  const Defaults: Values := Values(EmptyContent, "pending", "", [])

  /** A letter, whitespace, apostrophe or hyphen: the characters a client name may hold. */
  predicate NameChar(c: char) {
    IsAsciiLetter(c) || IsSpace(c) || c == '\'' || c == '-'
  }

  /** A digit, whitespace or hyphen: the characters after the optional "+" of a phone number. */
  predicate PhoneChar(c: char) {
    IsDigit(c) || IsSpace(c) || c == '-'
  }

  predicate PhoneBody(t: string) {
    10 <= |t| <= 15 && forall i :: 0 <= i < |t| ==> PhoneChar(t[i])
  }

  /** The phone pattern read literally: an optional leading "+" and then ten to fifteen phone characters. */
  ghost predicate PhonePattern(s: string) {
    exists k :: 0 <= k <= 1 && k <= |s| && (k == 1 ==> s[0] == '+') && PhoneBody(s[k..])
  }

  /** The same test, computed: a leading "+" is always the optional sign, since "+" is no phone character. */
  predicate PhoneShaped(s: string) {
    if |s| > 0 && s[0] == '+' then PhoneBody(s[1..]) else PhoneBody(s)
  }

  lemma PhoneShapedIff(s: string)
    ensures PhoneShaped(s) <==> PhonePattern(s)
  {
    if PhoneShaped(s) {
      if |s| > 0 && s[0] == '+' {
        assert 0 <= 1 <= 1 && 1 <= |s| && PhoneBody(s[1..]);
      } else {
        assert s[0..] == s;
      }
    }
    if PhonePattern(s) {
      var k :| 0 <= k <= 1 && k <= |s| && (k == 1 ==> s[0] == '+') && PhoneBody(s[k..]);
      if k == 0 {
        assert s[0..] == s;
        assert PhoneChar(s[0]);
      }
    }
  }

  datatype Field = ServiceField | DescriptionField | BudgetField | ClientNameField | ClientPhoneField | AddressField

  const AllFields: set<Field> := {ServiceField, DescriptionField, BudgetField, ClientNameField, ClientPhoneField, AddressField}

  /** Whether one field breaks its rule. */
  predicate Fails(c: Content, f: Field) {
    match f
    case ServiceField => |c.service| < 1
    case DescriptionField => !(10 <= |c.description| <= 500)
    case BudgetField => c.budget < 100
    case ClientNameField => !(2 <= |c.clientName| <= 50) || exists i :: 0 <= i < |c.clientName| && !NameChar(c.clientName[i])
    case ClientPhoneField => !PhoneShaped(c.clientPhone)
    case AddressField => !(10 <= |c.address| <= 100)
  }

  /** The fields the schema flags. */
  function ContentErrors(c: Content): (e: set<Field>)
    ensures forall f :: f in e <==> Fails(c, f)
  {
    set f | f in AllFields && Fails(c, f)
  }

  /** The schema passes exactly when every bound and pattern holds. */
  lemma ContentErrorsEmptyIff(c: Content)
    ensures ContentErrors(c) == {} <==>
      |c.service| >= 1 && 10 <= |c.description| <= 500 && c.budget >= 100 &&
      2 <= |c.clientName| <= 50 && (forall i :: 0 <= i < |c.clientName| ==> NameChar(c.clientName[i])) &&
      PhonePattern(c.clientPhone) && 10 <= |c.address| <= 100
  {
    PhoneShapedIff(c.clientPhone);
    var e := ContentErrors(c);
    if e == {} {
      assert !Fails(c, ServiceField) && !Fails(c, DescriptionField) && !Fails(c, BudgetField);
      assert !Fails(c, ClientNameField) && !Fails(c, ClientPhoneField) && !Fails(c, AddressField);
    } else {
      var f :| f in e;
      assert Fails(c, f);
    }
  }

  /** The staff fields are optional strings with no rule: the whole form checks only its content. */
  function Errors(v: Values): (e: set<Field>)
    ensures e == {} <==> ContentErrors(v.content) == {}
  {
    ContentErrors(v.content)
  }

  /** `workers` without any copy of `id`, the others in their order. */
  function Without(ws: seq<string>, id: string): (r: seq<string>)
    ensures id !in r
    ensures forall x :: x != id ==> (x in r <==> x in ws)
    ensures |r| <= |ws|
    ensures id !in ws ==> r == ws
    ensures r == Storage.Filter(ws, x => x != id)
  {
    if ws == [] then []
    else if ws[0] == id then Without(ws[1..], id)
    else [ws[0]] + Without(ws[1..], id)
  }

  /** `handleWorkerToggle`: a selected worker is removed everywhere; an unselected one is appended. */
  function ToggleWorker(ws: seq<string>, id: string): (r: seq<string>)
    ensures id in r <==> id !in ws
    ensures forall x :: x != id ==> (x in r <==> x in ws)
    ensures id !in ws ==> r == ws + [id]
  {
    if id in ws then Without(ws, id) else ws + [id]
  }

  lemma {:induction false} WithoutAppended(ws: seq<string>, id: string)
    requires id !in ws
    ensures Without(ws + [id], id) == ws
  {
    if ws == [] {
      assert [] + [id] == [id];
      assert Without([id], id) == Without([], id);
    } else {
      assert (ws + [id])[0] == ws[0];
      assert (ws + [id])[1..] == ws[1..] + [id];
      WithoutAppended(ws[1..], id);
      assert [ws[0]] + ws[1..] == ws;
    }
  }

  /** Toggling a worker on and off again restores the selection. */
  lemma ToggleTwice(ws: seq<string>, id: string)
    requires id !in ws
    ensures ToggleWorker(ToggleWorker(ws, id), id) == ws
  {
    WithoutAppended(ws, id);
  }

  /** Toggling twice from a list holding the worker leaves it out, and no other worker changes. */
  lemma ToggleTwiceSelected(ws: seq<string>, id: string)
    requires id in ws
    ensures var r := ToggleWorker(ToggleWorker(ws, id), id);
      r == Without(ws, id) + [id] && forall x :: x in r <==> x in ws
  {
  }

  /** The order the form edits, as the listing returned it (references populated to ids). */
  datatype EditedOrder = EditedOrder(id: string, service: Option<string>, description: Option<string>, budget: Option<int>,
                                     clientName: Option<string>, clientPhone: Option<string>, address: Option<string>,
                                     status: Option<string>, designer: Option<string>, workers: seq<string>)

  /** `x || fallback` for an optional string: absent and "" fall back. */
  function OrElse(x: Option<string>, fallback: string): (r: string)
    ensures x.Some? && x.value != "" ==> r == x.value
    ensures (x.None? || x.value == "") ==> r == fallback
  {
    if x.Some? && x.value != "" then x.value else fallback
  }

  /** The content fields a reset reads off the order, each falling back to "" or 0. */
  function ContentOf(o: EditedOrder): (c: Content)
    ensures c.service == OrElse(o.service, "") && c.description == OrElse(o.description, "")
    ensures c.budget == o.budget.GetOr(0)
    ensures c.clientName == OrElse(o.clientName, "") && c.clientPhone == OrElse(o.clientPhone, "")
    ensures c.address == OrElse(o.address, "")
  {
    Content(OrElse(o.service, ""), OrElse(o.description, ""), o.budget.GetOr(0), OrElse(o.clientName, ""),
            OrElse(o.clientPhone, ""), OrElse(o.address, ""))
  }

  /** The values a reset loads: the order's, or the defaults when creating. */
  function ResetValues(order: Option<EditedOrder>): (v: Values)
    ensures order.None? ==> v == Defaults
    ensures order.Some? ==> v.content == ContentOf(order.value) && v.status == OrElse(order.value.status, "pending")
    ensures order.Some? ==> v.designer == OrElse(order.value.designer, "") && v.workers == order.value.workers
  {
    if order.None? then Defaults
    else
      var o := order.value;
      Values(ContentOf(o), OrElse(o.status, "pending"), OrElse(o.designer, ""), o.workers)
  }

  /** A reset of an order with no status shows "pending", like a new order. */
  lemma ResetStatusNeverBlank(order: Option<EditedOrder>)
    ensures ResetValues(order).status != ""
    ensures order.Some? && order.value.status.None? ==> ResetValues(order).status == Defaults.status
  {
  }

  /** `isAdmin` and `isDesigner` read off the session (false without one). */
  predicate IsAdmin(session: Option<Claims>) {
    session.Some? && session.value.role == "admin"
  }

  predicate IsDesigner(session: Option<Claims>) {
    session.Some? && session.value.role == "designer"
  }

  /**
   * `order?.designer?._id === session?.id`, with JavaScript's `undefined`
   * as `None` on either side: two `undefined`s compare equal.
   */
  predicate IsAssignedDesigner(session: Option<Claims>, order: Option<EditedOrder>): (r: bool)
    ensures session.Some? ==> (r <==> order.Some? && order.value.designer == Some(session.value.id))
    ensures session.None? ==> (r <==> order.None? || order.value.designer.None?)
  {
    var lhs := if order.Some? then order.value.designer else None;
    var rhs := if session.Some? then Some(session.value.id) else None;
    lhs == rhs
  }

  /** The status and designer section shows to admins and designers. */
  predicate ShowsStaffSection(session: Option<Claims>) {
    IsAdmin(session) || IsDesigner(session)
  }

  /** The workers editor sits inside that section and shows to admins and the assigned designer. */
  predicate ShowsWorkersEditor(session: Option<Claims>, order: Option<EditedOrder>) {
    ShowsStaffSection(session) && (IsAdmin(session) || IsAssignedDesigner(session, order))
  }

  /**
   * Only an admin, or the designer assigned to the order being edited,
   * ever sees the workers editor; in particular a designer creating an
   * order does not.
   */
  lemma WorkersEditorAudience(session: Option<Claims>, order: Option<EditedOrder>)
    ensures ShowsWorkersEditor(session, order) <==>
      IsAdmin(session) ||
      (IsDesigner(session) && order.Some? && order.value.designer == Some(session.value.id))
    ensures ShowsWorkersEditor(session, order) ==> ShowsStaffSection(session)
  {
  }

  /** The designer select is disabled for non-admins once the order has a designer. */
  predicate DesignerLocked(session: Option<Claims>, order: Option<EditedOrder>): (r: bool)
    ensures IsAdmin(session) ==> !r
    ensures order.None? ==> !r
    ensures IsDesigner(session) && order.Some? ==> (r <==> order.value.designer.Some?)
  {
    !IsAdmin(session) && order.Some? && order.value.designer.Some?
  }

  /** The designer select's "none" item stands for no designer. */
  function DesignerChoice(value: string): (r: string)
    ensures value == "none" ==> r == ""
    ensures value != "none" ==> r == value
  {
    if value == "none" then "" else value
  }

  /** A designer can claim an unassigned order in the form but cannot reassign a taken one. */
  lemma DesignerLockAudience(session: Claims, order: EditedOrder)
    requires session.role == "designer"
    ensures DesignerLocked(Some(session), Some(order)) <==> order.designer.Some?
    ensures !DesignerLocked(Some(session), None)
  {
  }

  /** The text fields trimmed before sending; service and budget as entered. */
  function Trimmed(c: Content): (t: Content)
    ensures t.service == c.service && t.budget == c.budget
    ensures t.description == Trim(c.description) && t.clientName == Trim(c.clientName)
    ensures t.clientPhone == Trim(c.clientPhone) && t.address == Trim(c.address)
  {
    c.(description := Trim(c.description), clientName := Trim(c.clientName),
       clientPhone := Trim(c.clientPhone), address := Trim(c.address))
  }

  /** PUT to the order when editing, POST to the collection when creating. */
  function Target(order: Option<EditedOrder>): (r: (Verb, string))
    ensures order.Some? ==> r == (Put, "/api/orders/" + order.value.id)
    ensures order.None? ==> r == (Post, "/api/orders")
  {
    if order.Some? then (Put, "/api/orders/" + order.value.id) else (Post, "/api/orders")
  }

  /** The JSON a submission carries, as the route handlers read it (no `user` field). */
  function BodyOf(c: Content, status: Option<string>, designer: Option<string>, workers: Option<seq<string>>): OrdersApi.OrderBody {
    OrdersApi.OrderBody(Some(c.service), Some(c.description), Some(c.budget), Some(c.address), Some(c.clientName),
                        Some(c.clientPhone), designer, None, status, workers)
  }

  /**
   * `onSubmit`: the values with their four text fields trimmed, sent to
   * the order being edited (PUT) or to the collection (POST).
   */
  function SubmitRequest(order: Option<EditedOrder>, v: Values): (r: Request<OrdersApi.OrderBody>)
    ensures (r.verb, r.path) == Target(order)
    ensures r.body.description == Some(Trim(v.content.description)) && r.body.address == Some(Trim(v.content.address))
    ensures r.body.clientName == Some(Trim(v.content.clientName)) && r.body.clientPhone == Some(Trim(v.content.clientPhone))
    ensures r.body.service == Some(v.content.service) && r.body.budget == Some(v.content.budget)
    ensures r.body.status == Some(v.status) && r.body.designer == Some(v.designer) && r.body.workers == Some(v.workers)
    ensures r.body.user.None?
  {
    var t := Target(order);
    Request(t.0, t.1, BodyOf(Trimmed(v.content), Some(v.status), Some(v.designer), Some(v.workers)))
  }

  /** The server's own trimming leaves the submitted text as sent. */
  lemma SubmittedTextAlreadyTrimmed(order: Option<EditedOrder>, v: Values)
    ensures var b := SubmitRequest(order, v).body;
      Trim(b.description.value) == b.description.value && Trim(b.address.value) == b.address.value &&
      Trim(b.clientName.value) == b.clientName.value && Trim(b.clientPhone.value) == b.clientPhone.value
  {
    TrimIdempotent(v.content.description);
    TrimIdempotent(v.content.address);
    TrimIdempotent(v.content.clientName);
    TrimIdempotent(v.content.clientPhone);
  }

  lemma ValidContentBounds(c: Content)
    requires ContentErrors(c) == {}
    ensures |c.service| >= 1 && c.budget >= 100
  {
    assert ServiceField !in ContentErrors(c) && BudgetField !in ContentErrors(c);
  }

  /** A valid form whose text is not all whitespace passes the create handler's required-field check. */
  lemma ValidFormHasRequiredFields(v: Values)
    requires ContentErrors(v.content) == {}
    requires Trim(v.content.description) != "" && Trim(v.content.address) != ""
    requires Trim(v.content.clientName) != "" && Trim(v.content.clientPhone) != ""
    ensures OrdersApi.HasRequiredFields(SubmitRequest(None, v).body)
  {
    ValidContentBounds(v.content);
  }

  /**
   * Validation runs before trimming: a description of ten or more spaces
   * passes the form, and the create handler then answers 400.
   */
  lemma BlankDescriptionRefusedByServer(v: Values, session: Claims, id: string, now: int, storeUp: bool)
    requires ContentErrors(v.content) == {}
    requires forall i :: 0 <= i < |v.content.description| ==> IsSpace(v.content.description[i])
    ensures OrdersApi.CreateOrderReply(Some(session), SubmitRequest(None, v).body, id, now, storeUp) ==
            Failure(400, "Missing required fields")
  {
  }

  /** The form's state while open. */
  class FormState {
    var values: Values

    constructor()
      ensures values == Defaults
    {
      values := Defaults;
    }

    /** The reset run whenever the dialog opens. */
    method Reset(order: Option<EditedOrder>)
      modifies this
      ensures values == ResetValues(order)
    {
      values := ResetValues(order);
    }

    /** A click on a worker's button. */
    method ClickWorker(id: string)
      modifies this
      ensures values == old(values).(workers := ToggleWorker(old(values).workers, id))
    {
      var current := values.workers;
      values := values.(workers := ToggleWorker(current, id));
    }

    /** A pick in the designer select; a disabled select ignores it. */
    method PickDesigner(session: Option<Claims>, order: Option<EditedOrder>, value: string)
      modifies this
      ensures DesignerLocked(session, order) ==> values == old(values)
      ensures !DesignerLocked(session, order) ==> values == old(values).(designer := DesignerChoice(value))
    {
      if !DesignerLocked(session, order) {
        values := values.(designer := DesignerChoice(value));
      }
    }
  }
}
