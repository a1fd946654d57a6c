/**
 * The owner's order form: the same six content fields as the full order
 * form, and nothing a member of staff sets.
 */
module UserOrderEditForm {
  import opened Wrappers
  import opened Strings
  import opened Tokens
  import opened Http
  import OrderModel
  import OrdersApi
  import opened OrderForm

  /**
   * The owner form's schema is the full form's content schema: any staff
   * values the full form carries change nothing about acceptance.
   */
  lemma SameContentRules(c: Content, status: string, designer: string, workers: seq<string>)
    ensures OrderForm.Errors(Values(c, status, designer, workers)) == {} <==> ContentErrors(c) == {}
    ensures ContentErrors(c) == {} <==>
      |c.service| >= 1 && 10 <= |c.description| <= 500 && c.budget >= 100 &&
      2 <= |c.clientName| <= 50 && (forall i :: 0 <= i < |c.clientName| ==> NameChar(c.clientName[i])) &&
      PhonePattern(c.clientPhone) && 10 <= |c.address| <= 100
  {
    ContentErrorsEmptyIff(c);
  }

  /** The reset: the order's six fields with "" or 0 for missing ones, or empty fields when creating. */
  function ResetContent(order: Option<EditedOrder>): (c: Content)
    ensures order.None? ==> c == EmptyContent
    ensures order.Some? ==> c == ContentOf(order.value)
    ensures order.Some? && order.value.description.Some? ==> c.description == order.value.description.value
    ensures order.Some? && order.value.budget.Some? ==> c.budget == order.value.budget.value
  {
    if order.None? then EmptyContent else ContentOf(order.value)
  }

  /**
   * `onSubmit`: the six fields, four of them trimmed, sent as PUT to the
   * order or POST to the collection; no status, designer, workers or user.
   */
  function SubmitRequest(order: Option<EditedOrder>, c: Content): (r: Request<OrdersApi.OrderBody>)
    ensures (r.verb, r.path) == Target(order)
    ensures r.body.status.None? && r.body.designer.None? && r.body.workers.None? && r.body.user.None?
    ensures r.body.description == Some(Trim(c.description)) && r.body.address == Some(Trim(c.address))
    ensures r.body.clientName == Some(Trim(c.clientName)) && r.body.clientPhone == Some(Trim(c.clientPhone))
    ensures r.body.service == Some(c.service) && r.body.budget == Some(c.budget)
  {
    var t := Target(order);
    Request(t.0, t.1, BodyOf(Trimmed(c), None, None, None))
  }

  /** An order the owner creates through this form starts pending, unassigned and without workers. */
  lemma OwnerCreatesUnassigned(session: Claims, c: Content, id: string, now: int, storeUp: bool)
    requires OrdersApi.CreateOrderReply(Some(session), SubmitRequest(None, c).body, id, now, storeUp).Success?
    ensures var o := OrdersApi.CreateOrderReply(Some(session), SubmitRequest(None, c).body, id, now, storeUp).data;
      o.user == session.id && o.status == OrderModel.Pending && o.designer.None? && o.workers == [] &&
      o.description == Trim(c.description) && o.budget == c.budget
  {
    OrdersApi.CreatedOrderOwnedAndPending(session, SubmitRequest(None, c).body, id, now, storeUp);
  }

  /** The form's state: its six fields and the services offered in the select. */
  class EditFormState {
    var values: Content
    var services: seq<string>

    constructor()
      ensures values == EmptyContent && services == []
    {
      values := EmptyContent;
      services := [];
    }

    method Reset(order: Option<EditedOrder>)
      modifies this
      ensures values == ResetContent(order) && services == old(services)
    {
      values := ResetContent(order);
    }

    /** A successful fetch of the catalogue (`data.services || []`). */
    method ServicesLoaded(fetched: Option<seq<string>>)
      modifies this
      ensures services == fetched.GetOr([]) && values == old(values)
    {
      services := fetched.GetOr([]);
    }
  }
}
