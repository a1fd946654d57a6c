/** The dashboard's service form: its client-side schema, reset and submit target. */
module ServiceForm {
  import opened Wrappers
  import opened Tokens
  import opened Http
  import ServiceModel
  import ServicesApi

  /** The form's fields; `price` as the number the input coerces to. */
  datatype Values = Values(name: string, description: string, price: int, category: string)

  const Defaults: Values := Values("", "", 0, "")

  datatype Field = NameField | DescriptionField | PriceField | CategoryField

  const AllFields: set<Field> := {NameField, DescriptionField, PriceField, CategoryField}

  predicate Fails(v: Values, f: Field) {
    match f
    case NameField => |v.name| < 3
    case DescriptionField => |v.description| < 10
    case PriceField => v.price < 0
    case CategoryField => |v.category| < 3
  }

  function Errors(v: Values): (e: set<Field>)
    ensures forall f :: f in e <==> Fails(v, f)
  {
    set f | f in AllFields && Fails(v, f)
  }

  /** The schema passes exactly for a name and category of three or more characters, a description of ten, and a price of at least 0. */
  lemma ErrorsEmptyIff(v: Values)
    ensures Errors(v) == {} <==> |v.name| >= 3 && |v.description| >= 10 && v.price >= 0 && |v.category| >= 3
  {
    var e := Errors(v);
    if e == {} {
      assert !Fails(v, NameField) && !Fails(v, DescriptionField) && !Fails(v, PriceField) && !Fails(v, CategoryField);
    } else {
      var f :| f in e;
      assert Fails(v, f);
    }
  }

  /** The service being edited. */
  datatype EditedService = EditedService(id: string, name: string, description: string, price: int, category: string)

  /** The reset: the service's own fields, or the empty defaults when creating. */
  function ResetValues(service: Option<EditedService>): (v: Values)
    ensures service.None? ==> v == Defaults
    ensures service.Some? ==> v.name == service.value.name && v.description == service.value.description
    ensures service.Some? ==> v.price == service.value.price && v.category == service.value.category
  {
    if service.None? then Defaults
    else Values(service.value.name, service.value.description, service.value.price, service.value.category)
  }

  /** `onSubmit`: the values as entered, PUT to the service when editing, POST to the collection otherwise. */
  function SubmitRequest(service: Option<EditedService>, v: Values): (r: Request<ServicesApi.ServiceBody>)
    ensures service.Some? ==> r.verb == Put && r.path == "/api/services/" + service.value.id
    ensures service.None? ==> r.verb == Post && r.path == "/api/services"
    ensures r.body == ServicesApi.ServiceBody(Some(v.name), Some(v.description), Some(v.price), Some(v.category))
  {
    var body := ServicesApi.ServiceBody(Some(v.name), Some(v.description), Some(v.price), Some(v.category));
    if service.Some? then Request(Put, "/api/services/" + service.value.id, body) else Request(Post, "/api/services", body)
  }

  /**
   * The form accepts a price of 0, and the create handler refuses it as a
   * missing field: a free service can be entered but never saved.
   */
  lemma ZeroPriceAcceptedThenRefused(v: Values, session: Claims, id: string, now: int, storeUp: bool)
    requires |v.name| >= 3 && |v.description| >= 10 && |v.category| >= 3
    requires ServicesApi.MayManageServices(Some(session))
    ensures Errors(v.(price := 0)) == {}
    ensures ServicesApi.CreateServiceReply(Some(session), SubmitRequest(None, v.(price := 0)).body, id, now, storeUp) ==
            Failure(400, "Missing required fields")
  {
    ErrorsEmptyIff(v.(price := 0));
  }

  /** Any other valid price passes the handler's required-field check. */
  lemma PositivePriceHasRequiredFields(v: Values)
    requires Errors(v) == {} && v.price != 0
    ensures ServicesApi.HasRequiredFields(SubmitRequest(None, v).body)
  {
    ErrorsEmptyIff(v);
  }

  /** The form's state. */
  class FormState {
    var values: Values

    constructor()
      ensures values == Defaults
    {
      values := Defaults;
    }

    /** The reset run whenever the edited service changes. */
    method Reset(service: Option<EditedService>)
      modifies this
      ensures values == ResetValues(service)
    {
      values := ResetValues(service);
    }
  }
}
