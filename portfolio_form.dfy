/**
 * The dashboard's portfolio form: its client-side schema, reset and
 * submit target. The URL test is the validator library's and enters as
 * the parameter `isUrl`.
 */
module PortfolioForm {
  import opened Wrappers
  import opened Tokens
  import opened Http
  import PortfolioApi

  datatype Values = Values(title: string, description: string, imageUrl: string, category: string)

  const Defaults: Values := Values("", "", "", "")

  datatype Field = TitleField | DescriptionField | ImageUrlField | CategoryField

  const AllFields: set<Field> := {TitleField, DescriptionField, ImageUrlField, CategoryField}

  predicate Fails(v: Values, f: Field, isUrl: string -> bool) {
    match f
    case TitleField => |v.title| < 2
    case DescriptionField => |v.description| < 10
    case ImageUrlField => !isUrl(v.imageUrl)
    case CategoryField => |v.category| < 2
  }

  function Errors(v: Values, isUrl: string -> bool): (e: set<Field>)
    ensures forall f :: f in e <==> Fails(v, f, isUrl)
  {
    set f | f in AllFields && Fails(v, f, isUrl)
  }

  /** The schema passes exactly for a title and category of two or more characters, a description of ten, and a URL. */
  lemma ErrorsEmptyIff(v: Values, isUrl: string -> bool)
    ensures Errors(v, isUrl) == {} <==> |v.title| >= 2 && |v.description| >= 10 && isUrl(v.imageUrl) && |v.category| >= 2
  {
    var e := Errors(v, isUrl);
    if e == {} {
      assert !Fails(v, TitleField, isUrl) && !Fails(v, DescriptionField, isUrl);
      assert !Fails(v, ImageUrlField, isUrl) && !Fails(v, CategoryField, isUrl);
    } else {
      var f :| f in e;
      assert Fails(v, f, isUrl);
    }
  }

  /** The item being edited. */
  datatype EditedItem = EditedItem(id: string, title: string, description: string, imageUrl: string, category: string)

  /** The reset: the item's own fields, or the empty defaults when creating. */
  function ResetValues(item: Option<EditedItem>): (v: Values)
    ensures item.None? ==> v == Defaults
    ensures item.Some? ==> v.title == item.value.title && v.description == item.value.description
    ensures item.Some? ==> v.imageUrl == item.value.imageUrl && v.category == item.value.category
  {
    if item.None? then Defaults
    else Values(item.value.title, item.value.description, item.value.imageUrl, item.value.category)
  }

  /** `onSubmit`: the values as entered, PUT to the item when editing, POST to the collection otherwise; no `user`. */
  function SubmitRequest(item: Option<EditedItem>, v: Values): (r: Request<PortfolioApi.PortfolioBody>)
    ensures item.Some? ==> r.verb == Put && r.path == "/api/portfolio/" + item.value.id
    ensures item.None? ==> r.verb == Post && r.path == "/api/portfolio"
    ensures r.body == PortfolioApi.PortfolioBody(Some(v.title), Some(v.description), Some(v.imageUrl), Some(v.category), None)
  {
    var body := PortfolioApi.PortfolioBody(Some(v.title), Some(v.description), Some(v.imageUrl), Some(v.category), None);
    if item.Some? then Request(Put, "/api/portfolio/" + item.value.id, body) else Request(Post, "/api/portfolio", body)
  }

  /**
   * A form that passes its schema passes the create handler's
   * required-field check, provided the URL test refuses the empty string.
   */
  lemma ValidFormHasRequiredFields(v: Values, isUrl: string -> bool)
    requires Errors(v, isUrl) == {} && !isUrl("")
    ensures PortfolioApi.HasRequiredFields(SubmitRequest(None, v).body)
  {
    ErrorsEmptyIff(v, isUrl);
  }

  /** The form's state. */
  class FormState {
    var values: Values

    constructor()
      ensures values == Defaults
    {
      values := Defaults;
    }

    method Reset(item: Option<EditedItem>)
      modifies this
      ensures values == ResetValues(item)
    {
      values := ResetValues(item);
    }
  }
}
