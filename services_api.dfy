/** The `/api/services` collection route: the public catalogue and creating services. */
module ServicesApi {
  import opened Wrappers
  import opened Strings
  import opened Tokens
  import opened Schema
  import opened ServiceModel
  import opened Storage
  import opened Http

  /** The catalogue filter: an exact category when one is given, and a text search when one is given. */
  predicate Wanted(category: Option<string>, search: Option<string>, s: ServiceRecord, matches: (string, string) -> bool) {
    (Truthy(category) ==> s.category == category.value) &&
    (Truthy(search) ==> TextHit(s, search.value, matches))
  }

  function WantedBy(category: Option<string>, search: Option<string>, matches: (string, string) -> bool): ServiceRecord -> bool {
    s => Wanted(category, search, s, matches)
  }

  datatype ServicePage = ServicePage(services: seq<ServiceRecord>, totalPages: nat, currentPage: int)

  /** `GET /api/services`: needs no session; `store` is in the order the sort produces. */
  function ListServices(page: int, limit: int, category: Option<string>, search: Option<string>,
                        store: seq<ServiceRecord>, storeUp: bool, matches: (string, string) -> bool): (r: Response<ServicePage>)
    requires page >= 1 && limit >= 1
    ensures !storeUp ==> r == Failure(500, "Internal Server Error")
    ensures storeUp ==> r.Success? && r.status == 200 && r.data.currentPage == page
    ensures r.Success? ==> r.data.services == Window(Filter(store, WantedBy(category, search, matches)), (page - 1) * limit, limit)
    ensures r.Success? ==> |r.data.services| <= limit
    ensures r.Success? ==> forall i :: 0 <= i < |r.data.services| ==>
      r.data.services[i] in store && Wanted(category, search, r.data.services[i], matches)
    ensures r.Success? ==> r.data.totalPages == PageCount(|Filter(store, WantedBy(category, search, matches))|, limit)
  {
    if !storeUp then Failure(500, "Internal Server Error")
    else
      var wanted := Filter(store, WantedBy(category, search, matches));
      Success(200, ServicePage(Window(wanted, (page - 1) * limit, limit), PageCount(|wanted|, limit), page))
  }

  /** The fields of the `POST` body the schema keeps. */
  datatype ServiceBody = ServiceBody(name: Option<string>, description: Option<string>, price: Option<int>, category: Option<string>)

  predicate MayManageServices(session: Option<Claims>) {
    session.Some? && session.value.role in {"admin", "designer"}
  }

  /** `!name || !description || !price || !category`: a price of 0 counts as missing. */
  predicate HasRequiredFields(b: ServiceBody) {
    Truthy(b.name) && Truthy(b.description) && b.price.Some? && b.price.value != 0 && Truthy(b.category)
  }

  function DraftOf(b: ServiceBody): ServiceDraft {
    ServiceDraft(b.name, b.description, b.price, b.category)
  }

  /** `POST /api/services`: 403 outside admin and designer, 400 for a missing field, 500 when saving throws. */
  function CreateServiceReply(session: Option<Claims>, b: ServiceBody, id: string, now: int, storeUp: bool): (r: Response<ServiceRecord>)
    ensures !MayManageServices(session) ==> r == Failure(403, "Forbidden")
    ensures MayManageServices(session) && !HasRequiredFields(b) ==> r == Failure(400, "Missing required fields")
    ensures r.Success? <==> MayManageServices(session) && HasRequiredFields(b) && storeUp && CreateService(DraftOf(b), id, now).Ok?
    ensures r.Success? ==> r.status == 201 && r.data == CreateService(DraftOf(b), id, now).value
    ensures r.Failure? && MayManageServices(session) && HasRequiredFields(b) ==> r == Failure(500, "Internal Server Error")
  {
    if !MayManageServices(session) then Failure(403, "Forbidden")
    else if !HasRequiredFields(b) then Failure(400, "Missing required fields")
    else
      match CreateService(DraftOf(b), id, now)
      case Err(_) => Failure(500, "Internal Server Error")
      case Ok(s) => if storeUp then Success(201, s) else Failure(500, "Internal Server Error")
  }

  /** A free service: the schema's `min: 0` allows price 0, but the handler refuses it as missing. */
  lemma ZeroPriceRefused(session: Option<Claims>, b: ServiceBody, id: string, now: int, storeUp: bool)
    requires MayManageServices(session) && b.price == Some(0)
    ensures CreateServiceReply(session, b, id, now, storeUp) == Failure(400, "Missing required fields")
  {
  }

  /** The schema itself accepts a free service whose other fields are present. */
  lemma ZeroPriceSchemaValid(d: ServiceDraft)
    requires d.price == Some(0)
    requires RequiredString(TrimmedField(d.name)) && RequiredString(d.description) && RequiredString(TrimmedField(d.category))
    ensures ServiceErrors(d) == {}
  {
    ServiceErrorsEmptyIff(d);
  }

  /** A whitespace-only name passes the handler's check but not the trimmed `required`: a 500, not a 400. */
  lemma BlankNameIsServerError(session: Option<Claims>, b: ServiceBody, id: string, now: int, storeUp: bool)
    requires MayManageServices(session) && HasRequiredFields(b)
    requires forall i :: 0 <= i < |b.name.value| ==> IsSpace(b.name.value[i])
    ensures CreateServiceReply(session, b, id, now, storeUp) == Failure(500, "Internal Server Error")
  {
    assert NamePath in ServiceErrors(DraftOf(b));
  }

  /** The handler with its collection: a created service is appended, a refused one leaves the store unchanged. */
  method PostService(services: Collection<ServiceRecord>, session: Option<Claims>, b: ServiceBody, id: string, now: int, storeUp: bool)
    returns (r: Response<ServiceRecord>)
    modifies services
    ensures r == CreateServiceReply(session, b, id, now, storeUp)
    ensures services.records == old(services.records) + (if r.Success? then [r.data] else [])
  {
    r := CreateServiceReply(session, b, id, now, storeUp);
    if r.Success? {
      services.Insert(r.data);
    }
  }
}
