/** The `Service` schema: a catalogue entry and what a save accepts. */
module ServiceModel {
  import opened Wrappers
  import opened Schema

  datatype ServiceRecord = ServiceRecord(id: string, name: string, description: string, price: int, category: string,
                                         createdAt: int, updatedAt: int)

  /** The fields given to `new Service({...})`. */
  datatype ServiceDraft = ServiceDraft(name: Option<string>, description: Option<string>, price: Option<int>, category: Option<string>)

  datatype ServicePath = NamePath | DescriptionPath | PricePath | CategoryPath

  const AllServicePaths: set<ServicePath> := {NamePath, DescriptionPath, PricePath, CategoryPath}

  /** `name` and `category` are trimmed before `required`; `price` is required with `min: 0`. */
  predicate Fails(d: ServiceDraft, p: ServicePath) {
    match p
    case NamePath => !RequiredString(TrimmedField(d.name))
    case DescriptionPath => !RequiredString(d.description)
    case PricePath => d.price.None? || d.price.value < 0
    case CategoryPath => !RequiredString(TrimmedField(d.category))
  }

  function ServiceErrors(d: ServiceDraft): (e: set<ServicePath>)
    ensures forall p :: p in e <==> Fails(d, p)
  {
    set p | p in AllServicePaths && Fails(d, p)
  }

  lemma ServiceErrorsEmptyIff(d: ServiceDraft)
    ensures ServiceErrors(d) == {} <==>
      RequiredString(TrimmedField(d.name)) && RequiredString(d.description) &&
      d.price.Some? && d.price.value >= 0 && RequiredString(TrimmedField(d.category))
  {
    var e := ServiceErrors(d);
    if e == {} {
      assert !Fails(d, NamePath) && !Fails(d, DescriptionPath) && !Fails(d, PricePath) && !Fails(d, CategoryPath);
    } else {
      var p :| p in e;
      assert Fails(d, p);
    }
  }

  /** Saving a new service: the failing paths, or the record with trimmed name and category. */
  function CreateService(d: ServiceDraft, id: string, now: int): (r: Result<ServiceRecord, set<ServicePath>>)
    ensures r.Err? <==> ServiceErrors(d) != {}
    ensures r.Err? ==> r.error == ServiceErrors(d)
    ensures r.Ok? ==>
      var s := r.value;
      s.id == id && Some(s.name) == TrimmedField(d.name) && s.name != "" && Some(s.description) == d.description &&
      Some(s.price) == d.price && s.price >= 0 && Some(s.category) == TrimmedField(d.category) && s.category != "" &&
      s.createdAt == now && s.updatedAt == now
  {
    ServiceErrorsEmptyIff(d);
    if ServiceErrors(d) != {} then Err(ServiceErrors(d))
    else Ok(ServiceRecord(id, TrimmedField(d.name).value, d.description.value, d.price.value,
                          TrimmedField(d.category).value, now, now))
  }

  /** The fields of the service text index. */
  predicate TextHit(s: ServiceRecord, search: string, matches: (string, string) -> bool) {
    matches(search, s.name) || matches(search, s.description)
  }
}
