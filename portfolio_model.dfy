/** The `PortfolioItem` schema: a showcased project and what a save accepts. */
module PortfolioModel {
  import opened Wrappers
  import opened Schema

  datatype PortfolioItem = PortfolioItem(id: string, user: string, title: string, description: string, imageUrl: string,
                                         category: string, createdAt: int, updatedAt: int)

  /** The fields given to `new PortfolioItem({...})`. */
  datatype PortfolioDraft = PortfolioDraft(user: Option<string>, title: Option<string>, description: Option<string>,
                                           imageUrl: Option<string>, category: Option<string>)

  datatype PortfolioPath = UserPath | TitlePath | DescriptionPath | ImageUrlPath | CategoryPath

  const AllPortfolioPaths: set<PortfolioPath> := {UserPath, TitlePath, DescriptionPath, ImageUrlPath, CategoryPath}

  /** `user` is a required id; `title` and `category` are trimmed before `required`. */
  predicate Fails(d: PortfolioDraft, p: PortfolioPath) {
    match p
    case UserPath => !RequiredId(d.user)
    case TitlePath => !RequiredString(TrimmedField(d.title))
    case DescriptionPath => !RequiredString(d.description)
    case ImageUrlPath => !RequiredString(d.imageUrl)
    case CategoryPath => !RequiredString(TrimmedField(d.category))
  }

  function PortfolioErrors(d: PortfolioDraft): (e: set<PortfolioPath>)
    ensures forall p :: p in e <==> Fails(d, p)
  {
    set p | p in AllPortfolioPaths && Fails(d, p)
  }

  lemma PortfolioErrorsEmptyIff(d: PortfolioDraft)
    ensures PortfolioErrors(d) == {} <==>
      RequiredId(d.user) && RequiredString(TrimmedField(d.title)) && RequiredString(d.description) &&
      RequiredString(d.imageUrl) && RequiredString(TrimmedField(d.category))
  {
    var e := PortfolioErrors(d);
    if e == {} {
      assert !Fails(d, UserPath) && !Fails(d, TitlePath) && !Fails(d, DescriptionPath);
      assert !Fails(d, ImageUrlPath) && !Fails(d, CategoryPath);
    } else {
      var p :| p in e;
      assert Fails(d, p);
    }
  }

  /** Saving a new item: the failing paths, or the record with trimmed title and category. */
  function CreatePortfolioItem(d: PortfolioDraft, id: string, now: int): (r: Result<PortfolioItem, set<PortfolioPath>>)
    ensures r.Err? <==> PortfolioErrors(d) != {}
    ensures r.Err? ==> r.error == PortfolioErrors(d)
    ensures d.user.None? ==> r.Err? && UserPath in r.error
    ensures r.Ok? ==>
      var it := r.value;
      it.id == id && Some(it.user) == d.user && Some(it.title) == TrimmedField(d.title) && it.title != "" &&
      Some(it.description) == d.description && Some(it.imageUrl) == d.imageUrl &&
      Some(it.category) == TrimmedField(d.category) && it.category != "" && it.createdAt == now && it.updatedAt == now
  {
    PortfolioErrorsEmptyIff(d);
    if PortfolioErrors(d) != {} then Err(PortfolioErrors(d))
    else Ok(PortfolioItem(id, d.user.value, TrimmedField(d.title).value, d.description.value, d.imageUrl.value,
                          TrimmedField(d.category).value, now, now))
  }
}
