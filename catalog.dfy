/** The catalogue adapter (src/hooks/usePrograms.ts): API product records
    become the UI's `Program`, with a default for every missing value. */
module Catalog {

  import opened Wrappers
  import opened Text
  import Seqs
  import Api

  datatype CurriculumModule = CurriculumModule(title: string, topics: seq<string>)

  /** The UI record. `mode` is whatever string the API sent: the source only
      casts it to its three-value type, it never checks it. */
  datatype Program = Program(
    id: string,
    name: string,
    category: string,
    duration: string,
    mode: string,
    fees: string,
    description: string,
    longDescription: Option<string>,
    highlights: seq<string>,
    curriculum: seq<CurriculumModule>,
    eligibility: seq<string>,
    careerOutcomes: seq<string>,
    image: string,
    featured: bool)

  /** The library code the adapter calls: `JSON.parse` (at the two result
      types it is used at; `None` when it throws) and the en-IN rupee
      formatter `Intl.NumberFormat(...).format`. */
  datatype Collaborators = Collaborators(
    parseCurriculum: string -> Option<seq<CurriculumModule>>,
    parseStrings: string -> Option<seq<string>>,
    formatInr: real -> string)

  const FallbackImage := "https://images.unsplash.com/photo-1551288049-bebda4e38f71"
  const DefaultDuration := "TBD"
  const DefaultMode := "Online"
  const DefaultCategory := "General"
  const DefaultHighlights := ["Industry recognized"]

  predicate Named(key: string, a: Api.Attribute) { a.name == key }

  /** `attributes.find(a => a.name === key)`. */
  function FindAttribute(attributes: seq<Api.Attribute>, key: string): (r: Option<Api.Attribute>)
  {
    Seqs.Find(attributes, (a: Api.Attribute) => Named(key, a))
  }

  /** `parseJsonAttribute(attributes, key, defaultValue)`. */
  function ParseJsonAttribute<T>(attributes: seq<Api.Attribute>, key: string, default: T,
                                 parse: string -> Option<T>): (r: T)
    ensures (forall a :: a in attributes ==> a.name != key) ==> r == default
  {
    match FindAttribute(attributes, key)
    case None => default
    case Some(attr) => parse(attr.value).GetOr(default)
  }

  /** `parseJsonAttribute` consults exactly the first attribute with the key:
      its parsed value if it parses, the default if it does not. */
  lemma {:induction false} ParseJsonAttributeFirst<T>(attributes: seq<Api.Attribute>, key: string,
                                                      default: T, parse: string -> Option<T>, k: nat)
    requires k < |attributes| && attributes[k].name == key
    requires forall j :: 0 <= j < k ==> attributes[j].name != key
    ensures parse(attributes[k].value).None? ==> ParseJsonAttribute(attributes, key, default, parse) == default
    ensures parse(attributes[k].value).Some? ==>
      ParseJsonAttribute(attributes, key, default, parse) == parse(attributes[k].value).value
  {
    Seqs.FindFirst(attributes, (a: Api.Attribute) => Named(key, a), k);
  }

  /** Attributes after the first one with the key are ignored, whatever they hold. */
  lemma {:induction false} ParseJsonAttributeIgnoresLater<T>(attributes: seq<Api.Attribute>, later: seq<Api.Attribute>,
                                                             key: string, default: T, parse: string -> Option<T>)
    requires exists a :: a in attributes && a.name == key
    ensures ParseJsonAttribute(attributes + later, key, default, parse)
         == ParseJsonAttribute(attributes, key, default, parse)
  {
    Seqs.FindPrefix(attributes, later, (a: Api.Attribute) => Named(key, a));
  }

  /** `attributes.find(a => a.name === name)?.value`. */
  function AttributeValue(attributes: seq<Api.Attribute>, name: string): (r: Option<string>)
    ensures r.None? <==> forall a :: a in attributes ==> a.name != name
    ensures r.Some? ==> Api.Attribute(name, r.value) in attributes
  {
    match FindAttribute(attributes, name)
    case None => None
    case Some(a) => Some(a.value)
  }

  /** `serviceDetails?.duration || find('Duration')?.value || 'TBD'`. */
  function DetailDuration(p: Api.ApiProductDetail): (r: string)
    ensures r != ""
  {
    var fromService := if p.serviceDetails.Some? then Some(p.serviceDetails.value.duration) else None;
    OrOpt(fromService, OrOpt(AttributeValue(p.attributes, "Duration"), DefaultDuration))
  }

  /** `serviceDetails?.type || find('Mode')?.value || 'Online'`, unchecked. */
  function DetailMode(p: Api.ApiProductDetail): (r: string)
    ensures r != ""
  {
    var fromService := if p.serviceDetails.Some? then Some(p.serviceDetails.value.kind) else None;
    OrOpt(fromService, OrOpt(AttributeValue(p.attributes, "Mode"), DefaultMode))
  }

  /** `adaptProductToProgram`: the detail record as a UI program. */
  function AdaptProductToProgram(p: Api.ApiProductDetail, env: Collaborators): (r: Program)
    ensures r.duration != "" && r.mode != "" && r.image != "" && r.highlights != []
    ensures !r.featured
    ensures r.name == p.name && r.category == p.categoryName
    ensures r.id == p.slug || r.id == p.id
    ensures r.fees == env.formatInr(p.price)
    ensures p.shortDescription != "" ==> r.description == p.shortDescription
    ensures p.shortDescription == "" ==> r.description == p.metaDescription
    ensures r.longDescription == Some(p.longDescription)
    ensures p.thumbnailUrl != "" ==> r.image == p.thumbnailUrl
    ensures p.thumbnailUrl == "" ==> r.image == FallbackImage
  {
    Program(
      id := Or(p.slug, p.id),
      name := p.name,
      category := p.categoryName,
      duration := DetailDuration(p),
      mode := DetailMode(p),
      fees := env.formatInr(p.price),
      description := Or(p.shortDescription, p.metaDescription),
      longDescription := Some(Or(p.longDescription, "")),
      highlights := if |p.features| > 0 then p.features else DefaultHighlights,
      curriculum := ParseJsonAttribute(p.attributes, "JSON_Curriculum", [], env.parseCurriculum),
      eligibility := ParseJsonAttribute(p.attributes, "JSON_Eligibility", [], env.parseStrings),
      careerOutcomes := ParseJsonAttribute(p.attributes, "JSON_CareerOutcomes", [], env.parseStrings),
      image := Or(p.thumbnailUrl, FallbackImage),
      featured := false)
  }

  /** One row of the list mapping inside `usePrograms`: the lightweight list
      record carries no attributes, so the array fields are all empty. */
  function AdaptListItem(formatInr: real -> string, p: Api.ApiProductList): (r: Program)
    ensures r.highlights == [] && r.curriculum == [] && r.eligibility == [] && r.careerOutcomes == []
    ensures !r.featured && r.longDescription.None?
    ensures r.category != "" && r.duration != "" && r.mode != "" && r.image != ""
    ensures p.name != "" ==> r.description != ""
    ensures r.name == p.name && r.fees == formatInr(p.price)
    ensures p.duration.Some? && p.duration.value != "" ==> r.duration == p.duration.value
    ensures p.serviceType.Some? && p.serviceType.value != "" ==> r.mode == p.serviceType.value
    ensures p.shortDescription.Some? && p.shortDescription.value != "" ==> r.description == p.shortDescription.value
  {
    Program(
      id := Or(p.slug, p.id),
      name := p.name,
      category := Or(p.categoryName, DefaultCategory),
      duration := OrOpt(p.duration, DefaultDuration),
      mode := OrOpt(p.serviceType, DefaultMode),
      fees := formatInr(p.price),
      description := OrOpt(p.shortDescription, p.name),
      longDescription := None,
      highlights := [],
      curriculum := [],
      eligibility := [],
      careerOutcomes := [],
      image := Or(p.thumbnailUrl, FallbackImage),
      featured := false)
  }

  /** `apiProducts.map(...)`: one program per product, in the same order. */
  function AdaptList(products: seq<Api.ApiProductList>, formatInr: real -> string): (r: seq<Program>)
    ensures |r| == |products|
    ensures forall i :: 0 <= i < |products| ==> r[i] == AdaptListItem(formatInr, products[i])
  {
    Seqs.Map(products, (p: Api.ApiProductList) => AdaptListItem(formatInr, p))
  }

  /** The `usePrograms` query: a failed listing is the query's error. */
  function LoadPrograms(answer: Api.Response<seq<Api.ApiProductList>>, formatInr: real -> string): (x: Api.Exchange<seq<Program>>)
    ensures x.sent == [Api.GetProducts]
    ensures answer.Success? <==> x.result.Ok?
    ensures answer.Success? ==> x.result == Ok(AdaptList(answer.body, formatInr))
    ensures answer.Success? ==> |x.result.value| == |answer.body|
    ensures !answer.Success? ==> x.result == Err(Api.FetchPrograms(answer).result.error)
  {
    var listed := Api.FetchPrograms(answer);
    match listed.result
    case Err(e) => Api.Exchange(Err(e), listed.sent)
    case Ok(products) => Api.Exchange(Ok(AdaptList(products, formatInr)), listed.sent)
  }

  /** The `useProgram(id)` query, which does not run for an empty id. */
  function LoadProgram(key: string, listAnswer: Api.Response<seq<Api.ApiProductList>>,
                       detail: string -> Api.Response<Api.ApiProductDetail>, env: Collaborators): (q: Option<Api.Exchange<Program>>)
    ensures q.None? <==> key == ""
    ensures key != "" ==> q.value.sent == Api.FetchProgramDetail(key, listAnswer, detail).sent
    ensures key != "" && Api.FetchProgramDetail(key, listAnswer, detail).result.Ok? ==>
      q.value.result == Ok(AdaptProductToProgram(Api.FetchProgramDetail(key, listAnswer, detail).result.value, env))
    ensures key != "" && Api.FetchProgramDetail(key, listAnswer, detail).result.Err? ==>
      q.value.result == Err(Api.FetchProgramDetail(key, listAnswer, detail).result.error)
  {
    if key == "" then None
    else
      var x := Api.FetchProgramDetail(key, listAnswer, detail);
      match x.result
      case Err(e) => Some(Api.Exchange(Err(e), x.sent))
      case Ok(d) => Some(Api.Exchange(Ok(AdaptProductToProgram(d, env)), x.sent))
  }

  // ----- defaulting chains of the detail adapter -----

  /** Duration precedence: a non-empty `serviceDetails.duration`, else the
      value of the FIRST `Duration` attribute when non-empty, else 'TBD'. */
  lemma DurationPrecedence(p: Api.ApiProductDetail, env: Collaborators)
    ensures var d := AdaptProductToProgram(p, env).duration;
      if p.serviceDetails.Some? && p.serviceDetails.value.duration != "" then d == p.serviceDetails.value.duration
      else if AttributeValue(p.attributes, "Duration").Some? && AttributeValue(p.attributes, "Duration").value != ""
      then d == AttributeValue(p.attributes, "Duration").value
      else d == DefaultDuration
  {
  }

  /** The attribute lookup used for duration and mode reads the first
      attribute with the name, and only when there is none reports absence. */
  lemma {:induction false} AttributeValueFirst(attributes: seq<Api.Attribute>, name: string, k: nat)
    requires k < |attributes| && attributes[k].name == name
    requires forall j :: 0 <= j < k ==> attributes[j].name != name
    ensures AttributeValue(attributes, name) == Some(attributes[k].value)
  {
    Seqs.FindFirst(attributes, (a: Api.Attribute) => Named(name, a), k);
  }

  /** Only the first `Duration` attribute counts: when its value is empty,
      no later `Duration` attribute is used and the duration is 'TBD'. */
  lemma FirstEmptyDurationAttributeWins(p: Api.ApiProductDetail, env: Collaborators, k: nat)
    requires p.serviceDetails.None? || p.serviceDetails.value.duration == ""
    requires k < |p.attributes| && p.attributes[k] == Api.Attribute("Duration", "")
    requires forall j :: 0 <= j < k ==> p.attributes[j].name != "Duration"
    ensures AdaptProductToProgram(p, env).duration == DefaultDuration
  {
    AttributeValueFirst(p.attributes, "Duration", k);
  }

  /** Mode precedence, with default 'Online'. */
  lemma ModePrecedence(p: Api.ApiProductDetail, env: Collaborators)
    ensures var m := AdaptProductToProgram(p, env).mode;
      if p.serviceDetails.Some? && p.serviceDetails.value.kind != "" then m == p.serviceDetails.value.kind
      else if AttributeValue(p.attributes, "Mode").Some? && AttributeValue(p.attributes, "Mode").value != ""
      then m == AttributeValue(p.attributes, "Mode").value
      else m == DefaultMode
  {
  }

  /** The mode is not coerced into Online/Offline/Hybrid: any non-empty
      service type passes through. */
  lemma ModeIsNotCoerced(p: Api.ApiProductDetail, env: Collaborators, kind: string)
    requires kind != "" && p.serviceDetails == Some(Api.ServiceDetails("", kind))
    ensures AdaptProductToProgram(p, env).mode == kind
  {
  }

  /** The three JSON attributes are read through `parseJsonAttribute` with an
      empty default; highlights come from `features` unless there are none. */
  lemma DetailArrayFields(p: Api.ApiProductDetail, env: Collaborators)
    ensures var r := AdaptProductToProgram(p, env);
      && r.curriculum == ParseJsonAttribute(p.attributes, "JSON_Curriculum", [], env.parseCurriculum)
      && r.eligibility == ParseJsonAttribute(p.attributes, "JSON_Eligibility", [], env.parseStrings)
      && r.careerOutcomes == ParseJsonAttribute(p.attributes, "JSON_CareerOutcomes", [], env.parseStrings)
      && (p.features != [] ==> r.highlights == p.features)
      && (p.features == [] ==> r.highlights == ["Industry recognized"])
  {
  }

  /** The UI id is the slug when there is one, the API id otherwise; the same
      rule in the detail adapter and in the list mapping. */
  lemma IdIsSlugOrId(d: Api.ApiProductDetail, l: Api.ApiProductList, env: Collaborators)
    ensures d.slug != "" ==> AdaptProductToProgram(d, env).id == d.slug
    ensures d.slug == "" ==> AdaptProductToProgram(d, env).id == d.id
    ensures l.slug != "" ==> AdaptListItem(env.formatInr, l).id == l.slug
    ensures l.slug == "" ==> AdaptListItem(env.formatInr, l).id == l.id
  {
  }

  /** List mapping defaults: category 'General', description the name,
      duration 'TBD', mode 'Online', image the fallback URL. */
  lemma ListItemDefaults(formatInr: real -> string, p: Api.ApiProductList)
    ensures var r := AdaptListItem(formatInr, p);
      && (p.categoryName == "" ==> r.category == DefaultCategory)
      && (p.categoryName != "" ==> r.category == p.categoryName)
      && (p.shortDescription.None? || p.shortDescription == Some("") ==> r.description == p.name)
      && (p.duration.None? || p.duration == Some("") ==> r.duration == DefaultDuration)
      && (p.serviceType.None? || p.serviceType == Some("") ==> r.mode == DefaultMode)
      && (p.thumbnailUrl == "" ==> r.image == FallbackImage)
      && (p.thumbnailUrl != "" ==> r.image == p.thumbnailUrl)
  {
  }
}
