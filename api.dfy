/** The remote catalogue client (src/lib/api.ts). Every network exchange is an
    input: the server's answer to each request is a parameter, and each
    operation reports the requests it sent together with its outcome. */
module Api {

  import opened Wrappers
  import Seqs

  /** What `fetch` produced: a response with `ok` true and its decoded body,
      a response with `ok` false, or a rejected promise (network failure). */
  datatype Response<T> = Success(body: T) | NotOk | Rejected

  /** A rejected `fetch` surfaces as the platform's own error; every other
      failure is an `Error` thrown by this file with a fixed message. */
  datatype ApiError = NetworkError | Thrown(message: string)

  const ProgramsFetchFailed := "Failed to fetch programs"
  const ProgramNotFound := "Program not found"
  const DetailFetchFailed := "Failed to fetch program detail"
  const EnquirySubmitFailed := "Failed to submit enquiry"

  type Outcome<T> = Result<T, ApiError>

  datatype ApiProductList = ApiProductList(
    id: string,
    name: string,
    code: string,
    categoryName: string,
    brandName: string,
    slug: string,
    thumbnailUrl: string,
    price: real,
    shortDescription: Option<string>,
    serviceType: Option<string>,
    duration: Option<string>)

  datatype Media = Media(url: string, kind: string, fileName: string)

  datatype Attribute = Attribute(name: string, value: string)

  /** `serviceDetails.type` is called `kind` here (`type` is a Dafny keyword). */
  datatype ServiceDetails = ServiceDetails(duration: string, kind: string)

  /** The detail record: the list fields plus the detail-only ones.
      `variants` and `prices` are untyped in the source and unused. */
  datatype ApiProductDetail = ApiProductDetail(
    id: string,
    name: string,
    code: string,
    categoryName: string,
    brandName: string,
    slug: string,
    thumbnailUrl: string,
    price: real,
    serviceType: Option<string>,
    duration: Option<string>,
    shortDescription: string,
    longDescription: string,
    metaTitle: string,
    metaDescription: string,
    media: seq<Media>,
    attributes: seq<Attribute>,
    features: seq<string>,
    serviceDetails: Option<ServiceDetails>)

  datatype EnquiryDto = EnquiryDto(
    name: string,
    email: string,
    phone: string,
    courseId: Option<string>,
    courseName: Option<string>,
    message: Option<string>)

  datatype GalleryItem = GalleryItem(
    id: string,
    title: string,
    description: string,
    mediaUrl: string,
    mediaType: string,
    isFeatured: bool)

  /** The requests this client sends, each to `{base}/{subscriber}/...`. */
  datatype Request =
    | GetCategories                // GET  .../categories
    | GetProducts                  // GET  .../products
    | GetProduct(id: string)       // GET  .../products/{id}
    | PostEnquiry(dto: EnquiryDto) // POST .../enquiries
    | GetGallery                   // GET  .../gallery

  /** An operation's outcome and the requests it sent, in order. */
  datatype Exchange<T> = Exchange(result: Outcome<T>, sent: seq<Request>)

  /** `fetchCategories`: a non-ok answer reads as no categories. */
  function FetchCategories(answer: Response<seq<string>>): (x: Exchange<seq<string>>)
    ensures x.sent == [GetCategories]
    ensures answer.NotOk? ==> x.result == Ok([])
    ensures answer.Success? ==> x.result == Ok(answer.body)
    ensures x.result.Err? <==> answer.Rejected?
  {
    var result := match answer
      case Success(body) => Ok(body)
      case NotOk => Ok([])
      case Rejected => Err(NetworkError);
    Exchange(result, [GetCategories])
  }

  /** `fetchPrograms`: unlike the other list reads, a non-ok answer throws. */
  function FetchPrograms(answer: Response<seq<ApiProductList>>): (x: Exchange<seq<ApiProductList>>)
    ensures x.sent == [GetProducts]
    ensures answer.NotOk? ==> x.result == Err(Thrown(ProgramsFetchFailed))
    ensures answer.Success? ==> x.result == Ok(answer.body)
    ensures answer.Rejected? ==> x.result == Err(NetworkError)
  {
    var result := match answer
      case Success(body) => Ok(body)
      case NotOk => Err(Thrown(ProgramsFetchFailed))
      case Rejected => Err(NetworkError);
    Exchange(result, [GetProducts])
  }

  /** The product `fetchProgramDetail(key)` resolves: the first listed one whose
      slug or id equals the key. */
  function MatchProduct(products: seq<ApiProductList>, key: string): (r: Option<ApiProductList>)
    ensures r.Some? ==> r.value in products && (r.value.slug == key || r.value.id == key)
    ensures r.None? <==> forall p :: p in products ==> p.slug != key && p.id != key
  {
    Seqs.Find(products, (p: ApiProductList) => p.slug == key || p.id == key)
  }

  /** `fetchProgramDetail(key)`: list every product, resolve the key, then ask
      for the detail of the resolved product by its id. `detail(id)` is the
      server's answer to `GET .../products/{id}`. */
  function FetchProgramDetail(key: string, listAnswer: Response<seq<ApiProductList>>,
                              detail: string -> Response<ApiProductDetail>): (x: Exchange<ApiProductDetail>)
    ensures |x.sent| >= 1 && x.sent[0] == GetProducts
    ensures x.result.Ok? ==>
      && listAnswer.Success?
      && MatchProduct(listAnswer.body, key).Some?
      && x.sent == [GetProducts, GetProduct(MatchProduct(listAnswer.body, key).value.id)]
      && detail(MatchProduct(listAnswer.body, key).value.id) == Success(x.result.value)
  {
    var listed := FetchPrograms(listAnswer);
    match listed.result
    case Err(e) => Exchange(Err(e), listed.sent)
    case Ok(products) =>
      match MatchProduct(products, key)
      case None => Exchange(Err(Thrown(ProgramNotFound)), listed.sent)
      case Some(product) =>
        var result := match detail(product.id)
          case Success(body) => Ok(body)
          case NotOk => Err(Thrown(DetailFetchFailed))
          case Rejected => Err(NetworkError);
        Exchange(result, listed.sent + [GetProduct(product.id)])
  }

  /** `createEnquiry`: the one write; any failure is raised to the caller. */
  function CreateEnquiry(dto: EnquiryDto, answer: Response<()>): (x: Exchange<()>)
    ensures x.sent == [PostEnquiry(dto)]
    ensures x.result.Ok? <==> answer.Success?
    ensures answer.NotOk? ==> x.result == Err(Thrown(EnquirySubmitFailed))
    ensures answer.Rejected? ==> x.result == Err(NetworkError)
  {
    var result := match answer
      case Success(_) => Ok(())
      case NotOk => Err(Thrown(EnquirySubmitFailed))
      case Rejected => Err(NetworkError);
    Exchange(result, [PostEnquiry(dto)])
  }

  /** `fetchGallery`: a non-ok answer reads as an empty gallery. */
  function FetchGallery(answer: Response<seq<GalleryItem>>): (x: Exchange<seq<GalleryItem>>)
    ensures x.sent == [GetGallery]
    ensures answer.NotOk? ==> x.result == Ok([])
    ensures answer.Success? ==> x.result == Ok(answer.body)
    ensures x.result.Err? <==> answer.Rejected?
  {
    var result := match answer
      case Success(body) => Ok(body)
      case NotOk => Ok([])
      case Rejected => Err(NetworkError);
    Exchange(result, [GetGallery])
  }

  // ----- fetchProgramDetail -----

  /** The key resolves to the product at the first index whose slug or id
      equals it. */
  lemma {:induction false} MatchIsFirst(products: seq<ApiProductList>, key: string, k: nat)
    requires k < |products| && (products[k].slug == key || products[k].id == key)
    requires forall j :: 0 <= j < k ==> products[j].slug != key && products[j].id != key
    ensures MatchProduct(products, key) == Some(products[k])
  {
    Seqs.FindFirst(products, (p: ApiProductList) => p.slug == key || p.id == key, k);
  }

  /** No listed product matches: "Program not found", and the only request sent
      is the listing. */
  lemma NotFoundSendsNoDetailRequest(key: string, products: seq<ApiProductList>,
                                     detail: string -> Response<ApiProductDetail>)
    requires forall p :: p in products ==> p.slug != key && p.id != key
    ensures FetchProgramDetail(key, Success(products), detail) == Exchange(Err(Thrown(ProgramNotFound)), [GetProducts])
  {
  }

  /** A match: the detail request is addressed by the matched product's id,
      not by the key, and its answer decides the outcome. */
  lemma DetailRequestedByMatchedId(key: string, products: seq<ApiProductList>,
                                   detail: string -> Response<ApiProductDetail>)
    requires MatchProduct(products, key).Some?
    ensures var p := MatchProduct(products, key).value;
      && (p.slug == key || p.id == key)
      && var x := FetchProgramDetail(key, Success(products), detail);
      && x.sent == [GetProducts, GetProduct(p.id)]
      && (detail(p.id).Success? ==> x.result == Ok(detail(p.id).body))
      && (detail(p.id).NotOk? ==> x.result == Err(Thrown(DetailFetchFailed)))
      && (detail(p.id).Rejected? ==> x.result == Err(NetworkError))
  {
  }

  /** The outcome depends on the detail server only at the matched id. */
  lemma {:induction false} DetailOnlyAtMatchedId(key: string, products: seq<ApiProductList>,
                                                 d1: string -> Response<ApiProductDetail>,
                                                 d2: string -> Response<ApiProductDetail>)
    requires forall p :: p in products && (p.slug == key || p.id == key) ==> d1(p.id) == d2(p.id)
    ensures FetchProgramDetail(key, Success(products), d1) == FetchProgramDetail(key, Success(products), d2)
  {
    var m := MatchProduct(products, key);
    if m.Some? {
      assert m.value in products;
    }
  }

  /** A failed listing propagates its own error and no detail request is sent. */
  lemma ListingFailurePropagates(key: string, detail: string -> Response<ApiProductDetail>)
    ensures FetchProgramDetail(key, NotOk, detail) == Exchange(Err(Thrown(ProgramsFetchFailed)), [GetProducts])
    ensures FetchProgramDetail(key, Rejected, detail) == Exchange(Err(NetworkError), [GetProducts])
  {
  }

  /** Asking by a product's slug or by its id gives the same answer when that
      product is the first one either key resolves to. */
  lemma {:induction false} SlugAndIdAgree(products: seq<ApiProductList>, k: nat,
                                          detail: string -> Response<ApiProductDetail>)
    requires k < |products|
    requires forall j :: 0 <= j < k ==>
      products[j].slug != products[k].slug && products[j].id != products[k].slug &&
      products[j].slug != products[k].id && products[j].id != products[k].id
    ensures FetchProgramDetail(products[k].slug, Success(products), detail)
         == FetchProgramDetail(products[k].id, Success(products), detail)
  {
    MatchIsFirst(products, products[k].slug, k);
    MatchIsFirst(products, products[k].id, k);
  }
}
