/** The product page (pages/ProductDetail.tsx): lookup of the route id in the
    fetched list with fallback to the mock catalogue, and Buy Now. */
module ProductDetailPage {
  import opened Base
  import opened Types
  import opened Api
  import opened Seqs
  import opened Catalog

  const DefaultRating := 4.5
  const DefaultReviews := 150
  const DefaultCategory := "General"
  const CartRoute := "/cart"

  /** `p._id === id || p.id === id` */
  predicate HasRouteId(p: RawProduct, id: string) {
    p.mongoId == Some(id) || p.id == Some(id)
  }

  /** `data.find(...)` over a successfully fetched list; `None` when the fetch
      failed, the body is not a list, or no record carries the id. */
  function BackendMatch(response: Settled<ResponseBody>, id: string): (r: Option<RawProduct>)
    ensures r.Some? ==> response.Resolved? && ProductList(response.value).Some?
    ensures r.Some? ==> var data := ProductList(response.value).value;
              exists k :: 0 <= k < |data| && data[k] == r.value && HasRouteId(data[k], id)
                          && forall j :: 0 <= j < k ==> !HasRouteId(data[j], id)
    ensures r.None? && response.Resolved? && ProductList(response.value).Some? ==>
              forall p :: p in ProductList(response.value).value ==> !HasRouteId(p, id)
  {
    match response
    case Rejected(_) => None
    case Resolved(body) =>
      match ProductList(body)
      case None => None
      case Some(data) =>
        match FindFirst(data, (p: RawProduct) => HasRouteId(p, id))
        case Some(k) => Some(data[k])
        case None => None
  }

  /** `MOCK_PRODUCTS.find(p => p.id === id)` */
  function MockMatch(mock: seq<Product>, id: string): (r: Option<Product>)
    ensures r.Some? ==> r.value in mock && r.value.id == id
    ensures r.Some? ==> exists k :: 0 <= k < |mock| && mock[k] == r.value
                          && forall j :: 0 <= j < k ==> mock[j].id != id
    ensures r.None? ==> forall q :: q in mock ==> q.id != id
  {
    match FindFirst(mock, (q: Product) => q.id == id)
    case Some(k) => Some(mock[k])
    case None => None
  }

  /** The found record made canonical: the list page's id, name and image
      alternatives, plus fixed defaults for a falsy rating, review count and
      category. Stock is not defaulted here. */
  function Normalise(found: RawProduct): (r: Product)
    ensures r.id == CanonicalId(found) && r.name == CanonicalName(found) && r.images == CanonicalImages(found)
    ensures r.rating.Some? && r.reviews.Some? && r.category.Some?
    ensures RealTruthy(found.rating) ==> r.rating == found.rating
    ensures !RealTruthy(found.rating) ==> r.rating == Some(DefaultRating)
    ensures IntTruthy(found.reviews) ==> r.reviews == found.reviews
    ensures !IntTruthy(found.reviews) ==> r.reviews == Some(DefaultReviews)
    ensures StringTruthy(found.category) ==> r.category == found.category
    ensures !StringTruthy(found.category) ==> r.category == Some(DefaultCategory)
    ensures r.stock == found.stock && r.price == found.price && r.oldPrice == found.oldPrice
    ensures r.description == found.description && r.brand == found.brand
  {
    Product(
      CanonicalId(found),
      CanonicalName(found),
      found.description,
      found.price,
      Some(StringOr(found.category, DefaultCategory)),
      found.brand,
      found.stock,
      CanonicalImages(found),
      Some(RealOr(found.rating, DefaultRating)),
      Some(IntOr(found.reviews, DefaultReviews)),
      found.oldPrice)
  }

  datatype DetailState = DetailState(product: Option<Product>, loading: bool, demo: bool)

  function Initial(): DetailState {
    DetailState(None, true, false)
  }

  /** The mock catalogue's entry, in preview mode, when it has the id; otherwise
      the state is left alone. */
  function MockFallback(s: DetailState, id: string, mock: seq<Product>): DetailState {
    match MockMatch(mock, id)
    case Some(q) => s.(product := Some(q), demo := true)
    case None => s
  }

  /** `fetchProduct` as written. The component instance survives a change of
      route id, and neither `product` nor the preview flag is reset, so a lookup
      that finds nothing keeps showing the previous product. */
  function FetchAsWritten(s: DetailState, id: string, response: Settled<ResponseBody>, mock: seq<Product>): (r: DetailState)
    ensures !r.loading
    ensures BackendMatch(response, id).Some? ==> r.product == Some(Normalise(BackendMatch(response, id).value)) && r.demo == s.demo
    ensures BackendMatch(response, id).None? && MockMatch(mock, id).None? ==> r.product == s.product && r.demo == s.demo
    ensures BackendMatch(response, id).None? && MockMatch(mock, id).Some? ==> r.product == MockMatch(mock, id) && r.demo
  {
    var started := s.(loading := true);
    var settled :=
      match BackendMatch(response, id)
      case Some(found) => started.(product := Some(Normalise(found)))
      case None => MockFallback(started, id, mock);
    settled.(loading := false)
  }

  /** `fetchProduct` with the page's state reset for the new id, as a fresh
      mount would have it. */
  function Fetch(s: DetailState, id: string, response: Settled<ResponseBody>, mock: seq<Product>): (r: DetailState)
    ensures !r.loading
    ensures BackendMatch(response, id).Some? ==> r.product == Some(Normalise(BackendMatch(response, id).value)) && !r.demo
    ensures BackendMatch(response, id).None? ==> r.product == MockMatch(mock, id)
    ensures BackendMatch(response, id).None? ==> (r.demo <==> MockMatch(mock, id).Some?)
    ensures r.product.Some? ==> r.product.value.id == id || BackendMatch(response, id).Some?
  {
    FetchAsWritten(DetailState(None, s.loading, false), id, response, mock)
  }

  /** On the first mount the source and the corrected fetch coincide. */
  lemma FirstMountAgrees(id: string, response: Settled<ResponseBody>, mock: seq<Product>)
    ensures FetchAsWritten(Initial(), id, response, mock) == Fetch(Initial(), id, response, mock)
  {
  }

  /** The page shows product `q`, then the route changes to an id neither the
      backend nor the mock catalogue has: the source keeps showing `q`, the
      corrected fetch shows the not-found view. */
  lemma StaleProductAfterRouteChange(q: Product)
    requires q.id == "1"
    ensures var s := DetailState(Some(q), false, true);
            && FetchAsWritten(s, "404", Resolved(Listing([])), []).product == Some(q)
            && View(Fetch(s, "404", Resolved(Listing([])), [])) == NotFoundView
  {
    var s := DetailState(Some(q), false, true);
    assert BackendMatch(Resolved(Listing([])), "404").None?;
    assert MockMatch([], "404").None?;
  }

  datatype DetailView = LoadingView | NotFoundView | ProductView(product: Product, previewBanner: bool)

  function View(s: DetailState): DetailView {
    if s.loading then LoadingView
    else if s.product.None? then NotFoundView
    else ProductView(s.product.value, s.demo)
  }

  /** After a fetch the page never shows the spinner, and it shows the not-found
      view exactly when neither the backend nor the mock catalogue has the id. */
  lemma FetchedView(s: DetailState, id: string, response: Settled<ResponseBody>, mock: seq<Product>)
    ensures View(Fetch(s, id, response, mock)) != LoadingView
    ensures View(Fetch(s, id, response, mock)) == NotFoundView
            <==> BackendMatch(response, id).None? && MockMatch(mock, id).None?
  {
  }

  /** `handleBuyNow`: with a product, add it once and go to the cart; without
      one, do nothing. */
  function BuyNow(product: Option<Product>): (effects: seq<Effect>)
    ensures product.None? ==> effects == []
    ensures product.Some? ==> |effects| == 2 && effects[0] == AddToCart(product.value) && effects[1] == NavigateTo(CartRoute)
  {
    if product.Some? then [AddToCart(product.value), NavigateTo(CartRoute)] else []
  }
}
