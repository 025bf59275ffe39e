/** The landing page (pages/Home.tsx): catalogue fetch with normalisation and
    demo fallback, the category filter, and the hero slider. */
module HomePage {
  import opened Base
  import opened Types
  import opened Api
  import opened Seqs
  import opened Catalog

  const DefaultStock := 50

  /** The random draws standing in for a missing rating and review count. */
  datatype Roll = Roll(rating: real, reviews: int)

  /** The range `4.2 + Math.random() * 0.8` and `Math.floor(Math.random() * 2000)` can produce. */
  predicate ValidRoll(r: Roll) {
    4.2 <= r.rating < 5.0 && 0 <= r.reviews < 2000
  }

  /** One record of the list fetch made canonical. Stock defaults only when
      absent, so an explicit 0 survives; rating and review count default when falsy. */
  function Normalise(p: RawProduct, roll: Roll): (r: Product)
    ensures r.id == CanonicalId(p) && r.name == CanonicalName(p) && r.images == CanonicalImages(p)
    ensures p.stock.Some? ==> r.stock == p.stock
    ensures p.stock.None? ==> r.stock == Some(DefaultStock)
    ensures RealTruthy(p.rating) ==> r.rating == p.rating
    ensures !RealTruthy(p.rating) ==> r.rating == Some(roll.rating)
    ensures IntTruthy(p.reviews) ==> r.reviews == p.reviews
    ensures !IntTruthy(p.reviews) ==> r.reviews == Some(roll.reviews)
    ensures r.category == p.category && r.description == p.description && r.brand == p.brand
    ensures r.price == p.price && r.oldPrice == p.oldPrice
  {
    Product(
      CanonicalId(p),
      CanonicalName(p),
      p.description,
      p.price,
      p.category,
      p.brand,
      Some(p.stock.GetOr(DefaultStock)),
      CanonicalImages(p),
      Some(RealOr(p.rating, roll.rating)),
      Some(IntOr(p.reviews, roll.reviews)),
      p.oldPrice)
  }

  /** A record already in canonical form, with stock, rating and review count
      present, is returned unchanged. */
  lemma NormaliseFixesCanonical(q: Product, roll: Roll)
    requires q.stock.Some? && RealTruthy(q.rating) && IntTruthy(q.reviews)
    ensures Normalise(Embed(q), roll) == q
  {
  }

  /** `data.map(...)`: position `from + k` of the list draws `roll(from + k)`. */
  function NormaliseAll(data: seq<RawProduct>, roll: nat -> Roll, from: nat): (r: seq<Product>)
    ensures |r| == |data|
    ensures forall k :: 0 <= k < |data| ==> r[k] == Normalise(data[k], roll(from + k))
    decreases |data|
  {
    if |data| == 0 then []
    else [Normalise(data[0], roll(from))] + NormaliseAll(data[1..], roll, from + 1)
  }

  datatype HomeState = HomeState(products: seq<Product>, loading: bool, error: Option<string>, demo: bool, slide: int)

  /** The list `fetchProducts` works on, or `None` when it fails: a rejected
      request, or a body that is not a list (its `map` throws). */
  function FetchedList(response: Settled<ResponseBody>): Option<seq<RawProduct>> {
    match response
    case Resolved(body) => ProductList(body)
    case Rejected(_) => None
  }

  /** The error `handleApiError` reports for a failed fetch; the `TypeError` of
      a non-list body carries no response. */
  function FetchError(response: Settled<ResponseBody>): HttpError {
    match response
    case Resolved(_) => NoResponse
    case Rejected(e) => e
  }

  /** `fetchProducts`: error and demo flag are cleared at the start; a failure
      or an empty list falls back to the mock catalogue in demo mode, and only a
      failure sets the error. */
  function FetchProducts(s: HomeState, response: Settled<ResponseBody>, roll: nat -> Roll,
                         mock: seq<Product>, protocol: string): (r: HomeState)
    ensures !r.loading && r.slide == s.slide
    ensures r.error.Some? <==> FetchedList(response).None?
    ensures r.error.Some? ==> r.error.value == HandleApiError(FetchError(response), protocol)
    ensures r.demo <==> FetchedList(response).None? || FetchedList(response) == Some([])
    ensures r.demo ==> r.products == mock
    ensures !r.demo ==> |r.products| == |FetchedList(response).value| > 0
    ensures !r.demo ==> forall k :: 0 <= k < |r.products| ==>
              r.products[k] == Normalise(FetchedList(response).value[k], roll(k))
  {
    var started := s.(loading := true, error := None, demo := false);
    var settled :=
      match FetchedList(response)
      case None =>
        started.(error := Some(HandleApiError(FetchError(response), protocol)), products := mock, demo := true)
      case Some(data) =>
        var mapped := NormaliseAll(data, roll, 0);
        if |mapped| == 0 then started.(products := mock, demo := true)
        else started.(products := mapped);
    settled.(loading := false)
  }

  /** With valid draws, every rating shown is the backend's or lies in [4.2, 5). */
  lemma FetchedRatings(s: HomeState, response: Settled<ResponseBody>, roll: nat -> Roll,
                       mock: seq<Product>, protocol: string, k: nat)
    requires forall i :: ValidRoll(roll(i))
    requires var r := FetchProducts(s, response, roll, mock, protocol); !r.demo && k < |r.products|
    ensures var q := FetchProducts(s, response, roll, mock, protocol).products[k];
            var p := FetchedList(response).value[k];
            q.rating == p.rating || (q.rating.Some? && 4.2 <= q.rating.value < 5.0)
  {
  }

  /** A filter is on only for a truthy `category` parameter. */
  predicate FilterOn(filter: Option<string>) {
    StringTruthy(filter)
  }

  /** The product's category equals the filter up to `lower`, the page's
      `toLowerCase`. A product without a category is in no category. */
  predicate InCategory(p: Product, filter: string, lower: string -> string) {
    p.category.Some? && lower(p.category.value) == lower(filter)
  }

  /** `filteredProducts` as written: `p.category.toLowerCase()` throws on a
      product without a category, so the render fails (`None`). */
  function FilterAsWritten(products: seq<Product>, filter: Option<string>, lower: string -> string): (r: Option<seq<Product>>)
    ensures r.None? <==> FilterOn(filter) && exists k :: 0 <= k < |products| && products[k].category.None?
    ensures r.Some? && FilterOn(filter) ==> r.value == Filter(products, p => InCategory(p, filter.value, lower))
    ensures !FilterOn(filter) ==> r == Some(products)
  {
    if !FilterOn(filter) then Some(products)
    else if exists k :: 0 <= k < |products| && products[k].category.None? then None
    else Some(Filter(products, p => InCategory(p, filter.value, lower)))
  }

  /** The filter with a missing category treated as not matching. */
  function FilterByCategory(products: seq<Product>, filter: Option<string>, lower: string -> string): (r: seq<Product>)
    ensures !FilterOn(filter) ==> r == products
    ensures FilterOn(filter) ==> forall k :: 0 <= k < |r| ==> InCategory(r[k], filter.value, lower)
    ensures FilterOn(filter) ==> forall p :: p in products && InCategory(p, filter.value, lower) ==> p in r
    ensures forall p :: p in r ==> p in products
    ensures |r| <= |products|
  {
    if FilterOn(filter) then Filter(products, p => InCategory(p, filter.value, lower)) else products
  }

  /** The filter keeps relative order: filtering two lists one after the other
      is filtering their concatenation. */
  lemma FilterKeepsOrder(a: seq<Product>, b: seq<Product>, filter: Option<string>, lower: string -> string)
    ensures FilterByCategory(a + b, filter, lower) == FilterByCategory(a, filter, lower) + FilterByCategory(b, filter, lower)
  {
    if FilterOn(filter) {
      FilterConcat(a, b, p => InCategory(p, filter.value, lower));
    }
  }

  /** A product without a category and an active filter: the page as written
      throws, the corrected filter shows no products. */
  lemma UncategorisedProductBreaksFilter(q: Product, lower: string -> string)
    requires q.category.None?
    ensures FilterAsWritten([q], Some("Fashion"), lower).None?
    ensures FilterByCategory([q], Some("Fashion"), lower) == []
  {
    assert [q][0].category.None?;
  }

  /** When every product has a category the two filters agree. */
  lemma FiltersAgreeOnCategorised(products: seq<Product>, filter: Option<string>, lower: string -> string)
    requires forall k :: 0 <= k < |products| ==> products[k].category.Some?
    ensures FilterAsWritten(products, filter, lower) == Some(FilterByCategory(products, filter, lower))
  {
  }

  /** The right arrow: the last slide wraps to the first. */
  function NextSlide(i: int, count: int): (r: int)
    ensures 0 <= i < count ==> 0 <= r < count
    ensures 0 <= i < count ==> r == (i + 1) % count
  {
    if i == count - 1 then 0 else i + 1
  }

  /** The left arrow: the first slide wraps to the last. */
  function PrevSlide(i: int, count: int): (r: int)
    ensures 0 <= i < count ==> 0 <= r < count
    ensures 0 <= i < count ==> r == (i - 1) % count
  {
    if i == 0 then count - 1 else i - 1
  }

  /** The arrows undo each other. */
  lemma ArrowsUndo(i: int, count: int)
    requires 0 <= i < count
    ensures PrevSlide(NextSlide(i, count), count) == i
    ensures NextSlide(PrevSlide(i, count), count) == i
  {
  }

  function NextTimes(i: int, count: int, n: nat): int
    decreases n
  {
    if n == 0 then i else NextSlide(NextTimes(i, count, n - 1), count)
  }

  lemma {:induction false} NextTimesAdds(i: int, count: int, n: nat, m: nat)
    ensures NextTimes(i, count, n + m) == NextTimes(NextTimes(i, count, n), count, m)
    decreases m
  {
    if m > 0 {
      NextTimesAdds(i, count, n, m - 1);
    }
  }

  /** From slide 0, `n` presses short of a full turn reach slide `n`. */
  lemma {:induction false} NextTimesFromStart(count: int, n: nat)
    requires n < count
    ensures NextTimes(0, count, n) == n
    decreases n
  {
    if n > 0 {
      NextTimesFromStart(count, n - 1);
    }
  }

  /** From slide `i`, `count - i` presses wrap round to slide 0. */
  lemma {:induction false} NextTimesToStart(i: int, count: int, n: nat)
    requires 0 <= i < count && n == count - i
    ensures NextTimes(i, count, n) == 0
    decreases n
  {
    if n == 1 {
      assert NextTimes(i, count, 0) == i;
    } else {
      NextTimesAdds(i, count, 1, n - 1);
      assert NextTimes(i, count, 1) == i + 1 by {
        assert NextTimes(i, count, 0) == i;
      }
      NextTimesToStart(i + 1, count, n - 1);
    }
  }

  /** Pressing the right arrow once per slide brings every slide back to itself. */
  lemma FullTurn(i: int, count: int)
    requires 0 <= i < count
    ensures NextTimes(i, count, count) == i
  {
    NextTimesAdds(i, count, count - i, i);
    NextTimesToStart(i, count, count - i);
    NextTimesFromStart(count, i);
  }
}
