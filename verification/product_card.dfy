/** The catalogue tile (components/ProductCard.tsx): which image, badges and
    button state a product gets. */
module ProductCard {
  import opened Base
  import opened Types

  const PlaceholderImage := "https://via.placeholder.com/300"

  /** `Math.round(x)`: the nearest integer, halves rounded up. */
  function Round(x: real): int {
    (x + 0.5).Floor
  }

  lemma RoundPositive(x: real)
    ensures Round(x) > 0 <==> x >= 0.5
  {
  }

  lemma QuotientAtLeastHalf(n: real, b: real)
    requires b > 0.0
    ensures n / b >= 0.5 <==> 2.0 * n >= b
  {
    var q := n / b;
    assert q * b == n;
    if q >= 0.5 {
      assert q * b >= 0.5 * b;
    } else {
      assert q * b < 0.5 * b;
    }
  }

  /** For a positive old price the rounded percentage is positive exactly when the
      saving is at least half a percent. */
  lemma HalfPercent(before: int, price: int)
    requires before > 0
    ensures Round((before - price) as real * 100.0 / before as real) > 0 <==> 200 * (before - price) >= before
  {
    var n := (before - price) as real * 100.0;
    QuotientAtLeastHalf(n, before as real);
    RoundPositive(n / before as real);
    assert 2.0 * n == (200 * (before - price)) as real;
  }

  /** `oldPrice ? Math.round((oldPrice - price) / oldPrice * 100) : 0` over exact rationals. */
  function Discount(p: Product): (d: int)
    ensures !IntTruthy(p.oldPrice) ==> d == 0
    ensures p.oldPrice.Some? && p.oldPrice.value > 0 ==> (d > 0 <==> 200 * (p.oldPrice.value - p.price) >= p.oldPrice.value)
  {
    if IntTruthy(p.oldPrice) then
      var before := p.oldPrice.value;
      if before > 0 then
        HalfPercent(before, p.price);
        Round((before - p.price) as real * 100.0 / before as real)
      else
      Round((before - p.price) as real * 100.0 / before as real)
    else 0
  }

  /** `stock <= 0`; an undefined stock compares false. */
  predicate IsOutOfStock(p: Product) {
    p.stock.Some? && p.stock.value <= 0
  }

  datatype Tile = Tile(
    image: string,
    discountBadge: Option<int>,
    outOfStockOverlay: bool,
    lowStockBadge: Option<int>,
    addToCartEnabled: bool)

  /** The tile drawn for a product. */
  function Render(p: Product): (t: Tile)
    ensures |p.images| > 0 ==> t.image == p.images[0]
    ensures |p.images| == 0 ==> t.image == PlaceholderImage
    ensures t.outOfStockOverlay <==> p.stock.Some? && p.stock.value <= 0
    ensures t.addToCartEnabled <==> !t.outOfStockOverlay
    ensures t.lowStockBadge.Some? <==> p.stock.Some? && 0 < p.stock.value < 10
    ensures t.lowStockBadge.Some? ==> t.lowStockBadge == p.stock
    ensures t.discountBadge.Some? <==> Discount(p) > 0 && !t.outOfStockOverlay
    ensures t.discountBadge.Some? ==> t.discountBadge.value > 0 && t.discountBadge.value == Discount(p)
  {
    var out := IsOutOfStock(p);
    var d := Discount(p);
    Tile(
      if |p.images| > 0 then p.images[0] else PlaceholderImage,
      if d > 0 && !out then Some(d) else None,
      out,
      if p.stock.Some? && p.stock.value > 0 && p.stock.value < 10 then p.stock else None,
      !out)
  }

  /** The two stock badges never show together, and a tile with a stock count
      shows exactly one of: the overlay, the low-stock badge, or neither for 10 and up. */
  lemma StockBadgesExclusive(p: Product)
    ensures !(Render(p).outOfStockOverlay && Render(p).lowStockBadge.Some?)
    ensures p.stock.Some? && p.stock.value >= 10 ==> !Render(p).outOfStockOverlay && Render(p).lowStockBadge.None?
  {
  }
}
