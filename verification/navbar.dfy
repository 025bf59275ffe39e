/** The top bar (components/Navbar.tsx): the cart badge and the category links,
    which edit the `category` query parameter. */
module Navbar {
  import opened Base
  import opened Types

  /** `items.reduce((acc, item) => acc + item.quantity, 0)` */
  function CartCount(items: seq<CartItem>): (r: int)
    ensures (forall k :: 0 <= k < |items| ==> items[k].quantity >= 0) ==>
              r >= 0 && forall k :: 0 <= k < |items| ==> items[k].quantity <= r
    decreases |items|
  {
    if |items| == 0 then 0 else CartCount(items[..|items| - 1]) + items[|items| - 1].quantity
  }

  /** The badge counts units, split however the cart splits them into lines. */
  lemma {:induction false} CartCountConcat(a: seq<CartItem>, b: seq<CartItem>)
    ensures CartCount(a + b) == CartCount(a) + CartCount(b)
    decreases |b|
  {
    if |b| == 0 {
      assert a + b == a;
    } else {
      assert (a + b)[..|a + b| - 1] == a + b[..|b| - 1];
      CartCountConcat(a, b[..|b| - 1]);
    }
  }

  /** With every line holding at least one unit, the count is at least the number
      of lines, and equals it exactly when every line holds one unit. */
  lemma {:induction false} CartCountCountsUnits(items: seq<CartItem>)
    requires forall k :: 0 <= k < |items| ==> items[k].quantity >= 1
    ensures CartCount(items) >= |items|
    ensures CartCount(items) == |items| <==> forall k :: 0 <= k < |items| ==> items[k].quantity == 1
    decreases |items|
  {
    if |items| > 0 {
      var init := items[..|items| - 1];
      CartCountCountsUnits(init);
      if CartCount(items) == |items| {
        forall k | 0 <= k < |items| ensures items[k].quantity == 1 {
          if k < |items| - 1 {
            assert init[k] == items[k];
          }
        }
      }
    }
  }

  /** The badge is drawn only for a positive count. */
  predicate ShowsBadge(items: seq<CartItem>) {
    CartCount(items) > 0
  }

  lemma BadgeIffNonEmptyCart(items: seq<CartItem>)
    requires forall k :: 0 <= k < |items| ==> items[k].quantity >= 1
    ensures ShowsBadge(items) <==> |items| > 0
  {
    CartCountCountsUnits(items);
  }

  /** After a category link: the new filter and whether the bar navigates to the
      home route (it does whenever the current hash is not exactly `#/`). */
  datatype CategoryUpdate = CategoryUpdate(filter: Option<string>, navigatesHome: bool)

  /** `handleCategoryClick`: the active category is cleared, any other replaces it. */
  function CategoryClick(active: Option<string>, cat: string, hash: string): (r: CategoryUpdate)
    ensures active == Some(cat) ==> r.filter.None?
    ensures active != Some(cat) ==> r.filter == Some(cat)
    ensures r.navigatesHome <==> hash != "#/"
  {
    CategoryUpdate(if active == Some(cat) then None else Some(cat), hash != "#/")
  }

  /** "All Products" always drops the filter. */
  function AllProducts(active: Option<string>): (r: Option<string>)
    ensures r.None?
  {
    None
  }

  /** A second click on the same link restores the filter exactly when the first
      click started from no filter or from that very category. */
  lemma ClickTwice(active: Option<string>, cat: string, hash: string)
    ensures CategoryClick(CategoryClick(active, cat, hash).filter, cat, hash).filter == active
            <==> active.None? || active == Some(cat)
  {
  }
}
