/**
 The per-row rules of the product table (components/dashboard/ProductTable.tsx):
 the status filter, the profit column and the status badge.
 */
module ProductTable {
  import opened Records
  import opened SaleFigures
  import opened ProductForm

  /** `products.filter(p => filter === 'all' || p.status === filter)`. */
  function FilterProducts(products: seq<Product>, filter: string): (r: seq<Product>)
    ensures |r| <= |products|
    ensures filter == "all" ==> r == products
    ensures forall p | p in r :: p in products && (filter == "all" || p.status == filter)
  {
    if products == [] then []
    else
      var init := FilterProducts(products[..|products| - 1], filter);
      var p := products[|products| - 1];
      assert products == products[..|products| - 1] + [p];
      if filter == "all" || p.status == filter then init + [p] else init
  }

  /** The filter keeps every matching product as many times as it occurs and
      drops every other one. */
  lemma {:induction false} FilterKeepsExactlyMatches(products: seq<Product>, filter: string, x: Product)
    ensures multiset(FilterProducts(products, filter))[x] ==
      if filter == "all" || x.status == filter then multiset(products)[x] else 0
  {
    if products != [] {
      var init := products[..|products| - 1];
      assert products == init + [products[|products| - 1]];
      FilterKeepsExactlyMatches(init, filter, x);
    }
  }

  /** The filter keeps the original order: filtering a concatenation
      concatenates the filtered parts. */
  lemma {:induction false} FilterKeepsOrder(front: seq<Product>, back: seq<Product>, filter: string)
    ensures FilterProducts(front + back, filter) == FilterProducts(front, filter) + FilterProducts(back, filter)
  {
    if back != [] {
      var init := back[..|back| - 1];
      assert front + back == (front + init) + [back[|back| - 1]];
      assert (front + back)[..|front + back| - 1] == front + init;
      FilterKeepsOrder(front, init, filter);
    } else {
      assert front + back == front;
    }
  }

  /** `getProfit`: the per-unit margin, shown only for sold products that
      carry a usable (non-null, non-zero) selling price. */
  function RowProfit(p: Product): (r: Option<real>)
    ensures r.Some? <==> p.status == Sold.Name() && HasPrice(p.sellingPrice)
    ensures r.Some? ==> p.costPrice + r.value == p.sellingPrice.value
    ensures p.status == PartiallySold.Name() ==> r == None
  {
    if p.status != "sold" || !HasPrice(p.sellingPrice) then None
    else Some(p.sellingPrice.value - p.costPrice)
  }

  /** No profit for a product that is not sold, partially sold included, nor
      for one without a usable price; otherwise price minus cost per unit,
      whatever the quantity, and possibly negative. */
  lemma RowProfitCases(p: Product)
    ensures p.status != "sold" ==> RowProfit(p) == None
    ensures !HasPrice(p.sellingPrice) ==> RowProfit(p) == None
    ensures p.status == "sold" && HasPrice(p.sellingPrice) ==>
      RowProfit(p) == Some(p.sellingPrice.value - p.costPrice)
  {
  }

  /** The per-unit profit of a row, times its sold units, is the profit the
      statistics route books for that record. */
  lemma RowProfitIsPerUnit(p: Product)
    requires RowProfit(p).Some?
    ensures RowProfit(p).value * (p.soldQuantity as real) == Sale(p).profit
  {
    var price, units := p.sellingPrice.value, p.soldQuantity as real;
    assert (price - p.costPrice) * units == price * units - p.costPrice * units;
  }

  datatype Badge = SoldBadge | AvailableBadge

  /** The status badge: the sold badge for `sold`, the available badge for
      every other status. */
  function BadgeFor(status: string): (r: Badge)
    ensures r == SoldBadge <==> status == Sold.Name()
    ensures status == Available.Name() || status == PartiallySold.Name() ==> r == AvailableBadge
  {
    if status == "sold" then SoldBadge else AvailableBadge
  }

  /** For a status derived by the form, the badge says sold exactly when every
      unit, and at least one, is sold; a partially sold product shows as
      available. */
  lemma BadgeOfDerivedStatus(sold: int, total: int)
    ensures BadgeFor(DeriveStatus(Some(sold), Some(total)).Name()) == SoldBadge <==> 0 < sold == total
    ensures BadgeFor(PartiallySold.Name()) == AvailableBadge
  {
    StatusNamesDistinct(DeriveStatus(Some(sold), Some(total)), Sold);
  }
}
