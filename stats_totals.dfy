/**
 The six summary totals of the statistics route (app/api/stats/route.ts:16-43):
 pure filters and left folds over the product list.
 */
module StatsTotals {
  import opened Records
  import opened SaleFigures

  /** `products.filter(p => p.soldQuantity > 0)`. */
  function Sales(ps: seq<Product>): (r: seq<Product>)
    ensures |r| <= |ps|
    ensures forall p | p in r :: p in ps && p.soldQuantity > 0
  {
    if ps == [] then []
    else
      var init := Sales(ps[..|ps| - 1]);
      if ps[|ps| - 1].soldQuantity > 0 then init + [ps[|ps| - 1]] else init
  }

  /** `products.filter(p => p.soldQuantity > 0 && p.sellingPrice)`. */
  function PricedSales(ps: seq<Product>): (r: seq<Product>)
    ensures |r| <= |ps|
    ensures forall p | p in r :: p in ps && p.soldQuantity > 0 && HasPrice(p.sellingPrice)
  {
    if ps == [] then []
    else
      var init := PricedSales(ps[..|ps| - 1]);
      var p := ps[|ps| - 1];
      if p.soldQuantity > 0 && HasPrice(p.sellingPrice) then init + [p] else init
  }

  /** The sales are exactly the sold records: each record with
      `soldQuantity > 0` is kept as often as it occurs, every other is dropped. */
  lemma {:induction false} SalesKeepExactlySold(ps: seq<Product>, x: Product)
    ensures multiset(Sales(ps))[x] == if x.soldQuantity > 0 then multiset(ps)[x] else 0
  {
    if ps != [] {
      var init := ps[..|ps| - 1];
      assert ps == init + [ps[|ps| - 1]];
      SalesKeepExactlySold(init, x);
    }
  }

  /** The priced sales are exactly the sold records with a usable price, each
      kept as often as it occurs. */
  lemma {:induction false} PricedSalesKeepExactlyPriced(ps: seq<Product>, x: Product)
    ensures multiset(PricedSales(ps))[x] ==
      if x.soldQuantity > 0 && HasPrice(x.sellingPrice) then multiset(ps)[x] else 0
  {
    if ps != [] {
      var init := ps[..|ps| - 1];
      assert ps == init + [ps[|ps| - 1]];
      PricedSalesKeepExactlyPriced(init, x);
    }
  }

  /** A list in which nothing is sold has no sales, priced or not. */
  lemma NothingSoldNoSales(ps: seq<Product>)
    ensures (forall p | p in ps :: p.soldQuantity <= 0) ==> Sales(ps) == [] && PricedSales(ps) == []
  {
    if forall p | p in ps :: p.soldQuantity <= 0 {
      if Sales(ps) != [] {
        assert Sales(ps)[0] in Sales(ps);
      }
      if PricedSales(ps) != [] {
        assert PricedSales(ps)[0] in PricedSales(ps);
      }
    }
  }

  /** Sum of `costPrice * quantity` over every record; never negative for
      records with non-negative prices and quantities. */
  function TotalCost(ps: seq<Product>): (r: real)
    ensures (forall p | p in ps :: p.costPrice >= 0.0 && p.quantity >= 0) ==> r >= 0.0
  {
    if ps == [] then 0.0
    else TotalCost(ps[..|ps| - 1]) + ps[|ps| - 1].costPrice * (ps[|ps| - 1].quantity as real)
  }

  /** Sum of `(sellingPrice || 0) * soldQuantity` over the priced sales; zero
      when nothing is sold. */
  function TotalRevenue(ps: seq<Product>): (r: real)
    ensures (forall p | p in ps :: p.soldQuantity <= 0) ==> r == 0.0
  {
    NothingSoldNoSales(ps);
    SalesFigures(PricedSales(ps)).revenue
  }

  /** Revenue minus `costPrice * soldQuantity` summed over the sales; zero when
      nothing is sold. */
  function TotalProfit(ps: seq<Product>): (r: real)
    ensures (forall p | p in ps :: p.soldQuantity <= 0) ==> r == 0.0
  {
    NothingSoldNoSales(ps);
    TotalRevenue(ps) - SalesFigures(Sales(ps)).cost
  }

  /** Sum of the raw `soldQuantity` of every record; never negative when no
      record has a negative sold quantity. */
  function SoldCount(ps: seq<Product>): (r: int)
    ensures (forall p | p in ps :: p.soldQuantity >= 0) ==> r >= 0
  {
    if ps == [] then 0 else SoldCount(ps[..|ps| - 1]) + ps[|ps| - 1].soldQuantity
  }

  /** Sum of `quantity - soldQuantity` over every record; never negative when
      no record is oversold. */
  function AvailableCount(ps: seq<Product>): (r: int)
    ensures (forall p | p in ps :: p.soldQuantity <= p.quantity) ==> r >= 0
  {
    if ps == [] then 0
    else AvailableCount(ps[..|ps| - 1]) + (ps[|ps| - 1].quantity - ps[|ps| - 1].soldQuantity)
  }

  /** Sum of `quantity` over every record; at least one unit per record when
      every record stocks at least one. */
  function TotalCount(ps: seq<Product>): (r: int)
    ensures (forall p | p in ps :: p.quantity >= 1) ==> r >= |ps|
  {
    if ps == [] then 0 else TotalCount(ps[..|ps| - 1]) + ps[|ps| - 1].quantity
  }

  /** The unit counts split: every stocked unit is either sold or available,
      whatever the record's numbers, including `soldQuantity > quantity` and a
      negative `soldQuantity`. */
  lemma {:induction false} TotalCountSplits(ps: seq<Product>)
    ensures TotalCount(ps) == SoldCount(ps) + AvailableCount(ps)
  {
    if ps != [] {
      TotalCountSplits(ps[..|ps| - 1]);
    }
  }

  /** Sales without a usable price add nothing to revenue, so summing the
      revenue of every sale gives the total revenue. */
  lemma {:induction false} SalesRevenueIsTotalRevenue(ps: seq<Product>)
    ensures SalesFigures(Sales(ps)).revenue == TotalRevenue(ps)
  {
    if ps != [] {
      var init, p := ps[..|ps| - 1], ps[|ps| - 1];
      SalesRevenueIsTotalRevenue(init);
      if p.soldQuantity > 0 {
        SalesFiguresAppend(Sales(init), p);
        if HasPrice(p.sellingPrice) {
          SalesFiguresAppend(PricedSales(init), p);
        }
      }
    }
  }

  /** Total profit is the profit of all sales: revenue of the priced ones minus
      the cost of every sold unit. */
  lemma TotalProfitIsSalesProfit(ps: seq<Product>)
    ensures TotalProfit(ps) == SalesFigures(Sales(ps)).profit
  {
    SalesRevenueIsTotalRevenue(ps);
    SalesFiguresBalanced(Sales(ps));
  }

  /** Total cost depends only on cost prices and quantities: two lists that
      agree on those have the same total cost, however many units are sold. */
  lemma {:induction false} TotalCostIgnoresSales(ps: seq<Product>, qs: seq<Product>)
    requires |ps| == |qs|
    requires forall i :: 0 <= i < |ps| ==> ps[i].costPrice == qs[i].costPrice && ps[i].quantity == qs[i].quantity
    ensures TotalCost(ps) == TotalCost(qs)
  {
    if ps != [] {
      var n := |ps| - 1;
      TotalCostIgnoresSales(ps[..n], qs[..n]);
      assert ps[n].costPrice * (ps[n].quantity as real) == qs[n].costPrice * (qs[n].quantity as real);
    }
  }

  /** Appending a record adds its stock value to the total cost. */
  lemma TotalCostAppend(ps: seq<Product>, p: Product)
    ensures TotalCost(ps + [p]) == TotalCost(ps) + p.costPrice * (p.quantity as real)
  {
    assert (ps + [p])[..|ps|] == ps;
  }

  /** Appending a record that is not sold leaves both filters unchanged. */
  lemma AppendUnsold(ps: seq<Product>, p: Product)
    requires p.soldQuantity <= 0
    ensures Sales(ps + [p]) == Sales(ps) && PricedSales(ps + [p]) == PricedSales(ps)
  {
    assert (ps + [p])[..|ps|] == ps;
  }

  /** Appending a sale without a usable price extends the sales only. */
  lemma AppendUnpriced(ps: seq<Product>, p: Product)
    requires p.soldQuantity > 0 && !HasPrice(p.sellingPrice)
    ensures Sales(ps + [p]) == Sales(ps) + [p] && PricedSales(ps + [p]) == PricedSales(ps)
  {
    assert (ps + [p])[..|ps|] == ps;
  }

  /** A record with `soldQuantity <= 0` changes neither the sales nor the money
      totals derived from them; it still enters the unit counts with its raw
      numbers. */
  lemma {:induction false} UnsoldRecordEarnsNothing(ps: seq<Product>, p: Product)
    requires p.soldQuantity <= 0
    ensures Sales(ps + [p]) == Sales(ps)
    ensures TotalRevenue(ps + [p]) == TotalRevenue(ps)
    ensures TotalProfit(ps + [p]) == TotalProfit(ps)
    ensures TotalCost(ps + [p]) == TotalCost(ps) + p.costPrice * (p.quantity as real)
    ensures SoldCount(ps + [p]) == SoldCount(ps) + p.soldQuantity
    ensures AvailableCount(ps + [p]) == AvailableCount(ps) + (p.quantity - p.soldQuantity)
  {
    AppendUnsold(ps, p);
    TotalCostAppend(ps, p);
    assert (ps + [p])[..|ps|] == ps;
  }

  /** A sale without a usable price (`null` or `0`) adds no revenue and lowers
      profit by the cost of its sold units. */
  lemma {:induction false} UnpricedSaleLowersProfit(ps: seq<Product>, p: Product)
    requires p.soldQuantity > 0 && !HasPrice(p.sellingPrice)
    ensures TotalRevenue(ps + [p]) == TotalRevenue(ps)
    ensures TotalProfit(ps + [p]) == TotalProfit(ps) - p.costPrice * (p.soldQuantity as real)
  {
    AppendUnpriced(ps, p);
    SalesCostAppend(Sales(ps), p);
  }

  /** When no record has a negative `soldQuantity`, the units counted over the
      sales are exactly the sold count. */
  lemma {:induction false} SalesCountIsSoldCount(ps: seq<Product>)
    requires forall i :: 0 <= i < |ps| ==> ps[i].soldQuantity >= 0
    ensures SalesFigures(Sales(ps)).count == SoldCount(ps)
  {
    if ps != [] {
      SalesCountIsSoldCount(ps[..|ps| - 1]);
    }
  }
}
