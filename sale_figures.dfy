/**
 The money and unit figures that a sold record contributes to the statistics
 (app/api/stats/route.ts:26, 52-53 and 58-59), and their sums over a list of
 records, both in total and restricted to one day.
 */
module SaleFigures {
  import opened Records

  /** Revenue, profit, cost of the sold units, and the number of sold units. */
  datatype Figures = Figures(revenue: real, profit: real, cost: real, count: int)
  {
    function Plus(other: Figures): Figures
    {
      Figures(revenue + other.revenue, profit + other.profit, cost + other.cost, count + other.count)
    }

    /** Profit is what is left of revenue once the cost of the sold units is paid. */
    predicate Balanced()
    {
      profit == revenue - cost
    }
  }

  const NoFigures := Figures(0.0, 0.0, 0.0, 0)

  /** What one record adds: revenue `(sellingPrice || 0) * soldQuantity`, profit
      `revenue - costPrice * soldQuantity`, cost `costPrice * soldQuantity` and
      count `soldQuantity`. */
  function Sale(p: Product): (f: Figures)
    ensures f.Balanced()
    ensures !HasPrice(p.sellingPrice) ==> f.revenue == 0.0 && f.profit == -f.cost
  {
    var revenue := PriceOrZero(p.sellingPrice) * (p.soldQuantity as real);
    var cost := p.costPrice * (p.soldQuantity as real);
    Figures(revenue, revenue - cost, cost, p.soldQuantity)
  }

  /** The figures of a list of records, accumulated left to right as `reduce` does. */
  function SalesFigures(s: seq<Product>): Figures
  {
    if s == [] then NoFigures
    else SalesFigures(s[..|s| - 1]).Plus(Sale(s[|s| - 1]))
  }

  /** Whether some record of `s` was created on day `d`. */
  predicate HasDay(s: seq<Product>, d: string)
  {
    exists j :: 0 <= j < |s| && s[j].day == d
  }

  /** The figures of the records of `s` created on day `d`: what the daily
      bucket for `d` holds once every record has been folded in. */
  function SalesOn(s: seq<Product>, d: string): (r: Figures)
    ensures r.Balanced()
  {
    if s == [] then NoFigures
    else
      var before := SalesOn(s[..|s| - 1], d);
      if s[|s| - 1].day == d then before.Plus(Sale(s[|s| - 1])) else before
  }

  /** Summed figures keep profit equal to revenue minus cost. */
  lemma {:induction false} SalesFiguresBalanced(s: seq<Product>)
    ensures SalesFigures(s).Balanced()
  {
    if s != [] {
      SalesFiguresBalanced(s[..|s| - 1]);
    }
  }

  /** A day that every record of `s` was created on holds all their figures. */
  lemma {:induction false} SalesOnSingleDay(s: seq<Product>, d: string)
    requires forall j | 0 <= j < |s| :: s[j].day == d
    ensures SalesOn(s, d) == SalesFigures(s)
  {
    if s != [] {
      SalesOnSingleDay(s[..|s| - 1], d);
    }
  }

  /** A day on which no record was created has no figures. */
  lemma {:induction false} SalesOnAbsentDay(s: seq<Product>, d: string)
    requires !HasDay(s, d)
    ensures SalesOn(s, d) == NoFigures
  {
    if s != [] {
      SalesOnAbsentDay(s[..|s| - 1], d);
    }
  }

  /** Appending one record adds its figures to the total. */
  lemma SalesFiguresAppend(s: seq<Product>, p: Product)
    ensures SalesFigures(s + [p]) == SalesFigures(s).Plus(Sale(p))
  {
    assert (s + [p])[..|s|] == s;
  }

  /** Appending one record adds the cost of its sold units to the total cost. */
  lemma SalesCostAppend(s: seq<Product>, p: Product)
    ensures SalesFigures(s + [p]).cost == SalesFigures(s).cost + p.costPrice * (p.soldQuantity as real)
  {
    SalesFiguresAppend(s, p);
  }

  /** Appending one record adds its figures to its own day and to no other. */
  lemma SalesOnAppend(s: seq<Product>, p: Product, d: string)
    ensures SalesOn(s + [p], d) == if p.day == d then SalesOn(s, d).Plus(Sale(p)) else SalesOn(s, d)
  {
    assert (s + [p])[..|s|] == s;
  }
}
