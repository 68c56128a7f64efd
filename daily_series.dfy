/**
 The per-day series of the statistics route (app/api/stats/route.ts:45-71):
 the sales are folded into an accumulator of daily buckets, found by date or
 pushed on first occurrence, and the accumulator is then sorted by date.
 */
module DailySeries {
  import opened Records
  import opened SaleFigures
  import opened DateOrder

  /** One bucket of the series, in the shape the route returns. */
  datatype DailyStat = DailyStat(date: string, revenue: real, profit: real, cost: real, count: int)
  {
    function AsFigures(): Figures
    {
      Figures(revenue, profit, cost, count)
    }
  }

  /** No two buckets share a date. */
  predicate DistinctDates(ds: seq<DailyStat>)
  {
    forall i, j :: 0 <= i < j < |ds| ==> ds[i].date != ds[j].date
  }

  /** Some bucket has date `d`. */
  predicate Dated(ds: seq<DailyStat>, d: string)
  {
    exists i :: 0 <= i < |ds| && ds[i].date == d
  }

  /** Dates strictly increase along the series. */
  predicate Ascending(ds: seq<DailyStat>)
  {
    forall i, j :: 0 <= i < j < |ds| ==> DateLess(ds[i].date, ds[j].date)
  }

  /** Dates never decrease along the first `n` buckets. */
  predicate SortedPrefix(ds: seq<DailyStat>, n: int)
  {
    forall i, j :: 0 <= i < j < n && j < |ds| ==> DateLeq(ds[i].date, ds[j].date)
  }

  /** Every bucket is the day's share of the sales `s`, for a day on which some
      sale was made. */
  predicate BucketsOf(ds: seq<DailyStat>, s: seq<Product>)
  {
    forall i :: 0 <= i < |ds| ==> ds[i].AsFigures() == SalesOn(s, ds[i].date) && HasDay(s, ds[i].date)
  }

  /** Every sale's day has a bucket. */
  predicate Covers(ds: seq<DailyStat>, s: seq<Product>)
  {
    forall j :: 0 <= j < |s| ==> Dated(ds, s[j].day)
  }

  /** What the route promises of its series for the sales `s`. */
  predicate DailySeriesOf(ds: seq<DailyStat>, s: seq<Product>)
  {
    Ascending(ds) && BucketsOf(ds, s) && Covers(ds, s)
  }

  /** `acc.find(item => item.date === date)`, as the index of the first bucket
      with that date. */
  method FindBucket(acc: seq<DailyStat>, date: string) returns (found: Option<nat>)
    ensures found.Some? ==> found.value < |acc| && acc[found.value].date == date
    ensures found.Some? ==> forall k :: 0 <= k < found.value ==> acc[k].date != date
    ensures found.None? <==> !Dated(acc, date)
  {
    var i := 0;
    while i < |acc|
      invariant 0 <= i <= |acc|
      invariant forall k :: 0 <= k < i ==> acc[k].date != date
    {
      if acc[i].date == date {
        return Some(i);
      }
      i := i + 1;
    }
    return None;
  }

  /** The accumulator invariant: the buckets for the sales folded so far. */
  predicate Grouped(acc: seq<DailyStat>, done: seq<Product>)
  {
    DistinctDates(acc) && BucketsOf(acc, done) && Covers(acc, done)
  }

  /** Adding a sale into the existing bucket of its day keeps the accumulator
      invariant. */
  lemma AddIntoBucket(acc: seq<DailyStat>, done: seq<Product>, p: Product, i: nat, b: DailyStat)
    requires Grouped(acc, done)
    requires i < |acc| && acc[i].date == p.day
    requires b.date == p.day && b.AsFigures() == acc[i].AsFigures().Plus(Sale(p))
    ensures Grouped(acc[i := b], done + [p])
  {
    var after, next := acc[i := b], done + [p];
    forall k | 0 <= k < |after|
      ensures after[k].AsFigures() == SalesOn(next, after[k].date) && HasDay(next, after[k].date)
    {
      SalesOnAppend(done, p, after[k].date);
      var j :| 0 <= j < |done| && done[j].day == acc[k].date;
      assert next[j] == done[j];
    }
    forall j | 0 <= j < |next|
      ensures Dated(after, next[j].day)
    {
      if j < |done| {
        var k :| 0 <= k < |acc| && acc[k].date == done[j].day;
        assert after[k].date == acc[k].date;
      } else {
        assert after[i].date == p.day;
      }
    }
  }

  /** Pushing a new bucket for a sale whose day has none keeps the accumulator
      invariant. */
  lemma PushBucket(acc: seq<DailyStat>, done: seq<Product>, p: Product, b: DailyStat)
    requires Grouped(acc, done)
    requires !Dated(acc, p.day)
    requires b.date == p.day && b.AsFigures() == Sale(p)
    ensures Grouped(acc + [b], done + [p])
  {
    var after, next := acc + [b], done + [p];
    forall j | 0 <= j < |done|
      ensures done[j].day != p.day
    {
      assert Dated(acc, done[j].day);
    }
    SalesOnAbsentDay(done, p.day);
    forall k | 0 <= k < |after|
      ensures after[k].AsFigures() == SalesOn(next, after[k].date) && HasDay(next, after[k].date)
    {
      SalesOnAppend(done, p, after[k].date);
      if k < |acc| {
        var j :| 0 <= j < |done| && done[j].day == acc[k].date;
        assert next[j] == done[j];
      } else {
        assert next[|done|] == p;
      }
    }
    forall j | 0 <= j < |next|
      ensures Dated(after, next[j].day)
    {
      if j < |done| {
        var k :| 0 <= k < |acc| && acc[k].date == done[j].day;
        assert after[k] == acc[k];
      } else {
        assert after[|acc|].date == p.day;
      }
    }
  }

  /** The `reduce` over the sales: add each sale into its day's bucket, or push
      a new bucket for a day not seen yet. */
  method GroupByDay(sales: seq<Product>) returns (acc: seq<DailyStat>)
    ensures DistinctDates(acc) && BucketsOf(acc, sales) && Covers(acc, sales)
  {
    acc := [];
    for k := 0 to |sales|
      invariant Grouped(acc, sales[..k])
    {
      var product := sales[k];
      var date := product.day;
      var existing := FindBucket(acc, date);
      var revenue := PriceOrZero(product.sellingPrice) * (product.soldQuantity as real);
      var profit := revenue - product.costPrice * (product.soldQuantity as real);
      assert sales[..k + 1] == sales[..k] + [product];
      if existing.Some? {
        var i := existing.value;
        var updated := acc[i].(
          revenue := acc[i].revenue + revenue,
          profit := acc[i].profit + profit,
          cost := acc[i].cost + product.costPrice * (product.soldQuantity as real),
          count := acc[i].count + product.soldQuantity);
        AddIntoBucket(acc, sales[..k], product, i, updated);
        acc := acc[i := updated];
      } else {
        var created := DailyStat(date, revenue, profit, product.costPrice * (product.soldQuantity as real), product.soldQuantity);
        PushBucket(acc, sales[..k], product, created);
        acc := acc + [created];
      }
    }
    assert sales[..|sales|] == sales;
  }

  /** Insertion of the bucket at `j` into the sorted prefix `r[..i]` is under
      way: dates never decrease along `r[..i + 1]` apart from position `j`, and
      the bucket at `j` sorts no later than everything after it up to `i`. */
  predicate Inserting(r: seq<DailyStat>, i: int, j: int)
    requires 0 <= j <= i < |r|
  {
    (forall a, b :: 0 <= a < b <= i && a != j && b != j ==> DateLeq(r[a].date, r[b].date)) &&
    (forall b :: j < b <= i ==> DateLeq(r[j].date, r[b].date))
  }

  /** Swapping the bucket at `j` with its larger left neighbour moves it one
      place left and keeps the dates distinct and the buckets the same. */
  lemma SwapLeft(r: seq<DailyStat>, i: int, j: int)
    requires 0 < j <= i < |r| && Inserting(r, i, j) && DistinctDates(r)
    requires !DateLeq(r[j - 1].date, r[j].date)
    ensures var s := r[j - 1 := r[j]][j := r[j - 1]];
      |s| == |r| && multiset(s) == multiset(r) && DistinctDates(s) && Inserting(s, i, j - 1)
  {
    var s := r[j - 1 := r[j]][j := r[j - 1]];
    SwapSameBuckets(r, j);
    DateLeqTotal(r[j - 1].date, r[j].date);
    forall a, b | 0 <= a < b <= i && a != j - 1 && b != j - 1
      ensures DateLeq(s[a].date, s[b].date)
    {
      var a', b' := if a == j then j - 1 else a, if b == j then j - 1 else b;
      assert s[a] == r[a'] && s[b] == r[b'] && a' < b' && a' != j && b' != j;
    }
    forall b | j - 1 < b <= i
      ensures DateLeq(s[j - 1].date, s[b].date)
    {
      if b > j {
        assert s[b] == r[b];
      }
    }
  }

  /** An adjacent swap keeps the same buckets and their distinct dates. */
  lemma SwapSameBuckets(r: seq<DailyStat>, j: int)
    requires 0 < j < |r| && DistinctDates(r)
    ensures var s := r[j - 1 := r[j]][j := r[j - 1]];
      |s| == |r| && multiset(s) == multiset(r) && DistinctDates(s)
  {
    var s := r[j - 1 := r[j]][j := r[j - 1]];
    assert s == r[..j - 1] + [r[j], r[j - 1]] + r[j + 1..];
    assert r == r[..j - 1] + [r[j - 1], r[j]] + r[j + 1..];
    forall a, b | 0 <= a < b < |s|
      ensures s[a].date != s[b].date
    {
      var a', b' := if a == j then j - 1 else if a == j - 1 then j else a,
                    if b == j then j - 1 else if b == j - 1 then j else b;
      assert s[a] == r[a'] && s[b] == r[b'] && a' != b';
    }
  }

  /** Once the bucket at `j` sorts no earlier than its left neighbour, the
      prefix up to `i` is sorted. */
  lemma InsertionDone(r: seq<DailyStat>, i: int, j: int)
    requires 0 <= j <= i < |r| && Inserting(r, i, j)
    requires j > 0 ==> DateLeq(r[j - 1].date, r[j].date)
    ensures SortedPrefix(r, i + 1)
  {
    forall a | 0 <= a < j - 1
      ensures DateLeq(r[a].date, r[j].date)
    {
      DateLeqTransitive(r[a].date, r[j - 1].date, r[j].date);
    }
  }

  /** `.sort((a, b) => a.date.localeCompare(b.date))` on buckets with distinct
      dates, as an insertion sort by adjacent swaps: the result holds the same
      buckets, in strictly ascending date order. */
  method SortByDate(buckets: seq<DailyStat>) returns (r: seq<DailyStat>)
    requires DistinctDates(buckets)
    ensures multiset(r) == multiset(buckets)
    ensures Ascending(r)
  {
    r := buckets;
    for i := 0 to |r|
      invariant |r| == |buckets| && multiset(r) == multiset(buckets)
      invariant DistinctDates(r)
      invariant SortedPrefix(r, i)
    {
      var j := i;
      while j > 0 && !DateLeq(r[j - 1].date, r[j].date)
        invariant 0 <= j <= i
        invariant |r| == |buckets| && multiset(r) == multiset(buckets)
        invariant DistinctDates(r)
        invariant Inserting(r, i, j)
      {
        SwapLeft(r, i, j);
        r := r[j - 1 := r[j]][j := r[j - 1]];
        j := j - 1;
      }
      InsertionDone(r, i, j);
    }
  }

  /** The figures summed over the buckets of a series. */
  function SeriesTotal(ds: seq<DailyStat>): Figures
  {
    if ds == [] then NoFigures else ds[0].AsFigures().Plus(SeriesTotal(ds[1..]))
  }

  /** The sales `s` summed day by day over the buckets' dates. */
  function SumByDay(ds: seq<DailyStat>, s: seq<Product>): Figures
    decreases |ds|
  {
    if ds == [] then NoFigures else SalesOn(s, ds[0].date).Plus(SumByDay(ds[1..], s))
  }

  /** The figures `f` added to every bucket dated `d`, summed over the buckets. */
  function ShareOf(ds: seq<DailyStat>, d: string, f: Figures): Figures
  {
    if ds == [] then NoFigures
    else (if ds[0].date == d then f else NoFigures).Plus(ShareOf(ds[1..], d, f))
  }

  lemma PlusInterchange(a: Figures, b: Figures, c: Figures, d: Figures)
    ensures a.Plus(b).Plus(c.Plus(d)) == a.Plus(c).Plus(b.Plus(d))
  {
  }

  lemma {:induction false} SumByDayNoSales(ds: seq<DailyStat>)
    ensures SumByDay(ds, []) == NoFigures
  {
    if ds != [] {
      SumByDayNoSales(ds[1..]);
    }
  }

  /** When the sales `t` differ from `s` only by the figures `f` on day `d`,
      the day-by-day sums differ by `f` once per bucket dated `d`. */
  lemma {:induction false} SumByDayShift(ds: seq<DailyStat>, s: seq<Product>, t: seq<Product>, d: string, f: Figures)
    requires forall k :: 0 <= k < |ds| ==>
      SalesOn(t, ds[k].date) == SalesOn(s, ds[k].date).Plus(if ds[k].date == d then f else NoFigures)
    ensures SumByDay(ds, t) == SumByDay(ds, s).Plus(ShareOf(ds, d, f))
  {
    if ds != [] {
      var here := if ds[0].date == d then f else NoFigures;
      assert SalesOn(t, ds[0].date) == SalesOn(s, ds[0].date).Plus(here);
      SumByDayShift(ds[1..], s, t, d, f);
      PlusInterchange(SalesOn(s, ds[0].date), here, SumByDay(ds[1..], s), ShareOf(ds[1..], d, f));
    }
  }

  lemma SumByDayAppend(ds: seq<DailyStat>, s: seq<Product>, p: Product)
    ensures SumByDay(ds, s + [p]) == SumByDay(ds, s).Plus(ShareOf(ds, p.day, Sale(p)))
  {
    forall k | 0 <= k < |ds|
      ensures SalesOn(s + [p], ds[k].date) ==
        SalesOn(s, ds[k].date).Plus(if ds[k].date == p.day then Sale(p) else NoFigures)
    {
      SalesOnAppend(s, p, ds[k].date);
    }
    SumByDayShift(ds, s, s + [p], p.day, Sale(p));
  }

  lemma {:induction false} ShareOfAbsent(ds: seq<DailyStat>, d: string, f: Figures)
    requires !Dated(ds, d)
    ensures ShareOf(ds, d, f) == NoFigures
  {
    if ds != [] {
      ShareOfAbsent(ds[1..], d, f);
    }
  }

  /** With distinct dates, figures added to a day that has a bucket are counted
      exactly once. */
  lemma {:induction false} ShareOfOnce(ds: seq<DailyStat>, d: string, f: Figures)
    requires DistinctDates(ds) && Dated(ds, d)
    ensures ShareOf(ds, d, f) == f
  {
    var i :| 0 <= i < |ds| && ds[i].date == d;
    var rest := ds[1..];
    if i == 0 {
      forall k | 0 <= k < |rest|
        ensures rest[k].date != d
      {
        assert rest[k] == ds[k + 1];
      }
      ShareOfAbsent(rest, d, f);
    } else {
      assert rest[i - 1] == ds[i];
      DistinctTail(ds);
      ShareOfOnce(rest, d, f);
    }
  }

  lemma DistinctTail(ds: seq<DailyStat>)
    requires ds != [] && DistinctDates(ds)
    ensures DistinctDates(ds[1..])
  {
    forall a, b | 0 <= a < b < |ds[1..]|
      ensures ds[1..][a].date != ds[1..][b].date
    {
      assert ds[1..][a] == ds[a + 1] && ds[1..][b] == ds[b + 1];
    }
  }

  /** Summing day by day over distinct dates that cover every sale gives the
      figures of all the sales. */
  lemma {:induction false} SumByDayCovers(ds: seq<DailyStat>, s: seq<Product>)
    requires DistinctDates(ds) && Covers(ds, s)
    ensures SumByDay(ds, s) == SalesFigures(s)
  {
    if s == [] {
      SumByDayNoSales(ds);
    } else {
      var init, p := s[..|s| - 1], s[|s| - 1];
      assert s == init + [p];
      forall j | 0 <= j < |init|
        ensures Dated(ds, init[j].day)
      {
        assert init[j] == s[j];
      }
      SumByDayCovers(ds, init);
      SumByDayAppend(ds, init, p);
      ShareOfOnce(ds, p.day, Sale(p));
    }
  }

  lemma {:induction false} SeriesTotalByDay(ds: seq<DailyStat>, s: seq<Product>)
    requires BucketsOf(ds, s)
    ensures SeriesTotal(ds) == SumByDay(ds, s)
  {
    if ds != [] {
      assert BucketsOf(ds[1..], s) by {
        forall k | 0 <= k < |ds[1..]|
          ensures ds[1..][k].AsFigures() == SalesOn(s, ds[1..][k].date) && HasDay(s, ds[1..][k].date)
        {
          assert ds[1..][k] == ds[k + 1];
        }
      }
      SeriesTotalByDay(ds[1..], s);
    }
  }

  /** The buckets of a grouped series add up to the figures of all its sales:
      no sale is lost and none is counted twice. */
  lemma SeriesTotalIsSalesFigures(ds: seq<DailyStat>, s: seq<Product>)
    requires DistinctDates(ds) && BucketsOf(ds, s) && Covers(ds, s)
    ensures SeriesTotal(ds) == SalesFigures(s)
  {
    SeriesTotalByDay(ds, s);
    SumByDayCovers(ds, s);
  }
}
