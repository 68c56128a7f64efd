/**
 The statistics route (app/api/stats/route.ts:12-81) with the record store
 replaced by its result: the product list is a parameter and the response body
 is the returned value.
 */
module StatsRoute {
  import opened Records
  import opened SaleFigures
  import opened StatsTotals
  import opened DailySeries

  /** The response body of a successful request. */
  datatype Stats = Stats(
    totalCost: real,
    totalRevenue: real,
    totalProfit: real,
    soldCount: int,
    availableCount: int,
    totalCount: int,
    dailyStats: seq<DailyStat>)

  /** Sorting a grouped accumulator keeps it a series of the same sales. */
  lemma SortedSeries(acc: seq<DailyStat>, r: seq<DailyStat>, s: seq<Product>)
    requires Grouped(acc, s)
    requires multiset(r) == multiset(acc) && Ascending(r)
    ensures DailySeriesOf(r, s) && DistinctDates(r)
  {
    forall i | 0 <= i < |r|
      ensures r[i].AsFigures() == SalesOn(s, r[i].date) && HasDay(s, r[i].date)
    {
      assert r[i] in multiset(acc);
      var k :| 0 <= k < |acc| && acc[k] == r[i];
    }
    forall j | 0 <= j < |s|
      ensures Dated(r, s[j].day)
    {
      var k :| 0 <= k < |acc| && acc[k].date == s[j].day;
      assert acc[k] in multiset(r);
      var i :| 0 <= i < |r| && r[i] == acc[k];
    }
  }

  /** The `dailyStats` pipeline: keep the sales, fold them into daily buckets,
      sort the buckets by date. */
  method DailyStatsOf(products: seq<Product>) returns (daily: seq<DailyStat>)
    ensures DailySeriesOf(daily, Sales(products))
    ensures forall i :: 0 <= i < |daily| ==> daily[i].AsFigures().Balanced()
    ensures SeriesTotal(daily) == SalesFigures(Sales(products))
  {
    var sales := Sales(products);
    var grouped := GroupByDay(sales);
    daily := SortByDate(grouped);
    SortedSeries(grouped, daily, sales);
    SeriesTotalIsSalesFigures(daily, sales);
  }

  /** The body of `GET` between reading the products and answering: the six
      totals and the daily series. */
  method ComputeStats(products: seq<Product>) returns (stats: Stats)
    ensures stats.totalCost == TotalCost(products)
    ensures stats.totalRevenue == TotalRevenue(products)
    ensures stats.totalProfit == TotalProfit(products)
    ensures stats.soldCount == SoldCount(products)
    ensures stats.availableCount == AvailableCount(products)
    ensures stats.totalCount == TotalCount(products)
    ensures stats.totalCount == stats.soldCount + stats.availableCount
    ensures DailySeriesOf(stats.dailyStats, Sales(products))
    ensures forall p | p in products && p.soldQuantity > 0 :: Dated(stats.dailyStats, p.day)
    ensures forall i :: 0 <= i < |stats.dailyStats| ==>
      stats.dailyStats[i].profit == stats.dailyStats[i].revenue - stats.dailyStats[i].cost
    ensures SeriesTotal(stats.dailyStats).revenue == stats.totalRevenue
    ensures SeriesTotal(stats.dailyStats).profit == stats.totalProfit
    ensures SeriesTotal(stats.dailyStats).cost == SalesFigures(Sales(products)).cost
    ensures SeriesTotal(stats.dailyStats).count == SalesFigures(Sales(products)).count
    ensures products == [] ==> stats == Stats(0.0, 0.0, 0.0, 0, 0, 0, [])
  {
    var totalCost := TotalCost(products);
    var totalRevenue := TotalRevenue(products);
    var totalProfit := TotalProfit(products);
    var soldCount := SoldCount(products);
    var availableCount := AvailableCount(products);
    var totalCount := TotalCount(products);
    var dailyStats := DailyStatsOf(products);
    stats := Stats(totalCost, totalRevenue, totalProfit, soldCount, availableCount, totalCount, dailyStats);
    TotalCountSplits(products);
    SalesRevenueIsTotalRevenue(products);
    TotalProfitIsSalesProfit(products);
    forall p | p in products && p.soldQuantity > 0
      ensures Dated(dailyStats, p.day)
    {
      SalesKeepExactlySold(products, p);
      assert p in multiset(Sales(products));
      var j :| 0 <= j < |Sales(products)| && Sales(products)[j] == p;
    }
  }
}
