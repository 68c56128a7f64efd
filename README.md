# Inventory dashboard statistics: a Dafny model

This project models the logic of a small inventory and sales dashboard. It
tracks products with a cost price, an optional selling price, a stocked
quantity and a sold quantity. The model covers three pieces:

- **The statistics route** (`GET /api/stats`). It turns the product list into
  six totals: stocked cost, revenue, profit, sold units, available units and
  total units. It also builds a per-day series of revenue, profit, cost and
  sold units. To build the series, it folds the sold records into daily
  buckets: it finds each record's bucket by date or pushes a new one. It then
  sorts the buckets by date.
- **The product form's submit rules.** The form derives a status
  (`available`, `partially_sold` or `sold`) from the two quantity fields. It
  builds the payload it sends to the API, and it shows an "available" hint.
- **The product table's row rules.** The table filters rows by status,
  computes a per-unit profit column and picks the status badge.

Modules, one per concern:

| file | module | models |
|---|---|---|
| `records.dfy` | `Records` | the product record; `null`/`0` truthiness of a price |
| `sale_figures.dfy` | `SaleFigures` | what one sold record adds (revenue, profit, cost, units); sums in total and per day |
| `stats_totals.dfy` | `StatsTotals` | the filters and the six totals |
| `date_order.dfy` | `DateOrder` | the date order used by the sort |
| `daily_series.dfy` | `DailySeries` | find-or-insert grouping, the sort, bucket sums |
| `stats_route.dfy` | `StatsRoute` | the route body: totals plus series |
| `product_form.dfy` | `ProductForm` | status derivation, payload, available hint |
| `product_table.dfy` | `ProductTable` | status filter, `getProfit`, badge |

Representation choices:

- Money is exact (`real`). Quantities are unbounded `int`s. The route does not
  check `0 <= soldQuantity <= quantity`, so nothing in the model assumes it.
- A selling price is an `Option<real>`. JavaScript treats both `null` and `0`
  as "no price" (`HasPrice`), and so does the model.
- Each record's date key is its `day` field. This is the `YYYY-MM-DD` prefix of
  its creation time, taken as given.
- A `parseInt` result is an `Option<int>`, where `None` stands for NaN. Every
  comparison with NaN is false.
- The totals are recursive left folds, matching `reduce`.
- The daily grouping is a loop (`GroupByDay`) over the sold records. Its
  accumulator is a sequence. A bucket updated in place is modelled as the same
  bucket replaced at its index.
- The sort (`SortByDate`) is an insertion sort by adjacent swaps on that
  sequence. It is proved to return the same buckets in strictly ascending date
  order.

The code behaves as follows in these cases, and the model does the same:

- A selling price of `0` counts as "no price", exactly like `null`. This holds
  for total revenue and for the table's profit column.
- A negative `soldQuantity` is summed as it is into the sold and available
  counts. It is not treated as `0`.
- Out-of-range quantities, and fields that do not parse, fall through to
  `available`. No clamping happens.
- No code normalises records of the older single-unit shape
  (`lib/types.ts`), so no such step is modelled.

## Model

| member | source | states |
|---|---|---|
| `StatsRoute.ComputeStats` | app/api/stats/route.ts:16-80 | The response holds the six totals. Total units equal sold plus available units. The series is strictly ascending by date. Each bucket holds exactly the sales of its day, and every sold record's day has a bucket. In each bucket profit is revenue minus cost. Summed over the buckets, revenue equals total revenue, profit equals total profit, and cost and units equal those of all sales. An empty product list gives all zeros and an empty series. |
| `StatsRoute.DailyStatsOf` | app/api/stats/route.ts:45-71 | Filtering, grouping and sorting yield a strictly ascending series of distinct days. The series covers exactly the days of the sales. Each bucket is its day's sum, with profit = revenue − cost, and the buckets together sum to the figures of all sales. |
| `StatsRoute.SortedSeries` | app/api/stats/route.ts:71 | Sorting the accumulator keeps every bucket and every day, so the sorted series still describes the same sales. |
| `StatsTotals.Sales` | app/api/stats/route.ts:46-47 | The sold-records filter keeps only records of the input with `soldQuantity > 0` and is never longer than the input. |
| `StatsTotals.SalesKeepExactlySold` | app/api/stats/route.ts:46-47 | Both directions: every record with `soldQuantity > 0` is kept as often as it occurs in the input, and every other record is dropped. |
| `StatsTotals.PricedSales` | app/api/stats/route.ts:23-24 | The revenue filter keeps only input records with `soldQuantity > 0` and a price that is neither `null` nor `0`. |
| `StatsTotals.PricedSalesKeepExactlyPriced` | app/api/stats/route.ts:23-24 | Both directions: every sold record with a price that is neither `null` nor `0` is kept as often as it occurs, and every other record is dropped. |
| `StatsTotals.NothingSoldNoSales` | app/api/stats/route.ts:23-35 | When no record has `soldQuantity > 0`, both filters return nothing. |
| `StatsTotals.TotalCost` | app/api/stats/route.ts:17-20 | Total cost is never negative when no record has a negative cost price or quantity. |
| `StatsTotals.TotalRevenue` | app/api/stats/route.ts:23-28 | Total revenue is 0 when nothing is sold. |
| `StatsTotals.TotalProfit` | app/api/stats/route.ts:31-35 | Total profit is 0 when nothing is sold. |
| `StatsTotals.SoldCount` | app/api/stats/route.ts:38 | The sold count is never negative when no `soldQuantity` is negative. |
| `StatsTotals.AvailableCount` | app/api/stats/route.ts:39-42 | The available count is never negative when no record is oversold. |
| `StatsTotals.TotalCount` | app/api/stats/route.ts:43 | When every record stocks at least one unit, the total count is at least the number of records. |
| `StatsTotals.TotalCountSplits` | app/api/stats/route.ts:38-43 | Total units equal sold units plus available units for every input, including `soldQuantity > quantity` and negative `soldQuantity`. |
| `StatsTotals.SalesRevenueIsTotalRevenue` | app/api/stats/route.ts:23-28 | Summing `(price or 0) × soldQuantity` over all sales gives total revenue, because a sale with a `null` or `0` price adds nothing. |
| `StatsTotals.TotalProfitIsSalesProfit` | app/api/stats/route.ts:31-35 | Total profit equals the profit of all sales: priced revenue minus the cost of every sold unit. |
| `StatsTotals.TotalCostIgnoresSales` | app/api/stats/route.ts:17-20 | Total cost depends only on cost prices and quantities. Lists that agree on those have equal total cost, whatever is sold. |
| `StatsTotals.UnsoldRecordEarnsNothing` | app/api/stats/route.ts:22-43 | A record with `soldQuantity ≤ 0` leaves the sales list, revenue and profit unchanged. It still adds its stocked cost, and its raw sold and available numbers to the counts. |
| `StatsTotals.UnpricedSaleLowersProfit` | app/api/stats/route.ts:23-35 | A sale with a `null` or `0` price adds no revenue and lowers profit by `costPrice × soldQuantity`. |
| `StatsTotals.SalesCountIsSoldCount` | app/api/stats/route.ts:38-59 | When no `soldQuantity` is negative, the units counted over the sales (what the buckets count) equal the sold count. |
| `SaleFigures.Sale` | app/api/stats/route.ts:52-58 | One record's contribution has profit = revenue − cost. Without a usable price its revenue is 0 and its profit is minus its cost. |
| `SaleFigures.SalesFiguresBalanced` | app/api/stats/route.ts:52-59 | Summed over any list of sales, profit stays equal to revenue minus cost. |
| `SaleFigures.SalesOn` | app/api/stats/route.ts:52-67 | A day's bucket value, the sum over that day's records, keeps profit = revenue − cost. |
| `SaleFigures.SalesOnSingleDay` | app/api/stats/route.ts:50-59 | When every record falls on one day, that day's bucket holds the figures of all of them. |
| `SaleFigures.SalesOnAbsentDay` | app/api/stats/route.ts:60-67 | A day on which no record was created sums to zero. A freshly pushed bucket therefore holds just its first record. |
| `DateOrder.DateLeq` | app/api/stats/route.ts:71 | A date sorts no later than any string it is a prefix of, itself included. A date that sorts no later than another starts with a character no greater than the other's first. |
| `DateOrder.DateLeqTotal` | app/api/stats/route.ts:71 | Any two dates are comparable under the sort order. |
| `DateOrder.DateLeqTransitive` | app/api/stats/route.ts:71 | The sort order is transitive. |
| `DateOrder.DateLeqAntisymmetric` | app/api/stats/route.ts:71 | Dates that sort both ways are equal. Distinct dates therefore come out strictly ordered. |
| `DailySeries.FindBucket` | app/api/stats/route.ts:50 | `find` returns the first bucket with the date, or nothing exactly when no bucket has it. |
| `DailySeries.AddIntoBucket` | app/api/stats/route.ts:55-59 | Adding a sale into its day's existing bucket keeps the buckets distinct. Each bucket still equals its day's sum over the sales so far, and the buckets cover every day seen. |
| `DailySeries.PushBucket` | app/api/stats/route.ts:60-67 | Pushing a bucket for a new day keeps the same invariant. |
| `DailySeries.GroupByDay` | app/api/stats/route.ts:46-70 | The fold ends with one bucket per day that has sales, with distinct dates, each bucket equal to its day's sum. |
| `DailySeries.SortByDate` | app/api/stats/route.ts:71 | The sort returns a permutation of the buckets (same multiset) in strictly ascending date order. |
| `DailySeries.SwapLeft` | app/api/stats/route.ts:71 | One swap of the sort keeps the buckets and distinct dates, and moves the inserted bucket one step towards its place. |
| `DailySeries.InsertionDone` | app/api/stats/route.ts:71 | When the inserted bucket is no earlier than its left neighbour, the sorted prefix has grown by one. |
| `DailySeries.ShareOfOnce` | app/api/stats/route.ts:50-59 | With distinct dates, figures added to the day of an existing bucket are counted in exactly one bucket. |
| `DailySeries.SumByDayAppend` | app/api/stats/route.ts:50-67 | Folding one more sale into the series adds its figures once to every bucket of its day and to no other bucket. |
| `DailySeries.SumByDayCovers` | app/api/stats/route.ts:52-67 | Summing day by day over distinct dates that cover every sale gives the figures of all sales. |
| `DailySeries.SeriesTotalIsSalesFigures` | app/api/stats/route.ts:52-67 | The buckets of a grouped series add up to the figures of all its sales: no sale is lost and none is counted twice. |
| `ProductForm.DeriveStatus` | components/dashboard/ProductForm.tsx:82-87 | The status is `available` exactly when it is not the case that a positive sold count is at most a parsed total. It is `sold` exactly when the sold count is positive and equals the total. |
| `ProductForm.StatusOfQuantities` | components/dashboard/ProductForm.tsx:82-87 | Both directions hold. The status is `partially_sold` iff 0 < sold < total, and `sold` iff 0 < sold = total. It is `available` iff sold ≤ 0 or sold > total, which covers nothing sold, a negative count and oversold input. |
| `ProductForm.StatusOfNaN` | components/dashboard/ProductForm.tsx:78-87 | An empty or non-numeric quantity field gives `available`. |
| `ProductForm.GuardsExclusive` | components/dashboard/ProductForm.tsx:83-86 | The partially-sold and sold guards never hold together. |
| `ProductForm.StatusMonotone` | components/dashboard/ProductForm.tsx:83-87 | For a fixed total, selling more units (within 0..total) never moves the status backwards along available, partially_sold, sold. |
| `ProductForm.StatusNamesDistinct` | components/dashboard/ProductForm.tsx:82-86 | The three statuses are sent as three different strings. |
| `ProductForm.BuildPayload` | components/dashboard/ProductForm.tsx:89-98 | The payload's selling price is `null` exactly when the field is empty, and otherwise the parsed field, so "0" is sent as 0. Quantities are passed through as parsed. The status is the derived one. |
| `ProductForm.AvailableHint` | components/dashboard/ProductForm.tsx:205-206 | The hint is a number exactly when both fields, with empty read as "0", parse. Sold quantity plus the hint is then the quantity. With both fields empty the hint is 0. |
| `ProductForm.HintAgreesWithPayload` | components/dashboard/ProductForm.tsx:205-206 | For filled-in numeric fields, the hint equals quantity − sold quantity of the submitted record. It is 0 when the record is sent as `sold` and positive when sent as `partially_sold`. |
| `ProductTable.FilterProducts` | components/dashboard/ProductTable.tsx:51-54 | Filter `all` returns the list unchanged. Any other filter returns only products of that status, drawn from the list. The result is never longer than the list. |
| `ProductTable.FilterKeepsExactlyMatches` | components/dashboard/ProductTable.tsx:51-54 | Every matching product is kept as often as it occurs, and every other one is dropped. |
| `ProductTable.FilterKeepsOrder` | components/dashboard/ProductTable.tsx:51-54 | Filtering a concatenation concatenates the filtered parts, so the original order is kept. |
| `ProductTable.RowProfit` | components/dashboard/ProductTable.tsx:73-76 | Both directions: a profit is shown exactly when the status is `sold` and the price is neither `null` nor `0`. Cost plus the profit is then the selling price. A `partially_sold` row shows none. |
| `ProductTable.RowProfitCases` | components/dashboard/ProductTable.tsx:73-76 | The profit column is empty for any status other than `sold`, `partially_sold` included. It is also empty for a `null` or `0` price. Otherwise it is price − cost per unit, ignoring quantity and possibly negative. |
| `ProductTable.RowProfitIsPerUnit` | components/dashboard/ProductTable.tsx:73-76 | The row's per-unit profit times its sold units is the profit the statistics route books for that record. |
| `ProductTable.BadgeFor` | components/dashboard/ProductTable.tsx:188-193 | Both directions: the badge is the sold badge exactly when the status is the form's `sold` name. `available` and `partially_sold` both get the available badge. |
| `ProductTable.BadgeOfDerivedStatus` | components/dashboard/ProductTable.tsx:188-193 | For a status derived by the form, the badge shows "sold" exactly when every unit, and at least one, is sold. A partially sold product shows as available. |

## Left out

- Reading the products through the ORM, the JSON response and the 500 error
  path (app/api/stats/route.ts:14, 73-91) are I/O. The product list is a
  parameter and the response body is the returned value.
- Extracting the day with `toISOString().split('T')[0]` involves calendars and
  time zones. Each record carries its `day` key instead.
- `localeCompare` is modelled as character-by-character lexicographic order.
  This matches the collator on same-format `YYYY-MM-DD` keys. Years outside
  0000-9999 (a longer ISO form) are not modelled.
- Floating point: money is exact. Rounding, overflow to `Infinity` and NaN
  prices are not modelled.
- `ProductForm.BuildPayload`: `parseFloat` is a parameter returning a number,
  so a NaN price (and its `null` in JSON) is not modelled.
- `parseInt` is a parameter as well. Only its NaN result is modelled.
- Aliasing of bucket objects is not modelled. A bucket updated in place is
  replaced in the sequence, which is equivalent because no bucket is reachable
  from outside the fold.
- The JavaScript engine's sorting algorithm is unspecified. The model sorts by
  insertion and claims only the sorted permutation.
- React state, effects, `fetch`, dialogs, `confirm` and `alert`
  (ProductForm.tsx:40-68 and 100-126; ProductTable.tsx:46-49 and 78-104), and
  the page component, are UI and network code.
- The currency and date formatting helpers (`formatCurrency`, `formatDate`)
  are locale formatting done in a library.
- The chart components only render, and the margin in the summary cards is a
  floating-point division plus string formatting.
- The product API routes' defaults (quantity 1, sold quantity 0, status
  `available`) are not modelled. The statistics model assumes nothing about
  records.
- Record fields the core does not compute with (`id`, `name` in the table,
  `createdAt` beyond its day, `soldAt`) are not part of `Records.Product`.
