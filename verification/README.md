# Inventory forecasting engine, modelled in Dafny

This project models the forecasting and inventory-control engine of a small fashion-store
inventory application: the `useInventory` hook (src/hooks/useInventory.ts) and the forecast
chart's own helpers (src/pages/WMAForecast.tsx).

The engine keeps two collections, products and sales transactions. It supports four
mutations:
- **add product**
- **update product**: merges a partial record and does nothing for an unknown id.
- **delete product**: also deletes that product's sales.
- **record sale**: appends the sale and lowers the product's stock, floored at zero.

From the current collections it derives:
- **per-product metrics**, computed from that product's weekly sales totals:
  - a weighted moving average (WMA) forecast with weights 1, 2, 3 over the last three weeks
  - safety stock `ceil((Dmax - Davg) * LT)`
  - reorder point `ceil(Davg * LT + SS)`
  - a back-tested mean absolute percentage error (MAPE)
  - a safe / warning / critical stock status
- **dashboard counters**
- **the low-stock list**
- **per-category lists**
- **a newest-first sales history**

The chart page buckets a product's history into weeks again, with its own week-start rule. It
attaches a WMA forecast to every row from the fourth week on, shows the weighted-value cell
`1·a + 2·b + 3·c`, and rates a MAPE as very good, good, fair or poor.

Modules:

- `Types` (types.dfy): the record shapes.
  - Dates are day numbers: days since 1970-01-01, which was a Thursday.
  - Forecasts are integers in hundredths of a unit and MAPE values are integers in hundredths of a percent. The source rounds both to two decimals.
- `Calendar` (calendar.dfy): the weekday and the Monday week key of a day.
- `Numbers` (numbers.dfy): sum, maximum and mean, plus `Math.ceil` and `Math.round` over exact reals.
- `Collections` (collections.dfy): `filter` and `map` over sequences.
- `Bucketing` (bucketing.dfy): weekly bucketing.
  - It is generic in the function that maps a date to its week, so the hook and the chart share one definition.
  - `Bucket` is the dictionary-filling loop. It is proved against `KeysInOrder`, the first-occurrence key list, and `WeekTotal`, the per-week quantity.
  - `GroupSalesByWeek` is `groupSalesByWeek`. It is proved against the specification function `WeeklySeries`.
- `Forecasting` (forecasting.dfy): the WMA, safety stock, reorder point and MAPE, the back-test and the status classifier.
  - `CalculateMape` and `RunBacktest` are the source's loops, proved against the functions `Mape` and `Backtest`.
- `Inventory` (inventory.dfy): the store.
  - The pure state transitions and the derived views are functions with their lemmas.
  - The class `Store` holds `products` and `sales` as sequence fields. Each mutating method is one atomic state transition, the way the hook's pair of state setters acts. `GetProductMetrics` only reads the state.
- `WmaChart` (wma_chart.dfy): the chart's `getWeeklyData`, its local `calculateWMA`, the table cells and `getMAPECategory`.

The hook and the chart disagree about Sundays:
- The hook's `getWeekKey` files a Sunday under the Monday six days before it.
- The chart's `date.getDate() - date.getDay() + 1` files it under the Monday after it.

`WmaChart.ChartWeekStart` and `WmaChart.SundayShift` state this difference. `WmaChart.ChartMatchesHook` proves that the chart's weekly actuals equal the hook's weekly series whenever none of the product's sales falls on a Sunday. The model keeps both rules as written.

The metrics record stores the product's sales in the order in which they were filtered. Only
`getSalesHistory` sorts them newest first (src/hooks/useInventory.ts:181, 186 and 215).

## Model

| member | source | states |
|---|---|---|
| Calendar.Weekday | src/hooks/useInventory.ts:16 | the weekday of a day is in 0..6, 0 being Sunday |
| Calendar.WeekKey | src/hooks/useInventory.ts:13-20 | the week key is a Monday no later than the date and less than seven days before it, so a Sunday goes to the Monday six days earlier |
| Calendar.WeekKeyUnique | src/hooks/useInventory.ts:13-20 | the week key is the only Monday in the six days up to the date |
| Calendar.SameWeek | src/hooks/useInventory.ts:13-20 | two dates share a week key exactly when the second lies in the Monday-to-Sunday week of the first |
| Numbers.Sum | src/hooks/useInventory.ts:54 | definition: the `reduce((a, b) => a + b, 0)` sum, added left to right |
| Numbers.Mean | src/hooks/useInventory.ts:54 | definition: Davg, the sum over the number of weeks |
| Numbers.MaxOf | src/hooks/useInventory.ts:53 | `Math.max` of a non-empty series is one of its values and no value exceeds it |
| Numbers.Ceil | src/hooks/useInventory.ts:57 | `Math.ceil(x)` is the integer r with x <= r < x + 1 |
| Numbers.Round | src/hooks/useInventory.ts:43 | `Math.round(x)` is the integer r with x - 1/2 < r <= x + 1/2 (halves round up) |
| Numbers.Abs | src/hooks/useInventory.ts:83 | `Math.abs` is non-negative and is x or -x |
| Numbers.SumNonNegative | src/hooks/useInventory.ts:54 | a sum of non-negative values is non-negative |
| Numbers.MeanAtMostMax | src/hooks/useInventory.ts:53-55 | Davg never exceeds Dmax, so Dmax - Davg is never negative |
| Numbers.MeanNonNegative | src/hooks/useInventory.ts:68 | non-negative weekly sales have a non-negative Davg |
| Numbers.CeilShift | src/hooks/useInventory.ts:69-71 | adding the integer SS commutes with the ceiling |
| Collections.Filter | src/hooks/useInventory.ts:154-155 | `filter` keeps only elements of the input that pass, keeps every element that passes, and never grows |
| Collections.FilterAppend | src/hooks/useInventory.ts:155 | filtering distributes over concatenation, so survivors keep their relative order |
| Collections.FilterKeepsAll | src/hooks/useInventory.ts:154 | filtering a sequence whose every element passes returns it unchanged |
| Collections.FilterDropsAll | src/hooks/useInventory.ts:155 | filtering a sequence whose every element fails returns the empty sequence |
| Collections.Map | src/hooks/useInventory.ts:226 | `map` gives one result per element, the function applied to the element at the same index |
| Collections.MapAppend | src/hooks/useInventory.ts:226 | mapping distributes over concatenation, so results keep input order |
| Bucketing.KeysInOrder | src/hooks/useInventory.ts:24-29 | the grouping record's keys are distinct and are exactly the weeks that have a sale; the order in which it lists them is not stated |
| Bucketing.SortAscending | src/hooks/useInventory.ts:30 | the key sort returns a permutation of its input in ascending order, strictly ascending when the keys are distinct |
| Bucketing.BucketWeeks | src/hooks/useInventory.ts:29-30 | the sorted week list is strictly ascending and holds exactly the weeks that have at least one sale |
| Bucketing.TotalsFor | src/hooks/useInventory.ts:31 | the mapped series has one entry per week, each the quantity sold in that week |
| Bucketing.BucketTotals | src/hooks/useInventory.ts:23-32 | definition: under any week rule, the total of each week with a sale, earliest week first |
| Bucketing.WeeklySeries | src/hooks/useInventory.ts:23-32 | definition: the series under the Monday week key; its properties are in the lemmas below |
| Bucketing.Bucket | src/hooks/useInventory.ts:24-28 | after the `forEach` the key order is the first-occurrence order and `grouped[k]` is the quantity sold in week k, for exactly the weeks seen |
| Bucketing.GroupSalesByWeek | src/hooks/useInventory.ts:23-32 | the returned series is the weekly series, its sum is the total quantity sold, and it is empty exactly when there are no sales |
| Bucketing.WeekTotalAbsent | src/hooks/useInventory.ts:27 | a week without sales totals 0, the start value a new week key gets |
| Bucketing.TotalsAgree | src/hooks/useInventory.ts:29-31 | any series holding each listed week's total is the mapped series |
| Bucketing.BucketTotalsSum | src/hooks/useInventory.ts:23-32 | under any week rule, the weekly totals sum to the total quantity sold |
| Bucketing.WeeklySeriesTotal | src/hooks/useInventory.ts:23-32 | the weekly series sums to the total quantity sold |
| Bucketing.BucketTotalsEmpty | src/hooks/useInventory.ts:23-32 | under any week rule, the series is empty exactly when there are no sales |
| Bucketing.WeeklySeriesEmpty | src/hooks/useInventory.ts:23-32 | empty input gives an empty weekly series and only empty input does |
| Bucketing.WeeklySeriesNonNegative | src/hooks/useInventory.ts:27 | non-negative quantities give non-negative weekly totals |
| Bucketing.WeeklySeriesAppend | src/hooks/useInventory.ts:27 | one more sale adds exactly its quantity to the series' sum |
| Bucketing.WeekTotalPermutation | src/hooks/useInventory.ts:25-28 | a week's total does not depend on the order of the sales |
| Bucketing.BucketPermutation | src/hooks/useInventory.ts:23-32 | the weeks and the weekly totals do not depend on the order of the sales |
| Bucketing.BucketSameKeys | src/hooks/useInventory.ts:26 | two week rules that agree on every sale date give the same weeks and totals |
| Forecasting.WeightedSum | src/hooks/useInventory.ts:40 | definition: the `reduce((sum, val, idx) => sum + val * weights[idx], 0)` fold |
| Forecasting.WeightedSumOfThree | src/hooks/useInventory.ts:40 | the `reduce` over the last three weeks is v_old + 2·v_mid + 3·v_new |
| Forecasting.HundredthsOfSixth | src/hooks/useInventory.ts:43 | `(100·ws + 3) / 6` is `Math.round(ws / 6 * 100)`; no tie is possible |
| Forecasting.Wma | src/hooks/useInventory.ts:35-44 | fewer than three weeks give the last week, or 0 if there is none; otherwise (v_old + 2·v_mid + 3·v_new) / 6 rounded to two decimals |
| Forecasting.WmaWindow | src/hooks/useInventory.ts:39-43 | only the last three weeks matter, and the forecast lies between their least and greatest value |
| Forecasting.WmaExamples | src/hooks/useInventory.ts:35-44 | [] gives 0, [7] gives 7, [4, 9] gives 9, and both [5, 10, 15] and [1, 5, 10, 15] give 11.67 |
| Forecasting.SafetyStock | src/hooks/useInventory.ts:47-58 | an empty series gives 0; otherwise the ceiling of (Dmax - Davg)·LT, which is non-negative for LT >= 0 |
| Forecasting.ReorderPoint | src/hooks/useInventory.ts:61-72 | an empty series gives SS; otherwise SS + ceil(Davg·LT), at least Davg·LT + SS, and never below SS for non-negative sales and LT |
| Forecasting.SafetyStockExamples | src/hooks/useInventory.ts:47-72 | an empty series gives SS = ROP = 0; [10, 12, 14, 20] with a lead time of one week gives SS = 6 and ROP = 20 |
| Forecasting.ErrorSum | src/hooks/useInventory.ts:81-86 | the accumulated absolute percentage error is never negative |
| Forecasting.CountedIndices | src/hooks/useInventory.ts:81-86 | the count of indices with a positive actual never exceeds the indices scanned |
| Forecasting.Mape | src/hooks/useInventory.ts:75-89 | MAPE is non-negative, and 0 when either input is empty or no index below the shorter length has a positive actual; otherwise it is the error sum over the count, times 10000, rounded to the nearest hundredth of a percent |
| Forecasting.CalculateMape | src/hooks/useInventory.ts:75-89 | the accumulating loop returns exactly the MAPE |
| Forecasting.ErrorSumIgnoresUncounted | src/hooks/useInventory.ts:82-85 | forecasts at indices whose actual is not positive do not change the error sum |
| Forecasting.MapeIgnoresUncounted | src/hooks/useInventory.ts:82-85 | forecasts at indices whose actual is not positive never change the MAPE |
| Forecasting.MapeExample | src/hooks/useInventory.ts:75-89 | actual [0, 10] against forecast [5, 8] gives 20 % |
| Forecasting.Forecasts | src/hooks/useInventory.ts:197-201 | the back-test forecasts for weeks 3 onward number weeks - 3, and forecast k is the WMA of weeks k..k+2 |
| Forecasting.Backtest | src/hooks/useInventory.ts:194-203 | MAPE is absent exactly when there are fewer than four weeks; otherwise actuals and forecasts both have weeks - 3 entries and the MAPE compares them and is non-negative |
| Forecasting.RunBacktest | src/hooks/useInventory.ts:194-203 | the back-test loop returns exactly that MAPE |
| Forecasting.Classify | src/hooks/useInventory.ts:206-211 | critical iff stock <= ROP, warning iff ROP < stock <= ROP + SS, safe iff stock exceeds both |
| Forecasting.ClassifyMonotone | src/hooks/useInventory.ts:206-211 | more stock never gives a more severe status |
| Forecasting.ClassifyBoundaries | src/hooks/useInventory.ts:206-211 | stock equal to ROP is critical, ROP + SS is warning when SS > 0, ROP + SS + 1 is safe |
| Inventory.Merge | src/hooks/useInventory.ts:149 | definition: `{ ...p, ...updates }`, each key the patch carries overriding the product's, `id` included |
| Inventory.UpdateProducts | src/hooks/useInventory.ts:148-150 | the patch is merged into exactly the products with the id, every other product is unchanged, length and order are kept, and an unknown id changes nothing |
| Inventory.ApplySale | src/hooks/useInventory.ts:167-172 | the matching product's stock becomes max(0, stock - quantity), so it is never negative; other products are unchanged; an unknown product id changes nothing |
| Inventory.ApplySaleKeepsStocksNonNegative | src/hooks/useInventory.ts:169 | recording a sale keeps every stock non-negative |
| Inventory.SalesOf | src/hooks/useInventory.ts:186 | a sale is in a product's sales exactly when it is one of the sales and names that product |
| Inventory.RemoveProduct | src/hooks/useInventory.ts:154 | definition: the products whose id differs, through `Filter` |
| Inventory.RemoveSalesOf | src/hooks/useInventory.ts:155 | definition: the sales of other products, through `Filter` |
| Inventory.RemoveProductSpec | src/hooks/useInventory.ts:154 | after deletion no product has the id, every other product is kept, and deleting an unknown id changes nothing |
| Inventory.RemoveSalesOfSpec | src/hooks/useInventory.ts:155 | after the cascade no sale names the product, and every other sale is kept |
| Inventory.RemoveSalesOfKeepsOrder | src/hooks/useInventory.ts:155 | the cascade works piecewise over concatenation, so the surviving sales keep their relative order |
| Inventory.InsertByDate | src/hooks/useInventory.ts:181 | inserting a sale into the history adds exactly that sale |
| Inventory.SortNewestFirst | src/hooks/useInventory.ts:181 | the date sort returns a permutation of its input, newest first |
| Inventory.SalesHistory | src/hooks/useInventory.ts:178-182 | the history holds exactly the product's sales, each as often as it occurs, newest first |
| Inventory.ProductMetrics | src/hooks/useInventory.ts:185-222 | the metrics keep the product and its unsorted sales; with w the product's weekly series and LT its lead time in days over 7, the forecast is the WMA of w, SS and ROP are the safety stock and reorder point of w and LT, and MAPE is the back-test of w, so it is absent iff fewer than four weeks; status is critical iff stock <= ROP and warning iff ROP < stock <= ROP + SS; SS >= 0 and ROP >= SS for non-negative lead time and quantities |
| Inventory.ProductsWithMetrics | src/hooks/useInventory.ts:225-227 | one metrics record per product, in product order |
| Inventory.LowStockProducts | src/hooks/useInventory.ts:247-249 | the low-stock list is no longer than the product list and holds only metrics records of the products, each warning or critical, and every such product's record |
| Inventory.ProductsByCategory | src/hooks/useInventory.ts:252-254 | the list is no longer than the product list and holds only metrics records of the products, each of the category, and the record of every product of the category |
| Inventory.ViewsKeepProductOrder | src/hooks/useInventory.ts:247-254 | the low-stock and per-category views work piecewise over concatenated product lists, so they list products in product order |
| Inventory.MapeValues | src/hooks/useInventory.ts:232 | every defined MAPE is collected, every collected value is some product's MAPE, and there are no more values than products |
| Inventory.MapeValuesAppend | src/hooks/useInventory.ts:232 | collection works piecewise over concatenation, so the values follow product order |
| Inventory.LowSplits | src/hooks/useInventory.ts:237-238 | the low-stock list is as long as the warnings plus the criticals |
| Inventory.MapeValuesNonNegative | src/hooks/useInventory.ts:232 | every collected MAPE is non-negative |
| Inventory.Dashboard | src/hooks/useInventory.ts:230-244 | totalProducts = totalSKUs = number of products; totalTransactions = number of sales; lowStockCount is the number of warnings and criticalStockCount the number of criticals, which together make the length of the low-stock list; averageMAPE is 0 with no MAPE, otherwise the mean of the MAPEs rounded to two decimals |
| Inventory.AverageMape | src/hooks/useInventory.ts:240-242 | the average of non-negative MAPEs is non-negative, 0 for none, otherwise the mean rounded to two decimals |
| Inventory.SaleReflectedInMetrics | src/hooks/useInventory.ts:159-187 | right after a sale, the product's metrics show the clamped stock and a weekly series grown by exactly the sold quantity |
| Inventory.Store.constructor | src/hooks/useInventory.ts:133-134 | the store starts from the given products and sales |
| Inventory.Store.AddProduct | src/hooks/useInventory.ts:137-145 | appends one product built from the draft, the new id and the timestamp; sales unchanged; product ids stay unique |
| Inventory.Store.UpdateProduct | src/hooks/useInventory.ts:148-150 | products become the merged list; sales unchanged |
| Inventory.Store.DeleteProduct | src/hooks/useInventory.ts:153-156 | the product and all its sales are removed, the rest kept, so its sales history is then empty |
| Inventory.Store.AddSale | src/hooks/useInventory.ts:159-175 | appends exactly one sale and clamps the product's stock; stocks stay non-negative and sale ids unique |
| Inventory.Store.GetProductMetrics | src/hooks/useInventory.ts:185-222 | the step-by-step computation with the bucketing and back-test loops returns exactly the product's metrics |
| WmaChart.ChartWeekStart | src/pages/WMAForecast.tsx:40-43 | the chart's week start is a Monday; it equals the hook's week key from Monday to Saturday, and a Sunday maps to the next day, one week after the hook's key |
| WmaChart.ChartWma | src/pages/WMAForecast.tsx:67-74 | the page's WMA: fewer than three weeks give the last week, or 0 if there is none; otherwise (v_old + 2·v_mid + 3·v_new) / 6 rounded to two decimals |
| WmaChart.ChartWmaAgrees | src/pages/WMAForecast.tsx:67-74 | the page's `calculateWMA` equals the hook's on every input |
| WmaChart.RowForecast | src/pages/WMAForecast.tsx:54-55 | a row has a forecast exactly from the fourth week on, and then the WMA of all earlier weeks equals the WMA of the three just before |
| WmaChart.RowsOf | src/pages/WMAForecast.tsx:53-62 | one row per week, carrying that week, its actual, and its forecast |
| WmaChart.ChartRows | src/pages/WMAForecast.tsx:36-65 | definition: the rows over the chart's weeks and week totals; its properties are in the three lemmas below |
| WmaChart.ChartRowsActuals | src/pages/WMAForecast.tsx:39-49 | every row's actual is the quantity sold in that row's week |
| WmaChart.ChartRowsAscending | src/pages/WMAForecast.tsx:52 | rows are in strictly ascending week order |
| WmaChart.ChartRowsWeeks | src/pages/WMAForecast.tsx:39-52 | there is a row for a week exactly when the history has a sale in it |
| WmaChart.GetWeeklyData | src/pages/WMAForecast.tsx:36-65 | the record-filling loop, key sort and map return exactly the chart rows |
| WmaChart.HasForecast | src/pages/WMAForecast.tsx:246 | definition: at least three rows precede this one |
| WmaChart.WeightedValue | src/pages/WMAForecast.tsx:259-264 | the weighted-value cell is a + 2·b + 3·c over the previous three rows' actuals |
| WmaChart.WindowRounding | src/pages/WMAForecast.tsx:67-74 | over any three weeks the WMA lies within half a hundredth of the weighted value over 6, in hundredths |
| WmaChart.RowsOfForecastCells | src/pages/WMAForecast.tsx:244-266 | rows built from any weeks and actuals carry a forecast exactly from index 3 on, equal to the WMA of the three weeks before and to the rounded weighted value over 6 |
| WmaChart.RowForecastCells | src/pages/WMAForecast.tsx:244-266 | a row has a forecast exactly when `hasForecast` holds; it is the WMA of the three previous actuals and the weighted-value cell over 6, rounded to two decimals |
| WmaChart.RowMatchesBacktest | src/pages/WMAForecast.tsx:53-56 | each charted forecast is the back-test forecast over the chart's own weekly actuals |
| WmaChart.RowMatchesHookBacktest | src/pages/WMAForecast.tsx:53-56 | when no sale of the product falls on a Sunday, each charted forecast is the hook's back-test forecast for that week |
| WmaChart.ChartMatchesHook | src/pages/WMAForecast.tsx:33-52 | when no sale of the product is on a Sunday, the chart's weekly actuals equal the hook's weekly series |
| WmaChart.SundayShift | src/pages/WMAForecast.tsx:42 | a Sunday sale is charted one week later than the hook counts it |
| WmaChart.MapeCategoryOf | src/pages/WMAForecast.tsx:79-85 | undefined is N/A, below 10 % very good, below 20 % good, below 50 % fair, else poor; each iff |
| WmaChart.Label | src/pages/WMAForecast.tsx:80-84 | definition: the badge text of each rating |
| WmaChart.MapeCategoryBoundaries | src/pages/WMAForecast.tsx:79-85 | 9.99 % is "Sangat Baik", 10 % is "Baik", 50 % is "Buruk", undefined is "N/A" |

## Left out

- Dates are whole day numbers. The local-time `setHours`, the UTC `toISOString` key and `new Date(string)` parsing are not modelled, and neither is any time-zone shift they cause. Ordering the ISO date strings is taken to be chronological.
- The chart shows its week as a localised label (`toLocaleDateString`). The model keeps the day number.
- `generateId` and the timestamp of `addProduct` use `Math.random` and the clock. They become method parameters, and each id is required not to be in use yet.
- The random sample data is not modelled. The store starts from whatever collections it is given.
- React's `useState`, `useCallback` and `useMemo`, and its batched asynchronous setters, are not modelled. Each operation is one atomic transition and each derived view is a function of the current collections. Under that reading, freshness after a mutation and a repeated read giving the same value hold by construction; `Inventory.SaleReflectedInMetrics` states the freshness case for a sale.
- Floating-point arithmetic is replaced by exact arithmetic:
  - forecasts and MAPE are integers in hundredths
  - safety stock, reorder point and the MAPE ratios are computed over `real`
  - IEEE-754 rounding artefacts are not modelled.
- A patch key that is present but `undefined` is not modelled. A key is either absent or carries a value.
- Inventory.Store.UpdateProduct: product-id uniqueness is not proved to be preserved, because the patch may set `id`.
- Inventory.Store.AddSale: quantity positivity and sufficient stock are checked by the sales form, not by the store. They are not required here, and the clamp is proved without them.
- Inventory.SortNewestFirst: the sort is a stable insertion sort, but only the newest-first order and the permutation are proved. Stability is not stated.
- The rendering and chart drawing are not modelled, nor are the dashboard's fixed research figures and fallbacks. src/pages/Dashboard.tsx is not part of this model.
- The Dmax and Davg that the safety-stock page displays are not modelled. src/pages/SafetyStockROP.tsx is not part of this model.
- The unused `WMAForecast`, `SafetyStock` and `ReorderPoint` interfaces are not modelled.
- The product form's validation and search, and the sales form's guard, are UI code and not part of this model.
