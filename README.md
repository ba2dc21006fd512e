# sales-bonus: a verified model of the sales report pipeline

This project models `analyzeSalesData` from `src/main.js`, together with its two default
strategies `calculateSimpleRevenue` and `calculateBonusByProfit`. `analyzeSalesData` builds a
per-seller report from a dataset of sellers, customers, products and purchase records. It runs
these stages:

- It validates the dataset and the options.
- It creates one statistics record per seller.
- It indexes sellers by id and products by sku.
- It makes one accumulation pass over the purchase records, adding sales, revenue, profit and
  quantities per sku.
- It sorts the records by profit.
- At each rank it writes the bonus from the bonus strategy and the top ten products.

Modules:

- `SalesTypes` (`types.dfy`) holds the data:
  - the input cards;
  - the per-seller record `SellerStats`;
  - the two strategy types;
  - the two error messages.
- `Policies` (`policies.dfy`) holds the two default strategies as pure functions.
- `StableSort` (`stable_sort.dfy`) holds the descending stable sort used by both sorts:
  - `SortDesc` is a functional insertion sort and serves as the specification.
  - `SortInPlace` sorts an array in place and is proved to produce `SortDesc`.
  - `SortDescUnique` shows that every stable descending sort gives the same result. So the
    host's own sort algorithm does not matter.
- `Indexes` (`indexes.dfy`) holds `Object.fromEntries` and the two lookup tables. In the seller
  table, a later record with the same key wins.
- `ProductsSold` (`products_sold.dfy`) holds a seller's sku → quantity dictionary, kept as
  entries in insertion order, and the top-products list derived from it.
- `Accumulation` (`accumulate.dfy`) holds the accumulation pass:
  - `AccumulateAll` is the specification fold.
  - `AccumulateRecords` and `AccumulateItems` are the loops that mutate the array of seller
    records.
  - Closed-form lemmas give each seller's counters as sums over the records booked to it.
- `Analysis` (`analysis.dfy`) holds the entry point:
  - `AnalyzeSalesData` is the procedure, including its two error paths.
  - `Report` specifies a successful run.
  - Lemmas state what a report guarantees.

The seller records are the objects the source mutates through `sellerIndex`. Here they live in
an `array<SellerStats>`, and the seller table maps an id to a position in that array. The
strategies are parameters of function type. So every lemma about `Report` holds for any
strategy, and the lemmas named `Default…`, `…Scenario` and `…Intended` fix particular ones.

## Model

| member | source | states |
|---|---|---|
| Policies.SimpleRevenue | src/main.js:7-11 | With no discount the revenue is quantity × sale price. With a 100% discount it is 0. |
| Policies.SimpleRevenueBounds | src/main.js:7-11 | With a discount between 0 and 100 and non-negative quantity and price, the revenue lies between 0 and quantity × sale price. |
| Policies.BonusByProfit | src/main.js:20-32 | The rate by rank: 0.15 for rank 0; 0.10 for ranks 1 and 2 (even when one of them is the last place); from rank 3 on, 0.00 for the last place and 0.05 otherwise. Every rate lies between 0 and 0.15. |
| Policies.BonusRateNonIncreasing | src/main.js:20-32 | A better rank never gets a lower rate. |
| Policies.LastPlaceRate | src/main.js:22-32 | The last place gets 0.15 with one seller, 0.10 with two or three (ranks 1–2 are matched first), and 0.00 otherwise. |
| Policies.MiddleRankRate | src/main.js:28-31 | Ranks from 3 up to, but not including, the last place get 0.05. |
| Policies.IntendedBonus | src/main.js:20-32 | Corrected policy: the bonus is an amount. Rank 0 gets 15% of profit. A last place that is not also first gets 0. Ranks 1–2 that are not last get 10%. With non-negative profit the bonus lies between 0 and 15% of profit. |
| Policies.IntendedBonusVersusRate | src/main.js:20-32 | The corrected amount is the coded rate × profit except at a last place of rank 1 or 2, where the code gives 0.10 and the corrected policy gives 0. |
| Indexes.FromEntries | src/main.js:75-76 | The keys of the table are exactly the keys of the pairs. |
| Indexes.FromEntriesValue | src/main.js:75-76 | Every value comes from a pair with that key. |
| Indexes.FromEntriesLast | src/main.js:75-76 | The last pair with a given key decides its value. |
| Indexes.SellerIndex | src/main.js:75 | The seller table is `FromEntries` over the pairs (id, position) of the records. What it holds is stated by `SellerIndexSpec`. |
| Indexes.ProductIndex | src/main.js:76 | The product table is `FromEntries` over the pairs (sku, card). What it holds is stated by `ProductIndexSpec`. |
| Indexes.SellerIndexSpec | src/main.js:75 | The keys of the seller table are the seller ids. Each id points at a record with that id. With distinct ids, each id points at its own record. |
| Indexes.ProductIndexSpec | src/main.js:76 | The keys of the product table are the skus. Each sku maps to a card with that sku, namely the last card with it. |
| ProductsSold.AddQuantity | src/main.js:90-93 | Adding keeps every existing key at its position, leaves the entries of other skus unchanged, and adds at most one entry. |
| ProductsSold.AddQuantityCounts | src/main.js:90-93 | The quantity of the sku grows by the item's quantity. No other sku's quantity changes. |
| ProductsSold.AddQuantityKeys | src/main.js:90-93 | The keys become the old keys plus the sku. A new sku is appended with its quantity (starting from 0). An existing sku adds no entry. |
| ProductsSold.AddQuantityDistinct | src/main.js:90-93 | Adding keeps the keys distinct, as in a real dictionary. |
| ProductsSold.EntryQuantity | src/main.js:90-93 | In a dictionary each entry holds the whole quantity of its sku. |
| ProductsSold.TopProducts | src/main.js:104-109 | The dictionary's entries sorted by quantity, highest first and stable, cut to at most ten. Its meaning is stated by `TopProductsLength`, `TopProductsFromSold`, `TopProductsCutoff`, `TopProductsTies` and `SortedTopProducts`. |
| ProductsSold.TopProductsLength | src/main.js:104-109 | The top list has min(10, number of distinct skus) entries. |
| ProductsSold.TopProductsFromSold | src/main.js:104-108 | Every listed entry is a dictionary entry with its sku's whole quantity. |
| ProductsSold.TopProductsCutoff | src/main.js:109 | No entry left out of the list sold more than the last entry kept. |
| ProductsSold.TopProductsTies | src/main.js:109 | Entries with equal quantity appear in dictionary order. |
| ProductsSold.TopProductsSpec | src/main.js:104-109 | All of the above for the top list, plus non-increasing quantities. |
| StableSort.Insert | src/main.js:98 | One insertion step adds exactly one element. |
| StableSort.SortDesc | src/main.js:98-109 | The stable descending sort used for the ranking (line 98) and the top list (line 109), insertion by insertion. It keeps the length; its meaning is stated by `SortDescPermutation`, `SortDescSorted`, `SortDescStable` and `SortDescUnique`. |
| StableSort.SortDescPermutation | src/main.js:98 | The sort is a permutation of its input. |
| StableSort.SortDescSorted | src/main.js:98 | The sort orders by non-increasing key. |
| StableSort.SortDescStable | src/main.js:98 | For every key value, the elements with that key keep their input order. |
| StableSort.SortDescUnique | src/main.js:98 | Any sorted sequence with the same length that keeps the order of equal keys equals `SortDesc`. |
| StableSort.InsertInPlace | src/main.js:98 | The in-place insertion step leaves `Insert` of the old prefix and the old element in the array, and changes nothing after them. |
| StableSort.SortInPlace | src/main.js:98 | The array ends as `SortDesc` of its old contents. |
| Accumulation.ItemProfit | src/main.js:85-88 | The profit of one item: strategy revenue minus purchase price × quantity of the card its sku names. It is summed by `ApplyItemsProfit`. |
| Accumulation.ApplyItem | src/main.js:85-93 | One item adds its profit to the record and its quantity under its sku. What it changes is stated by `ApplyItemsProfit`, `ApplyItemsQuantity`, `ApplyItemsSkus` and `AddQuantityCounts`. |
| Accumulation.ApplyItems | src/main.js:84-94 | The items of a record, in order. Its effect is stated by `ApplyItemsProfit`, `ApplyItemsQuantity`, `ApplyItemsSkus` and `ApplyItemsDistinct`. |
| Accumulation.ApplyRecord | src/main.js:80-94 | One record: one more sale, its total added to the revenue, then its items. Its effect is stated by `ApplyRecordCounters` and the `ApplyItems` lemmas. |
| Accumulation.AccumulateAll | src/main.js:79-95 | The fold keeps the number of seller records. |
| Accumulation.ApplyItemsProfit | src/main.js:84-89 | A record's items add their profits (revenue from the strategy minus purchase price × quantity) to the profit. They change nothing but profit and the dictionary. |
| Accumulation.ApplyItemsQuantity | src/main.js:90-93 | A record's items add their quantities under their skus. |
| Accumulation.ApplyItemsSkus | src/main.js:90-93 | A record's items add their skus to the keys. |
| Accumulation.ApplyItemsDistinct | src/main.js:90-93 | A record's items keep the keys distinct. |
| Accumulation.ApplyRecordCounters | src/main.js:80-89 | One record adds one sale, its total to revenue and its item profits to profit. Id, name, bonus and top products are untouched. |
| Accumulation.AccumulateAllLast | src/main.js:79-82 | The last record changes only the seller record it is booked to. |
| Accumulation.AccumulateAllAt | src/main.js:79-89 | After the pass, seller k's sales count is its start value plus the number of records booked to k. Its revenue and profit are its start values plus their totals and their item profits. Its other fields are unchanged. |
| Accumulation.AccumulateAllQuantity | src/main.js:84-93 | After the pass, each sku's quantity for seller k is the quantity of that sku in the records booked to k. |
| Accumulation.AccumulateAllSkus | src/main.js:90-93 | After the pass, seller k's keys are the skus sold in its records. |
| Accumulation.AccumulateAllDistinct | src/main.js:90-93 | After the pass, every dictionary still has distinct keys. |
| Accumulation.TotalSalesAccumulate | src/main.js:79-81 | Every record adds exactly one sale in total. |
| Accumulation.AccumulateItems | src/main.js:84-94 | The inner loop leaves the record at the seller's position as the fold over the items. Every other record is unchanged. |
| Accumulation.AccumulateRecords | src/main.js:79-95 | The outer loop leaves the array as `AccumulateAll` of the records. |
| Analysis.ValidData | src/main.js:43-51 | The dataset is present and its four collections are non-empty arrays. `AnalyzeSalesData` raises the data error exactly when it fails. |
| Analysis.ValidOptions | src/main.js:54-60 | Both strategies are present. `AnalyzeSalesData` raises the options error exactly when it fails, after valid data. |
| Analysis.NewStats | src/main.js:64-71 | A fresh record: the seller's id, the name "first last", zero totals and an empty dictionary. `AccumulatedTotals` and `InitAbsent` state what survives of it. |
| Analysis.InitStats | src/main.js:63-72 | One fresh record per seller. |
| Analysis.ContextResolves | src/main.js:75-86 | When every seller_id and sku refers to an existing card, every lookup of the pass succeeds and the seller table points inside the array. |
| Analysis.Accumulated | src/main.js:63-95 | The pass keeps one record per seller. |
| Analysis.Ranked | src/main.js:98 | The ranking keeps one record per seller. |
| Analysis.Award | src/main.js:100-110 | The bonus of the strategy for the rank and the top-products list written onto one record. `ReportSorted` and `ReportTopProducts` state its effect on the report. |
| Analysis.AwardAll | src/main.js:100-110 | The last stage keeps the number of records. |
| Analysis.SortedTopProducts | src/main.js:104-109 | Copying the entries into an array, sorting it in place and keeping the first ten gives `TopProducts`. |
| Analysis.AssignBonuses | src/main.js:100-110 | The loop writes, at each rank, the strategy's bonus for (rank, number of sellers, record) and the top products. |
| Analysis.Report | src/main.js:63-110 | The result of a successful run: fresh records, accumulated, ranked and awarded. `AnalyzeSalesData` is proved to return it, and `ReportSorted`, `ReportTopProducts`, `ReportSalesTotal`, `ReportFromSellers` and `DefaultBonusReport` state what it guarantees. |
| Analysis.AnalyzeSalesData | src/main.js:41-121 | The data error is raised exactly when the dataset or one of its four arrays is missing or empty. Otherwise the options error is raised exactly when a strategy is missing. Otherwise the result is `Report`, with one record per seller and non-increasing profits. |
| Analysis.BuildReport | src/main.js:63-110 | The stages after validation (create, index, accumulate, sort in place, award) give exactly `Report`. |
| Analysis.ReportSorted | src/main.js:98-110 | The report has one record per seller and non-increasing profits. The record at rank i is the ranked record plus bonus(i, n, record) and its top products. |
| Analysis.InitAbsent | src/main.js:63-72 | Before the last stage no record has a bonus or top products. |
| Analysis.RankingIsStablePermutation | src/main.js:98 | The ranking holds exactly the accumulated records. Sellers with equal profit keep their order in the seller list. |
| Analysis.AccumulatedTotals | src/main.js:63-89 | Seller k's record keeps its id and "first last" name. Its sales count, revenue and profit are the count, total sum and profit sum of the records booked to it. |
| Analysis.AccumulatedSold | src/main.js:84-93 | Seller k's dictionary holds per sku the quantity sold in its records, is keyed by exactly those skus, and has no repeats. |
| Analysis.AccumulatedAt | src/main.js:63-95 | The two lemmas above together. With distinct seller ids, a record is booked to seller k exactly when its seller_id is k's id. |
| Analysis.ReportFromSellers | src/main.js:98-110 | Apart from bonus and top products, every report record is the accumulated record of some seller. |
| Analysis.ReportSalesTotal | src/main.js:79-81 | The sales counts of the report add up to the number of purchase records. |
| Analysis.DefaultBonusReport | src/main.js:20-32 | Under the default policy, first place gets 0.15. The last place gets 0.15, 0.10 or 0.00 depending on the number of sellers. Rates never increase down the ranking. |
| Analysis.ReportTopProducts | src/main.js:104-109 | Each report record's top list has min(10, distinct skus) entries in non-increasing quantity, taken from its dictionary with whole quantities. Nothing left out sold more than the last entry kept. Entries with equal quantities keep dictionary order. |
| Analysis.TiedSellersScenario | src/main.js:22-32 | Profits 300, 300 and 100: the tied pair keeps its order, and the coded rates are 0.15, 0.10 and 0.10. |
| Analysis.TiedSellersIntended | src/main.js:22-32 | The same sellers under the corrected policy get 45, 30 and 0. |
| Analysis.SingleSellerTables | src/main.js:75-76 | The tables of the one-seller dataset. |
| Analysis.SingleSellerRecord | src/main.js:79-94 | Five units bought at 10 and sold at 20 with total 50 give revenue 50, profit 50, one sale and five units of P1. |
| Analysis.SingleSellerAccumulated | src/main.js:63-95 | The whole pass over the one-seller dataset gives that record. |
| Analysis.SingleSellerScenario | src/main.js:41-110 | The report for "Anna Ivanova" has revenue 50, profit 50, one sale, rate 0.15 and top products [P1 × 5]. |
| Analysis.SingleSellerIntended | src/main.js:20-32 | Under the corrected policy, the same seller's bonus is 7.5. |

## Findings

| source | as written | input that shows it | evidently intended | confidence | as-written member | corrected member |
|---|---|---|---|---|---|---|
| src/main.js:20-32 | `calculateBonusByProfit` returns the rate itself (0.15, 0.10, 0.00, 0.05) as the bonus. | One seller with profit 50 gets bonus 0.15. | The rate applied to the profit, i.e. 0.15 × 50 = 7.5: the function receives the seller record but never reads it, and the result's `bonus` field is documented as a money figure with two decimals (src/main.js:119), like `revenue` and `profit`. | medium, not executed | Analysis.SingleSellerScenario | Analysis.SingleSellerIntended |
| src/main.js:25-29 | Ranks 1 and 2 are matched before `total - 1`, so with two or three sellers the last place gets 0.10. | Three sellers with profits 300, 300, 100: the last gets 0.10. | The last place gets nothing unless it is also first: 0. The code has a last-place rule, `case total - 1: return 0.00` (src/main.js:28-29), but it comes after `case 1: case 2:`, so with two or three sellers it can never be reached. | medium, not executed | Analysis.TiedSellersScenario | Analysis.TiedSellersIntended |

The corrected policy is `Policies.IntendedBonus`. The pipeline takes the bonus strategy as a
parameter, so every report lemma (`ReportSorted`, `ReportTopProducts`, `ReportSalesTotal`, …)
holds for it as it does for the coded one.

## Notes on the code as written

The model follows the code:

- The default bonus is a rate, not an amount (see Findings).
- The last place of two or three sellers gets 0.10 (see Findings).
- No rounding to two decimals takes place. The final projection (src/main.js:112-120) is left
  unfinished in the code, so the model's result is the ranked records themselves, including
  `products_sold`.

## Left out

- The final projection and two-decimal rounding (src/main.js:112-120): the code there is
  unfinished (the field values are missing), so there is no behaviour to model. The result is
  the list of ranked and awarded seller records.
- Floating point: money is exact `real` and quantities are `int`. The model has no rounding
  error, NaN or infinity, so `b.profit - a.profit` in the comparators is modelled as an exact
  comparison.
- JavaScript's dynamic checks: a missing or non-array field of the dataset, and a missing or
  non-function strategy, are `None`. Truthiness of other values (for example `data` being a
  non-object) is not modelled.
- An `options` argument that is itself missing makes the source throw a `TypeError` while
  destructuring. The model always receives an options record.
- Dangling references: both tables are plain objects (src/main.js:75-76), so a lookup of a
  seller_id or sku that has no card gives either `undefined` or, for a key that names a member
  of `Object.prototype` (such as `toString` or `valueOf`), an inherited function. Once the data
  and the options pass validation, an `undefined` seller or product makes the source throw a
  `TypeError` (at src/main.js:81 or :86). An inherited function does not always throw. An item
  sku such as `valueOf` gives NaN cost and profit, and lines 90-93 then store a string under
  that key. A seller_id such as `toString` writes NaN counters onto the function object, so
  the record is counted for no seller. If that record has items, the source throws at line 90.
  `AnalyzeSalesData` requires `DatasetResolves` for valid data and options, which excludes all
  of these cases. Invalid inputs, resolved or not, still reach the two error results.
- `customers` is only checked to be a non-empty array. Its contents are never read.
- Object key order: `Object.entries` lists integer-like keys first in ascending order, and the
  dictionary here keeps every key in insertion order. Top-product ties in which at least one
  sku is integer-like can therefore be ordered differently. For example, with "A" sold before
  "7" and both at quantity 3, the model lists "A" first and `Object.entries` lists "7" first.
  Skus that name members of `Object.prototype` (such as `constructor`) are treated here like
  any other key.
- The host's sort algorithm: both sorts are modelled as insertion sort. `SortDescUnique` shows
  that every stable descending sort gives the same result. A non-stable host sort is not
  modelled.
- `calculateSimpleRevenue`'s second parameter `_product` is never used, and the call site
  passes only the item. The strategy type takes the item alone.
- Strategies are assumed pure and total, as Dafny functions are. A strategy that throws, or
  that mutates the record it receives, is not modelled.
- The `if (!seller.products_sold[sku])` reset (src/main.js:90-92) is modelled as "create the
  entry at 0 when absent". An existing entry whose running quantity is 0 is reset to 0 by the
  source before the addition, which gives the same sum.
