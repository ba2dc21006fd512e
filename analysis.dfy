/**
 * The entry point `analyzeSalesData` (src/main.js:41-121): validation,
 * one statistics record per seller, the accumulation pass, the ranking by
 * profit and the bonus and top-products stage.
 *
 * `Report` is the specification of a successful run; `AnalyzeSalesData`
 * is the step-by-step procedure, proved to return exactly `Report`, and
 * the lemmas below state what `Report` guarantees.
 */
module Analysis {
  import opened SalesTypes
  import opened StableSort
  import opened Indexes
  import opened ProductsSold
  import opened Accumulation
  import Policies

  // ----- validation -----

  /** An array that is present and not empty. */
  predicate NonEmptyArray<T>(x: Option<seq<T>>)
  {
    x.Some? && |x.value| != 0
  }

  /** The dataset is present and its four collections are non-empty arrays. */
  predicate ValidData(data: Option<Dataset>)
  {
    && data.Some?
    && NonEmptyArray(data.value.sellers)
    && NonEmptyArray(data.value.customers)
    && NonEmptyArray(data.value.products)
    && NonEmptyArray(data.value.purchase_records)
  }

  /** Both strategies are present and are functions. */
  predicate ValidOptions(options: Options)
  {
    options.calculateRevenue.Some? && options.calculateBonus.Some?
  }

  // ----- preparation -----

  /** A fresh record: the display name, zero totals, an empty dictionary. */
  function NewStats(seller: Seller): SellerStats
  {
    SellerStats(seller.id, seller.first_name + " " + seller.last_name, 0.0, 0.0, 0, [], None, None)
  }

  function InitStats(sellers: seq<Seller>): (r: seq<SellerStats>)
    ensures |r| == |sellers|
  {
    seq(|sellers|, k requires 0 <= k < |sellers| => NewStats(sellers[k]))
  }

  /**
   * Every record names an existing seller and every item an existing
   * product; the source looks both up without checking.
   */
  ghost predicate ReferencesResolve(sellers: seq<Seller>, products: seq<Product>, records: seq<PurchaseRecord>)
  {
    forall i :: 0 <= i < |records| ==>
      && records[i].seller_id in SellerIds(InitStats(sellers))
      && forall j :: 0 <= j < |records[i].items| ==> records[i].items[j].sku in ProductSkus(products)
  }

  /** The references of a dataset resolve, when it has the three collections at all. */
  ghost predicate DatasetResolves(data: Dataset)
  {
    data.sellers.Some? && data.products.Some? && data.purchase_records.Some? ==>
      ReferencesResolve(data.sellers.value, data.products.value, data.purchase_records.value)
  }

  /** The tables and the strategy that the accumulation pass reads. */
  function MakeContext(sellers: seq<Seller>, products: seq<Product>, revenue: RevenuePolicy): Context
  {
    Context(SellerIndex(InitStats(sellers)), ProductIndex(products), revenue)
  }

  /** With resolving references, the pass can look every record and item up. */
  lemma ContextResolves(sellers: seq<Seller>, products: seq<Product>, records: seq<PurchaseRecord>, revenue: RevenuePolicy)
    requires ReferencesResolve(sellers, products, records)
    ensures RecordsResolve(records, MakeContext(sellers, products, revenue))
    ensures IndexWithin(MakeContext(sellers, products, revenue), |sellers|)
  {
    SellerIndexSpec(InitStats(sellers));
    ProductIndexSpec(products);
  }

  // ----- specification of a successful run -----

  /** The sort key of the ranking. */
  function Profit(s: SellerStats): real
  {
    s.profit
  }

  /** The records after the accumulation pass, in seller order. */
  function Accumulated(sellers: seq<Seller>, products: seq<Product>, records: seq<PurchaseRecord>, revenue: RevenuePolicy): (r: seq<SellerStats>)
    requires ReferencesResolve(sellers, products, records)
    ensures |r| == |sellers|
  {
    ContextResolves(sellers, products, records, revenue);
    AccumulateAll(InitStats(sellers), records, MakeContext(sellers, products, revenue))
  }

  /** The records ranked by profit, highest first, ties in seller order. */
  function Ranked(sellers: seq<Seller>, products: seq<Product>, records: seq<PurchaseRecord>, revenue: RevenuePolicy): (r: seq<SellerStats>)
    requires ReferencesResolve(sellers, products, records)
    ensures |r| == |sellers|
  {
    SortDesc(Accumulated(sellers, products, records, revenue), Profit)
  }

  /** The bonus and the top products written onto the record at rank `index` of `total`. */
  function Award(s: SellerStats, index: nat, total: nat, bonus: BonusPolicy): SellerStats
  {
    s.(bonus := Some(bonus(index, total, s)), top_products := Some(TopProducts(s.products_sold)))
  }

  function AwardAll(ranked: seq<SellerStats>, bonus: BonusPolicy): (r: seq<SellerStats>)
    ensures |r| == |ranked|
  {
    seq(|ranked|, i requires 0 <= i < |ranked| => Award(ranked[i], i, |ranked|, bonus))
  }

  /** The result of a successful run. */
  function Report(sellers: seq<Seller>, products: seq<Product>, records: seq<PurchaseRecord>,
                  revenue: RevenuePolicy, bonus: BonusPolicy): seq<SellerStats>
    requires ReferencesResolve(sellers, products, records)
  {
    AwardAll(Ranked(sellers, products, records, revenue), bonus)
  }

  // ----- the procedure -----

  /**
   * The top-products list of one record: its dictionary's entries copied
   * into an array, sorted there by quantity and cut to ten.
   */
  method SortedTopProducts(sold: seq<ProductQty>) returns (top: seq<ProductQty>)
    ensures top == TopProducts(sold)
  {
    var entries := new ProductQty[|sold|](k requires 0 <= k < |sold| => sold[k]);
    assert entries[..] == sold;
    SortInPlace(entries, Quantity);
    top := entries[..if entries.Length < 10 then entries.Length else 10];
  }

  /**
   * The last stage: at each rank, the bonus from the strategy, then the
   * top products (the dictionary's entries sorted in place by quantity
   * and cut to ten).
   */
  method AssignBonuses(stats: array<SellerStats>, bonus: BonusPolicy)
    modifies stats
    ensures stats[..] == AwardAll(old(stats[..]), bonus)
  {
    var total := stats.Length;
    var index := 0;
    while index < total
      invariant 0 <= index <= total
      invariant forall m :: 0 <= m < index ==> stats[m] == Award(old(stats[m]), m, total, bonus)
      invariant forall m :: index <= m < total ==> stats[m] == old(stats[m])
    {
      var seller := stats[index];
      var rate := bonus(index, total, seller);
      var top := SortedTopProducts(seller.products_sold);
      stats[index] := seller.(bonus := Some(rate), top_products := Some(top));
      index := index + 1;
    }
  }

  /**
   * `analyzeSalesData`: fails with the data error exactly when the dataset
   * or one of its four collections is missing, not an array or empty;
   * otherwise fails with the options error exactly when a strategy is
   * missing; otherwise returns `Report`, whose length is the number of
   * sellers and whose profits never increase.
   */
  method AnalyzeSalesData(data: Option<Dataset>, options: Options) returns (result: Result<seq<SellerStats>, Error>)
    requires ValidData(data) && ValidOptions(options) ==> DatasetResolves(data.value)
    ensures result == Failure(Error(InvalidDataMessage)) <==> !ValidData(data)
    ensures result == Failure(Error(InvalidOptionsMessage)) <==> ValidData(data) && !ValidOptions(options)
    ensures result.Success? <==> ValidData(data) && ValidOptions(options)
    ensures result.Success? ==>
      var d := data.value;
      result.value == Report(d.sellers.value, d.products.value, d.purchase_records.value,
                             options.calculateRevenue.value, options.calculateBonus.value)
    ensures result.Success? ==> |result.value| == |data.value.sellers.value|
    ensures result.Success? ==> forall i, j :: 0 <= i < j < |result.value| ==> result.value[i].profit >= result.value[j].profit
  {
    assert |InvalidDataMessage| != |InvalidOptionsMessage|;
    if !ValidData(data) {
      return Failure(Error(InvalidDataMessage));
    }
    if !ValidOptions(options) {
      return Failure(Error(InvalidOptionsMessage));
    }
    var calculateRevenue, calculateBonus := options.calculateRevenue.value, options.calculateBonus.value;
    var sellers, products, records := data.value.sellers.value, data.value.products.value, data.value.purchase_records.value;
    var report := BuildReport(sellers, products, records, calculateRevenue, calculateBonus);
    ReportSorted(sellers, products, records, calculateRevenue, calculateBonus);
    result := Success(report);
  }

  /**
   * The body of `analyzeSalesData` after validation: the records are
   * created, filled by the accumulation pass, sorted in place by profit
   * and given their bonuses and top products.
   */
  method BuildReport(sellers: seq<Seller>, products: seq<Product>, records: seq<PurchaseRecord>,
                     calculateRevenue: RevenuePolicy, calculateBonus: BonusPolicy) returns (report: seq<SellerStats>)
    requires ReferencesResolve(sellers, products, records)
    ensures report == Report(sellers, products, records, calculateRevenue, calculateBonus)
  {
    var initial := InitStats(sellers);
    var sellerStats := new SellerStats[|initial|](k requires 0 <= k < |initial| => initial[k]);
    var sellerIndex := SellerIndex(initial);
    var productIndex := ProductIndex(products);
    var ctx := Context(sellerIndex, productIndex, calculateRevenue);
    ContextResolves(sellers, products, records, calculateRevenue);
    assert sellerStats[..] == initial;
    assert ctx == MakeContext(sellers, products, calculateRevenue);

    AccumulateRecords(sellerStats, records, ctx);
    assert sellerStats[..] == Accumulated(sellers, products, records, calculateRevenue);
    SortInPlace(sellerStats, Profit);
    assert sellerStats[..] == Ranked(sellers, products, records, calculateRevenue);
    AssignBonuses(sellerStats, calculateBonus);
    report := sellerStats[..];
  }

  // ----- what a report guarantees -----

  /**
   * The report has one record per seller, its profits never increase, and
   * the record at rank `i` is the ranked record with the bonus the
   * strategy gives for rank `i` of all sellers and its top products.
   */
  lemma ReportSorted(sellers: seq<Seller>, products: seq<Product>, records: seq<PurchaseRecord>,
                     revenue: RevenuePolicy, bonus: BonusPolicy)
    requires ReferencesResolve(sellers, products, records)
    ensures var report, ranked := Report(sellers, products, records, revenue, bonus), Ranked(sellers, products, records, revenue);
      && |report| == |sellers|
      && (forall i, j :: 0 <= i < j < |report| ==> report[i].profit >= report[j].profit)
      && (forall i :: 0 <= i < |report| ==>
            && report[i].(bonus := None, top_products := None) == ranked[i]
            && report[i].bonus == Some(bonus(i, |sellers|, ranked[i]))
            && report[i].top_products == Some(TopProducts(ranked[i].products_sold)))
  {
    var acc := Accumulated(sellers, products, records, revenue);
    SortDescSorted(acc, Profit);
    InitAbsent(sellers, products, records, revenue);
  }

  /** Before the last stage no record has a bonus or top products yet. */
  lemma InitAbsent(sellers: seq<Seller>, products: seq<Product>, records: seq<PurchaseRecord>, revenue: RevenuePolicy)
    requires ReferencesResolve(sellers, products, records)
    ensures forall i :: 0 <= i < |sellers| ==>
      Ranked(sellers, products, records, revenue)[i].bonus.None? &&
      Ranked(sellers, products, records, revenue)[i].top_products.None?
  {
    var ctx := MakeContext(sellers, products, revenue);
    var acc := Accumulated(sellers, products, records, revenue);
    ContextResolves(sellers, products, records, revenue);
    forall k | 0 <= k < |sellers| ensures acc[k].bonus.None? && acc[k].top_products.None? {
      AccumulateAllAt(InitStats(sellers), records, ctx, k);
    }
    var ranked := Ranked(sellers, products, records, revenue);
    SortDescPermutation(acc, Profit);
    forall i | 0 <= i < |sellers| ensures ranked[i].bonus.None? && ranked[i].top_products.None? {
      assert ranked[i] in multiset(acc);
    }
  }

  /**
   * The ranking is a stable permutation: it holds the accumulated records,
   * and sellers with equal profit keep their order in the seller list.
   */
  lemma RankingIsStablePermutation(sellers: seq<Seller>, products: seq<Product>, records: seq<PurchaseRecord>, revenue: RevenuePolicy)
    requires ReferencesResolve(sellers, products, records)
    ensures var acc, ranked := Accumulated(sellers, products, records, revenue), Ranked(sellers, products, records, revenue);
      && multiset(ranked) == multiset(acc)
      && forall v :: Filter(ranked, Profit, v) == Filter(acc, Profit, v)
  {
    var acc := Accumulated(sellers, products, records, revenue);
    SortDescPermutation(acc, Profit);
    forall v ensures Filter(SortDesc(acc, Profit), Profit, v) == Filter(acc, Profit, v) {
      SortDescStable(acc, Profit, v);
    }
  }

  /**
   * The record of seller `k` after the pass: its id and display name, one
   * sale per purchase record booked to it, the sum of their totals, the
   * sum of their item profits, and a dictionary holding per sku the
   * quantities sold in them, keyed by exactly the skus sold, each once.
   * With distinct seller ids, a record is booked to seller `k` exactly when
   * its seller_id is that seller's id.
   */
  lemma AccumulatedAt(sellers: seq<Seller>, products: seq<Product>, records: seq<PurchaseRecord>, revenue: RevenuePolicy, k: nat)
    requires ReferencesResolve(sellers, products, records) && k < |sellers|
    ensures var ctx, r := MakeContext(sellers, products, revenue), Accumulated(sellers, products, records, revenue)[k];
      && RecordsResolve(records, ctx)
      && r.id == sellers[k].id
      && r.name == sellers[k].first_name + " " + sellers[k].last_name
      && r.sales_count == CountOwned(records, ctx, k)
      && r.revenue == RevenueOwned(records, ctx, k)
      && r.profit == ProfitOwned(records, ctx, k)
      && (forall sku :: QuantityOf(r.products_sold, sku) == QuantityOwned(records, ctx, k, sku))
      && Skus(r.products_sold) == SkusOwned(records, ctx, k)
      && DistinctSkus(r.products_sold)
      && r.bonus.None? && r.top_products.None?
      && ((forall i, j :: 0 <= i < j < |sellers| ==> sellers[i].id != sellers[j].id) ==>
            forall i :: 0 <= i < |records| ==> (Owner(records[i], ctx) == k <==> records[i].seller_id == sellers[k].id))
  {
    AccumulatedTotals(sellers, products, records, revenue, k);
    AccumulatedSold(sellers, products, records, revenue, k);
    if forall i, j :: 0 <= i < j < |sellers| ==> sellers[i].id != sellers[j].id {
      SellerIndexSpec(InitStats(sellers));
      assert DistinctIds(InitStats(sellers));
    }
  }

  /** The identity, counts and sums of the record of seller `k` after the pass. */
  lemma AccumulatedTotals(sellers: seq<Seller>, products: seq<Product>, records: seq<PurchaseRecord>, revenue: RevenuePolicy, k: nat)
    requires ReferencesResolve(sellers, products, records) && k < |sellers|
    ensures var ctx, r := MakeContext(sellers, products, revenue), Accumulated(sellers, products, records, revenue)[k];
      && RecordsResolve(records, ctx)
      && r.id == sellers[k].id
      && r.name == sellers[k].first_name + " " + sellers[k].last_name
      && r.sales_count == CountOwned(records, ctx, k)
      && r.revenue == RevenueOwned(records, ctx, k)
      && r.profit == ProfitOwned(records, ctx, k)
      && r.bonus.None? && r.top_products.None?
  {
    ContextResolves(sellers, products, records, revenue);
    AccumulateAllAt(InitStats(sellers), records, MakeContext(sellers, products, revenue), k);
  }

  /** The dictionary of the record of seller `k` after the pass. */
  lemma AccumulatedSold(sellers: seq<Seller>, products: seq<Product>, records: seq<PurchaseRecord>, revenue: RevenuePolicy, k: nat)
    requires ReferencesResolve(sellers, products, records) && k < |sellers|
    ensures var ctx, r := MakeContext(sellers, products, revenue), Accumulated(sellers, products, records, revenue)[k];
      && RecordsResolve(records, ctx)
      && (forall sku :: QuantityOf(r.products_sold, sku) == QuantityOwned(records, ctx, k, sku))
      && Skus(r.products_sold) == SkusOwned(records, ctx, k)
      && DistinctSkus(r.products_sold)
  {
    var ctx := MakeContext(sellers, products, revenue);
    var init := InitStats(sellers);
    ContextResolves(sellers, products, records, revenue);
    AccumulateAllSkus(init, records, ctx, k);
    AccumulateAllDistinct(init, records, ctx, k);
    forall sku ensures QuantityOf(Accumulated(sellers, products, records, revenue)[k].products_sold, sku) == QuantityOwned(records, ctx, k, sku) {
      AccumulateAllQuantity(init, records, ctx, k, sku);
    }
  }

  /**
   * Every record of the report is, apart from its bonus and top products,
   * the accumulated record of one seller.
   */
  lemma ReportFromSellers(sellers: seq<Seller>, products: seq<Product>, records: seq<PurchaseRecord>,
                          revenue: RevenuePolicy, bonus: BonusPolicy, i: nat)
    requires ReferencesResolve(sellers, products, records) && i < |sellers|
    ensures exists k :: 0 <= k < |sellers| && Report(sellers, products, records, revenue, bonus)[i].(bonus := None, top_products := None) == Accumulated(sellers, products, records, revenue)[k]
  {
    var acc := Accumulated(sellers, products, records, revenue);
    var ranked := Ranked(sellers, products, records, revenue);
    ReportSorted(sellers, products, records, revenue, bonus);
    SortDescPermutation(acc, Profit);
    assert ranked[i] in multiset(acc);
    var k :| 0 <= k < |acc| && acc[k] == ranked[i];
  }

  lemma {:induction false} TotalSalesAppend(s: seq<SellerStats>, x: SellerStats)
    ensures TotalSales(s + [x]) == TotalSales(s) + x.sales_count
  {
    assert (s + [x])[..|s|] == s;
  }

  lemma {:induction false} TotalSalesInsert(s: seq<SellerStats>, x: SellerStats)
    ensures TotalSales(Insert(s, x, Profit)) == TotalSales(s) + x.sales_count
  {
    if s == [] || Profit(s[|s| - 1]) >= Profit(x) {
      TotalSalesAppend(s, x);
    } else {
      var init, last := s[..|s| - 1], s[|s| - 1];
      TotalSalesInsert(init, x);
      TotalSalesAppend(Insert(init, x, Profit), last);
    }
  }

  lemma {:induction false} TotalSalesSort(s: seq<SellerStats>)
    ensures TotalSales(SortDesc(s, Profit)) == TotalSales(s)
  {
    if s != [] {
      TotalSalesSort(s[..|s| - 1]);
      TotalSalesInsert(SortDesc(s[..|s| - 1], Profit), s[|s| - 1]);
    }
  }

  /** Two lists with the same sales counts, position by position, have the same total. */
  lemma {:induction false} TotalSalesPointwise(a: seq<SellerStats>, b: seq<SellerStats>)
    requires |a| == |b| && forall i :: 0 <= i < |a| ==> a[i].sales_count == b[i].sales_count
    ensures TotalSales(a) == TotalSales(b)
  {
    if a != [] {
      TotalSalesPointwise(a[..|a| - 1], b[..|b| - 1]);
    }
  }

  /**
   * Every purchase record is counted as exactly one sale of exactly one
   * seller: the sales counts of the report add up to the number of
   * purchase records.
   */
  lemma ReportSalesTotal(sellers: seq<Seller>, products: seq<Product>, records: seq<PurchaseRecord>,
                         revenue: RevenuePolicy, bonus: BonusPolicy)
    requires ReferencesResolve(sellers, products, records)
    ensures TotalSales(Report(sellers, products, records, revenue, bonus)) == |records|
  {
    var ctx := MakeContext(sellers, products, revenue);
    var init := InitStats(sellers);
    ContextResolves(sellers, products, records, revenue);
    TotalSalesInit(sellers);
    TotalSalesAccumulate(init, records, ctx);
    var acc := Accumulated(sellers, products, records, revenue);
    TotalSalesSort(acc);
    var ranked := Ranked(sellers, products, records, revenue);
    TotalSalesPointwise(Report(sellers, products, records, revenue, bonus), ranked);
  }

  /** The fresh records start with no sales in total. */
  lemma {:induction false} TotalSalesInit(sellers: seq<Seller>)
    ensures TotalSales(InitStats(sellers)) == 0
  {
    if sellers != [] {
      var n := |sellers|;
      TotalSalesInit(sellers[..n - 1]);
      assert InitStats(sellers)[..n - 1] == InitStats(sellers[..n - 1]);
    }
  }

  /**
   * Under the default bonus policy the first place gets 0.15, the last
   * place gets 0.15, 0.10 or 0.00 depending on the number of sellers, and
   * the rate never increases down the ranking.
   */
  lemma DefaultBonusReport(sellers: seq<Seller>, products: seq<Product>, records: seq<PurchaseRecord>, revenue: RevenuePolicy)
    requires ReferencesResolve(sellers, products, records) && |sellers| >= 1
    ensures var report, n := Report(sellers, products, records, revenue, Policies.BonusByProfit), |sellers|;
      && report[0].bonus == Some(0.15)
      && report[n - 1].bonus == Some(if n == 1 then 0.15 else if n <= 3 then 0.10 else 0.00)
      && forall i, j :: 0 <= i <= j < n ==> report[i].bonus.Some? && report[j].bonus.Some? && report[i].bonus.value >= report[j].bonus.value
  {
    var n := |sellers|;
    var ranked := Ranked(sellers, products, records, revenue);
    ReportSorted(sellers, products, records, revenue, Policies.BonusByProfit);
    Policies.LastPlaceRate(n, ranked[n - 1]);
    forall i, j | 0 <= i <= j < n
      ensures Policies.BonusByProfit(i, n, ranked[i]) >= Policies.BonusByProfit(j, n, ranked[j])
    {
      Policies.BonusRateNonIncreasing(i, j, n, ranked[i], ranked[j]);
    }
  }

  /**
   * Each seller's top products: at most ten, as many as the distinct skus
   * it sold when fewer, in non-increasing quantity, each with the whole
   * quantity the seller sold of it, nothing left out that sold more
   * than the last one listed, and equal quantities in dictionary order.
   */
  lemma ReportTopProducts(sellers: seq<Seller>, products: seq<Product>, records: seq<PurchaseRecord>,
                          revenue: RevenuePolicy, bonus: BonusPolicy, i: nat)
    requires ReferencesResolve(sellers, products, records) && i < |sellers|
    ensures var s := Report(sellers, products, records, revenue, bonus)[i];
      && s.top_products.Some?
      && var top, sold := s.top_products.value, s.products_sold;
      && DistinctSkus(sold)
      && |top| == (if |Skus(sold)| < 10 then |Skus(sold)| else 10)
      && (forall a, b :: 0 <= a < b < |top| ==> top[a].quantity >= top[b].quantity)
      && (forall e :: e in top ==> e in sold && QuantityOf(sold, e.sku) == e.quantity)
      && (forall e :: e in sold && e !in top ==> e.quantity <= top[|top| - 1].quantity)
      && (forall q :: Filter(top, Quantity, q) <= Filter(sold, Quantity, q))
  {
    var s := Report(sellers, products, records, revenue, bonus)[i];
    ReportSorted(sellers, products, records, revenue, bonus);
    ReportFromSellers(sellers, products, records, revenue, bonus, i);
    var k :| 0 <= k < |sellers| && s.(bonus := None, top_products := None) == Accumulated(sellers, products, records, revenue)[k];
    AccumulatedAt(sellers, products, records, revenue, k);
    TopProductsSpec(s.products_sold);
  }

  /**
   * Three sellers with profits 300, 300 and 100: the tied two keep their
   * order, and under the default policy the rates are 0.15, 0.10 and, since
   * rank 2 is matched before the last-place case, 0.10.
   */
  lemma TiedSellersScenario(a: SellerStats, b: SellerStats, c: SellerStats)
    requires a.profit == 300.0 && b.profit == 300.0 && c.profit == 100.0
    ensures var report := AwardAll(SortDesc([a, b, c], Profit), Policies.BonusByProfit);
      && report == [Award(a, 0, 3, Policies.BonusByProfit), Award(b, 1, 3, Policies.BonusByProfit), Award(c, 2, 3, Policies.BonusByProfit)]
      && report[0].bonus == Some(0.15) && report[1].bonus == Some(0.10) && report[2].bonus == Some(0.10)
  {
    assert [a, b, c][..2] == [a, b];
    assert [a, b][..1] == [a];
    assert [a][..0] == [];
    assert SortDesc([a], Profit) == [a];
    assert SortDesc([a, b], Profit) == Insert([a], b, Profit) == [a, b];
    assert SortDesc([a, b, c], Profit) == Insert([a, b], c, Profit) == [a, b, c];
  }

  /** The tables of the one-seller, one-product dataset. */
  lemma SingleSellerTables()
    ensures var ctx := MakeContext([Seller("seller_1", "Anna", "Ivanova")], [Product("P1", 10.0)], Policies.SimpleRevenue);
      && ctx.sellerIndex == map["seller_1" := 0]
      && ctx.productIndex == map["P1" := Product("P1", 10.0)]
  {
    var sellers := [Seller("seller_1", "Anna", "Ivanova")];
    var products := [Product("P1", 10.0)];
    assert InitStats(sellers) == [NewStats(sellers[0])];
    assert SellerEntries(InitStats(sellers)) == [("seller_1", 0)];
    assert SellerEntries(InitStats(sellers))[..0] == [];
    var entries := seq(|products|, p requires 0 <= p < |products| => (products[p].sku, products[p]));
    assert entries == [("P1", products[0])];
    assert entries[..0] == [];
  }

  /**
   * The one record of the one-seller dataset: five units of a product
   * bought at 10, sold at 20 without discount, total 50. Booked to a fresh
   * record it gives revenue 50, profit 100 - 50 = 50, one sale and five
   * units of the product.
   */
  lemma SingleSellerRecord()
    ensures
      var ctx := MakeContext([Seller("seller_1", "Anna", "Ivanova")], [Product("P1", 10.0)], Policies.SimpleRevenue);
      var record := PurchaseRecord("seller_1", 50.0, [Item("P1", 5, 20.0, 0.0)]);
      && ItemsResolve(record.items, ctx)
      && ApplyRecord(NewStats(Seller("seller_1", "Anna", "Ivanova")), record, ctx)
         == SellerStats("seller_1", "Anna Ivanova", 50.0, 50.0, 1, [ProductQty("P1", 5)], None, None)
  {
    var seller := Seller("seller_1", "Anna", "Ivanova");
    var item := Item("P1", 5, 20.0, 0.0);
    var ctx := MakeContext([seller], [Product("P1", 10.0)], Policies.SimpleRevenue);
    SingleSellerTables();
    assert Policies.SimpleRevenue(item) == 100.0;
    assert ItemProfit(item, ctx) == 50.0;
    assert [item][..0] == [];
    var sold := [ProductQty("P1", 5)];
    var acc := SellerStats("seller_1", "Anna Ivanova", 50.0, 50.0, 1, sold, None, None);
    assert "Anna" + " " + "Ivanova" == "Anna Ivanova";
    var started := NewStats(seller).(sales_count := 1, revenue := 50.0);
    assert AddQuantity([], "P1", 5) == sold;
    assert ApplyItems(started, [item], ctx) == ApplyItem(started, item, ctx) == acc;
  }

  /**
   * The whole pass over the one-seller dataset: the single record is
   * booked to the single seller.
   */
  lemma SingleSellerAccumulated()
    ensures
      var sellers := [Seller("seller_1", "Anna", "Ivanova")];
      var products := [Product("P1", 10.0)];
      var records := [PurchaseRecord("seller_1", 50.0, [Item("P1", 5, 20.0, 0.0)])];
      && ReferencesResolve(sellers, products, records)
      && Accumulated(sellers, products, records, Policies.SimpleRevenue)
         == [SellerStats("seller_1", "Anna Ivanova", 50.0, 50.0, 1, [ProductQty("P1", 5)], None, None)]
  {
    var seller := Seller("seller_1", "Anna", "Ivanova");
    var product := Product("P1", 10.0);
    var record := PurchaseRecord("seller_1", 50.0, [Item("P1", 5, 20.0, 0.0)]);
    var sellers, products, records := [seller], [product], [record];
    var init := InitStats(sellers);
    assert init == [NewStats(seller)];
    assert init[0] in init;
    assert product in products;
    assert ReferencesResolve(sellers, products, records);
    var ctx := MakeContext(sellers, products, Policies.SimpleRevenue);
    SingleSellerTables();
    SingleSellerRecord();
    var acc := ApplyRecord(NewStats(seller), record, ctx);
    assert records[..0] == [];
    assert Owner(record, ctx) == 0;
    assert AccumulateAll(init, records, ctx) == init[0 := acc];
    assert Accumulated(sellers, products, records, Policies.SimpleRevenue) == [acc];
  }

  /**
   * The same dataset under the default policies: the single seller is
   * ranked first with rate 0.15 and has the one product as its top product.
   */
  lemma SingleSellerScenario()
    ensures
      var sellers := [Seller("seller_1", "Anna", "Ivanova")];
      var products := [Product("P1", 10.0)];
      var records := [PurchaseRecord("seller_1", 50.0, [Item("P1", 5, 20.0, 0.0)])];
      && ReferencesResolve(sellers, products, records)
      && Report(sellers, products, records, Policies.SimpleRevenue, Policies.BonusByProfit)
         == [SellerStats("seller_1", "Anna Ivanova", 50.0, 50.0, 1, [ProductQty("P1", 5)], Some(0.15), Some([ProductQty("P1", 5)]))]
  {
    SingleSellerAccumulated();
    var sold := [ProductQty("P1", 5)];
    var acc := SellerStats("seller_1", "Anna Ivanova", 50.0, 50.0, 1, sold, None, None);
    assert [acc][..0] == [];
    assert SortDesc([acc], Profit) == [acc];
    assert sold[..0] == [];
    assert SortDesc(sold, Quantity) == sold;
    assert TopProducts(sold) == sold;
  }

  /**
   * The three tied sellers under the intended bonus: 15% and 10% of 300
   * for the tied pair, nothing for the last place.
   */
  lemma TiedSellersIntended(a: SellerStats, b: SellerStats, c: SellerStats)
    requires a.profit == 300.0 && b.profit == 300.0 && c.profit == 100.0
    ensures var report := AwardAll(SortDesc([a, b, c], Profit), Policies.IntendedBonus);
      && report == [Award(a, 0, 3, Policies.IntendedBonus), Award(b, 1, 3, Policies.IntendedBonus), Award(c, 2, 3, Policies.IntendedBonus)]
      && report[0].bonus == Some(45.0) && report[1].bonus == Some(30.0) && report[2].bonus == Some(0.0)
  {
    assert [a, b, c][..2] == [a, b];
    assert [a, b][..1] == [a];
    assert [a][..0] == [];
    assert SortDesc([a], Profit) == [a];
    assert SortDesc([a, b], Profit) == Insert([a], b, Profit) == [a, b];
    assert SortDesc([a, b, c], Profit) == Insert([a, b], c, Profit) == [a, b, c];
  }

  /** The one-seller dataset under the intended bonus: 15% of a profit of 50. */
  lemma SingleSellerIntended()
    ensures
      var sellers := [Seller("seller_1", "Anna", "Ivanova")];
      var products := [Product("P1", 10.0)];
      var records := [PurchaseRecord("seller_1", 50.0, [Item("P1", 5, 20.0, 0.0)])];
      && ReferencesResolve(sellers, products, records)
      && Report(sellers, products, records, Policies.SimpleRevenue, Policies.IntendedBonus)[0].bonus == Some(7.5)
  {
    SingleSellerAccumulated();
    var acc := SellerStats("seller_1", "Anna Ivanova", 50.0, 50.0, 1, [ProductQty("P1", 5)], None, None);
    assert [acc][..0] == [];
    assert SortDesc([acc], Profit) == [acc];
  }
}
