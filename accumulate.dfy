/**
 * The accumulation pass (src/main.js:79-95): every purchase record adds a
 * sale and its total to its seller's record, and every item of it adds
 * its profit and its quantity.
 *
 * `AccumulateAll` is the specification, a fold over the records that
 * updates one seller record per step; `AccumulateRecords` is the loop
 * that mutates the array of records, proved to end in that state. The
 * lemmas give the closed form: per seller, the counts and sums over the
 * records that belong to it.
 */
module Accumulation {
  import opened SalesTypes
  import opened ProductsSold

  /** What the pass reads besides the records: the two tables and the revenue strategy. */
  datatype Context = Context(
    sellerIndex: map<string, nat>,
    productIndex: map<string, Product>,
    revenue: RevenuePolicy)

  /** Every item's sku is in the product table. */
  ghost predicate ItemsResolve(items: seq<Item>, ctx: Context)
  {
    forall i :: 0 <= i < |items| ==> items[i].sku in ctx.productIndex
  }

  /** The record's seller is in the seller table and its items resolve. */
  ghost predicate RecordResolves(record: PurchaseRecord, ctx: Context)
  {
    record.seller_id in ctx.sellerIndex && ItemsResolve(record.items, ctx)
  }

  ghost predicate RecordsResolve(records: seq<PurchaseRecord>, ctx: Context)
  {
    forall i :: 0 <= i < |records| ==> RecordResolves(records[i], ctx)
  }

  /** The seller table points into an array of `n` records. */
  ghost predicate IndexWithin(ctx: Context, n: nat)
  {
    forall id :: id in ctx.sellerIndex ==> ctx.sellerIndex[id] < n
  }

  /** The position of the record that a purchase record is booked to. */
  function Owner(record: PurchaseRecord, ctx: Context): nat
    requires record.seller_id in ctx.sellerIndex
  {
    ctx.sellerIndex[record.seller_id]
  }

  /** What the sold quantity cost the seller: purchase price times quantity. */
  function Cost(product: Product, quantity: int): real
  {
    product.purchase_price * quantity as real
  }

  /** Revenue from the strategy minus purchase price times quantity. */
  function ItemProfit(item: Item, ctx: Context): real
    requires item.sku in ctx.productIndex
  {
    ctx.revenue(item) - Cost(ctx.productIndex[item.sku], item.quantity)
  }

  // ----- the fold -----

  /** One item: add its profit and its quantity under its sku. */
  function ApplyItem(s: SellerStats, item: Item, ctx: Context): SellerStats
    requires item.sku in ctx.productIndex
  {
    s.(profit := s.profit + ItemProfit(item, ctx),
       products_sold := AddQuantity(s.products_sold, item.sku, item.quantity))
  }

  /** The items of a record, in order. */
  function ApplyItems(s: SellerStats, items: seq<Item>, ctx: Context): SellerStats
    requires ItemsResolve(items, ctx)
  {
    if items == [] then s
    else ApplyItem(ApplyItems(s, items[..|items| - 1], ctx), items[|items| - 1], ctx)
  }

  /** One record: one more sale, its total added to the revenue, then its items. */
  function ApplyRecord(s: SellerStats, record: PurchaseRecord, ctx: Context): SellerStats
    requires ItemsResolve(record.items, ctx)
  {
    ApplyItems(s.(sales_count := s.sales_count + 1, revenue := s.revenue + record.total_amount),
               record.items, ctx)
  }

  /** All records, in order, each applied to the record of its seller. */
  function AccumulateAll(stats: seq<SellerStats>, records: seq<PurchaseRecord>, ctx: Context): (r: seq<SellerStats>)
    requires RecordsResolve(records, ctx) && IndexWithin(ctx, |stats|)
    ensures |r| == |stats|
  {
    if records == [] then stats
    else
      var prev := AccumulateAll(stats, records[..|records| - 1], ctx);
      var record := records[|records| - 1];
      var k := Owner(record, ctx);
      prev[k := ApplyRecord(prev[k], record, ctx)]
  }

  // ----- reference sums -----

  function ItemsProfit(items: seq<Item>, ctx: Context): real
    requires ItemsResolve(items, ctx)
  {
    if items == [] then 0.0
    else ItemsProfit(items[..|items| - 1], ctx) + ItemProfit(items[|items| - 1], ctx)
  }

  function ItemsQuantity(items: seq<Item>, sku: string): int
  {
    if items == [] then 0
    else ItemsQuantity(items[..|items| - 1], sku) + (if items[|items| - 1].sku == sku then items[|items| - 1].quantity else 0)
  }

  function ItemSkus(items: seq<Item>): set<string>
  {
    if items == [] then {} else ItemSkus(items[..|items| - 1]) + {items[|items| - 1].sku}
  }

  /** How many of the records are booked to the seller at position `k`. */
  function CountOwned(records: seq<PurchaseRecord>, ctx: Context, k: nat): nat
    requires RecordsResolve(records, ctx)
  {
    if records == [] then 0
    else CountOwned(records[..|records| - 1], ctx, k) + (if Owner(records[|records| - 1], ctx) == k then 1 else 0)
  }

  /** The sum of the totals of the records booked to position `k`. */
  function RevenueOwned(records: seq<PurchaseRecord>, ctx: Context, k: nat): real
    requires RecordsResolve(records, ctx)
  {
    if records == [] then 0.0
    else
      var last := records[|records| - 1];
      RevenueOwned(records[..|records| - 1], ctx, k) + (if Owner(last, ctx) == k then last.total_amount else 0.0)
  }

  /** The sum of the item profits of the records booked to position `k`. */
  function ProfitOwned(records: seq<PurchaseRecord>, ctx: Context, k: nat): real
    requires RecordsResolve(records, ctx)
  {
    if records == [] then 0.0
    else
      var last := records[|records| - 1];
      ProfitOwned(records[..|records| - 1], ctx, k) + (if Owner(last, ctx) == k then ItemsProfit(last.items, ctx) else 0.0)
  }

  /** The total quantity of `sku` in the records booked to position `k`. */
  function QuantityOwned(records: seq<PurchaseRecord>, ctx: Context, k: nat, sku: string): int
    requires RecordsResolve(records, ctx)
  {
    if records == [] then 0
    else
      var last := records[|records| - 1];
      QuantityOwned(records[..|records| - 1], ctx, k, sku) + (if Owner(last, ctx) == k then ItemsQuantity(last.items, sku) else 0)
  }

  /** The skus sold in the records booked to position `k`. */
  function SkusOwned(records: seq<PurchaseRecord>, ctx: Context, k: nat): set<string>
    requires RecordsResolve(records, ctx)
  {
    if records == [] then {}
    else
      var last := records[|records| - 1];
      SkusOwned(records[..|records| - 1], ctx, k) + (if Owner(last, ctx) == k then ItemSkus(last.items) else {})
  }

  /** The sales counts of all records together. */
  function TotalSales(stats: seq<SellerStats>): nat
  {
    if stats == [] then 0 else TotalSales(stats[..|stats| - 1]) + stats[|stats| - 1].sales_count
  }

  // ----- closed form -----

  /**
   * The items of a record add their profits to the profit and change
   * nothing but the profit and the dictionary.
   */
  lemma {:induction false} ApplyItemsProfit(s: SellerStats, items: seq<Item>, ctx: Context)
    requires ItemsResolve(items, ctx)
    ensures ApplyItems(s, items, ctx).(profit := s.profit, products_sold := s.products_sold) == s
    ensures ApplyItems(s, items, ctx).profit == s.profit + ItemsProfit(items, ctx)
  {
    if items != [] {
      ApplyItemsProfit(s, items[..|items| - 1], ctx);
    }
  }

  /** The items of a record add their quantities under their skus. */
  lemma {:induction false} ApplyItemsQuantity(s: SellerStats, items: seq<Item>, ctx: Context, sku: string)
    requires ItemsResolve(items, ctx)
    ensures QuantityOf(ApplyItems(s, items, ctx).products_sold, sku) == QuantityOf(s.products_sold, sku) + ItemsQuantity(items, sku)
  {
    if items != [] {
      var init, last := items[..|items| - 1], items[|items| - 1];
      ApplyItemsQuantity(s, init, ctx, sku);
      AddQuantityCounts(ApplyItems(s, init, ctx).products_sold, last.sku, last.quantity, sku);
    }
  }

  /** The items of a record add their skus to the keys of the dictionary. */
  lemma {:induction false} ApplyItemsSkus(s: SellerStats, items: seq<Item>, ctx: Context)
    requires ItemsResolve(items, ctx)
    ensures Skus(ApplyItems(s, items, ctx).products_sold) == Skus(s.products_sold) + ItemSkus(items)
  {
    if items != [] {
      var init, last := items[..|items| - 1], items[|items| - 1];
      ApplyItemsSkus(s, init, ctx);
      AddQuantityKeys(ApplyItems(s, init, ctx).products_sold, last.sku, last.quantity);
    }
  }

  /** The items of a record keep the keys of the dictionary distinct. */
  lemma {:induction false} ApplyItemsDistinct(s: SellerStats, items: seq<Item>, ctx: Context)
    requires ItemsResolve(items, ctx) && DistinctSkus(s.products_sold)
    ensures DistinctSkus(ApplyItems(s, items, ctx).products_sold)
  {
    if items != [] {
      var init, last := items[..|items| - 1], items[|items| - 1];
      ApplyItemsDistinct(s, init, ctx);
      AddQuantityDistinct(ApplyItems(s, init, ctx).products_sold, last.sku, last.quantity);
    }
  }

  /** One record adds a sale, its total, its item profits, quantities and skus. */
  lemma ApplyRecordCounters(s: SellerStats, record: PurchaseRecord, ctx: Context)
    requires ItemsResolve(record.items, ctx)
    ensures var r := ApplyRecord(s, record, ctx);
      && r.(sales_count := s.sales_count, revenue := s.revenue, profit := s.profit, products_sold := s.products_sold) == s
      && r.sales_count == s.sales_count + 1
      && r.revenue == s.revenue + record.total_amount
      && r.profit == s.profit + ItemsProfit(record.items, ctx)
  {
    ApplyItemsProfit(s.(sales_count := s.sales_count + 1, revenue := s.revenue + record.total_amount), record.items, ctx);
  }

  lemma ApplyRecordQuantity(s: SellerStats, record: PurchaseRecord, ctx: Context, sku: string)
    requires ItemsResolve(record.items, ctx)
    ensures QuantityOf(ApplyRecord(s, record, ctx).products_sold, sku) == QuantityOf(s.products_sold, sku) + ItemsQuantity(record.items, sku)
  {
    ApplyItemsQuantity(s.(sales_count := s.sales_count + 1, revenue := s.revenue + record.total_amount), record.items, ctx, sku);
  }

  lemma ApplyRecordSkus(s: SellerStats, record: PurchaseRecord, ctx: Context)
    requires ItemsResolve(record.items, ctx)
    ensures Skus(ApplyRecord(s, record, ctx).products_sold) == Skus(s.products_sold) + ItemSkus(record.items)
  {
    ApplyItemsSkus(s.(sales_count := s.sales_count + 1, revenue := s.revenue + record.total_amount), record.items, ctx);
  }

  lemma ApplyRecordDistinct(s: SellerStats, record: PurchaseRecord, ctx: Context)
    requires ItemsResolve(record.items, ctx) && DistinctSkus(s.products_sold)
    ensures DistinctSkus(ApplyRecord(s, record, ctx).products_sold)
  {
    ApplyItemsDistinct(s.(sales_count := s.sales_count + 1, revenue := s.revenue + record.total_amount), record.items, ctx);
  }

  /** The last record of the pass touches only the record of its seller. */
  lemma AccumulateAllLast(stats: seq<SellerStats>, records: seq<PurchaseRecord>, ctx: Context, k: nat)
    requires RecordsResolve(records, ctx) && IndexWithin(ctx, |stats|) && k < |stats| && records != []
    ensures RecordsResolve(records[..|records| - 1], ctx) && ItemsResolve(records[|records| - 1].items, ctx)
    ensures var p, last := AccumulateAll(stats, records[..|records| - 1], ctx)[k], records[|records| - 1];
      AccumulateAll(stats, records, ctx)[k] == if Owner(last, ctx) == k then ApplyRecord(p, last, ctx) else p
  {
    assert RecordResolves(records[|records| - 1], ctx);
  }

  /**
   * After the pass, the record at position `k` has one sale per record
   * booked to it, the sum of their totals as revenue and the sum of their
   * item profits as profit, on top of what it had; its id, name, bonus and
   * top products are untouched.
   */
  lemma {:induction false} AccumulateAllAt(stats: seq<SellerStats>, records: seq<PurchaseRecord>, ctx: Context, k: nat)
    requires RecordsResolve(records, ctx) && IndexWithin(ctx, |stats|) && k < |stats|
    ensures var r, s := AccumulateAll(stats, records, ctx)[k], stats[k];
      && r.(sales_count := s.sales_count, revenue := s.revenue, profit := s.profit, products_sold := s.products_sold) == s
      && r.sales_count == s.sales_count + CountOwned(records, ctx, k)
      && r.revenue == s.revenue + RevenueOwned(records, ctx, k)
      && r.profit == s.profit + ProfitOwned(records, ctx, k)
  {
    if records != [] {
      var init, last := records[..|records| - 1], records[|records| - 1];
      AccumulateAllLast(stats, records, ctx, k);
      AccumulateAllAt(stats, init, ctx, k);
      var p := AccumulateAll(stats, init, ctx)[k];
      if Owner(last, ctx) == k {
        ApplyRecordCounters(p, last, ctx);
      }
    }
  }

  /**
   * After the pass, the dictionary of the record at position `k` holds
   * under each sku the quantities of that sku in the records booked to it.
   */
  lemma {:induction false} AccumulateAllQuantity(stats: seq<SellerStats>, records: seq<PurchaseRecord>, ctx: Context, k: nat, sku: string)
    requires RecordsResolve(records, ctx) && IndexWithin(ctx, |stats|) && k < |stats|
    ensures QuantityOf(AccumulateAll(stats, records, ctx)[k].products_sold, sku)
            == QuantityOf(stats[k].products_sold, sku) + QuantityOwned(records, ctx, k, sku)
  {
    if records != [] {
      var init, last := records[..|records| - 1], records[|records| - 1];
      AccumulateAllLast(stats, records, ctx, k);
      AccumulateAllQuantity(stats, init, ctx, k, sku);
      var p := AccumulateAll(stats, init, ctx)[k];
      if Owner(last, ctx) == k {
        ApplyRecordQuantity(p, last, ctx, sku);
      }
    }
  }

  /**
   * After the pass, the keys of that dictionary are its old keys and the
   * skus sold in the records booked to position `k`.
   */
  lemma {:induction false} AccumulateAllSkus(stats: seq<SellerStats>, records: seq<PurchaseRecord>, ctx: Context, k: nat)
    requires RecordsResolve(records, ctx) && IndexWithin(ctx, |stats|) && k < |stats|
    ensures Skus(AccumulateAll(stats, records, ctx)[k].products_sold) == Skus(stats[k].products_sold) + SkusOwned(records, ctx, k)
  {
    if records != [] {
      var init, last := records[..|records| - 1], records[|records| - 1];
      AccumulateAllLast(stats, records, ctx, k);
      AccumulateAllSkus(stats, init, ctx, k);
      var p := AccumulateAll(stats, init, ctx)[k];
      if Owner(last, ctx) == k {
        ApplyRecordSkus(p, last, ctx);
      }
    }
  }

  /** The pass keeps every dictionary free of repeated keys. */
  lemma {:induction false} AccumulateAllDistinct(stats: seq<SellerStats>, records: seq<PurchaseRecord>, ctx: Context, k: nat)
    requires RecordsResolve(records, ctx) && IndexWithin(ctx, |stats|) && k < |stats|
    requires DistinctSkus(stats[k].products_sold)
    ensures DistinctSkus(AccumulateAll(stats, records, ctx)[k].products_sold)
  {
    if records != [] {
      var init, last := records[..|records| - 1], records[|records| - 1];
      AccumulateAllLast(stats, records, ctx, k);
      AccumulateAllDistinct(stats, init, ctx, k);
      var p := AccumulateAll(stats, init, ctx)[k];
      if Owner(last, ctx) == k {
        ApplyRecordDistinct(p, last, ctx);
      }
    }
  }

  lemma {:induction false} TotalSalesUpdate(stats: seq<SellerStats>, k: nat, x: SellerStats)
    requires k < |stats|
    ensures TotalSales(stats[k := x]) == TotalSales(stats) - stats[k].sales_count + x.sales_count
  {
    var n := |stats|;
    if k < n - 1 {
      TotalSalesUpdate(stats[..n - 1], k, x);
      assert stats[k := x][..n - 1] == stats[..n - 1][k := x];
    } else {
      assert stats[k := x][..n - 1] == stats[..n - 1];
    }
  }

  /** Every record adds exactly one sale to exactly one seller. */
  lemma {:induction false} TotalSalesAccumulate(stats: seq<SellerStats>, records: seq<PurchaseRecord>, ctx: Context)
    requires RecordsResolve(records, ctx) && IndexWithin(ctx, |stats|)
    ensures TotalSales(AccumulateAll(stats, records, ctx)) == TotalSales(stats) + |records|
  {
    if records != [] {
      var init, last := records[..|records| - 1], records[|records| - 1];
      TotalSalesAccumulate(stats, init, ctx);
      var prev := AccumulateAll(stats, init, ctx);
      var k := Owner(last, ctx);
      var p := prev[k];
      ApplyRecordCounters(p, last, ctx);
      TotalSalesUpdate(prev, k, ApplyRecord(p, last, ctx));
    }
  }

  /** The prefix of the items one longer: one more item applied. */
  lemma ApplyItemsNext(s: SellerStats, items: seq<Item>, j: nat, ctx: Context)
    requires ItemsResolve(items, ctx) && j < |items|
    ensures ItemsResolve(items[..j], ctx) && ItemsResolve(items[..j + 1], ctx)
    ensures ApplyItems(s, items[..j + 1], ctx) == ApplyItem(ApplyItems(s, items[..j], ctx), items[j], ctx)
  {
    assert items[..j + 1][..j] == items[..j];
  }

  /** The inner loop: the items of one record, applied to the record at position `seller`. */
  method AccumulateItems(stats: array<SellerStats>, seller: nat, items: seq<Item>, ctx: Context)
    requires seller < stats.Length && ItemsResolve(items, ctx)
    modifies stats
    ensures stats[..] == old(stats[..])[seller := ApplyItems(old(stats[seller]), items, ctx)]
  {
    ghost var start := stats[seller];
    var j := 0;
    while j < |items|
      invariant 0 <= j <= |items|
      invariant forall m :: 0 <= m < stats.Length && m != seller ==> stats[m] == old(stats[m])
      invariant stats[seller] == ApplyItems(start, items[..j], ctx)
    {
      var item := items[j];
      var product := ctx.productIndex[item.sku];
      var cost := Cost(product, item.quantity);
      var revenue := ctx.revenue(item);
      var profit := revenue - cost;
      var s := stats[seller];
      s := s.(profit := s.profit + profit);
      s := s.(products_sold := AddQuantity(s.products_sold, item.sku, item.quantity));
      ApplyItemsNext(start, items, j, ctx);
      stats[seller] := s;
      j := j + 1;
    }
    assert items[..j] == items;
    assert stats[..] == old(stats[..])[seller := ApplyItems(start, items, ctx)];
  }

  /** The prefix of the records one longer: one more record applied. */
  lemma AccumulateAllNext(stats: seq<SellerStats>, records: seq<PurchaseRecord>, i: nat, ctx: Context)
    requires RecordsResolve(records, ctx) && IndexWithin(ctx, |stats|) && i < |records|
    ensures RecordsResolve(records[..i], ctx) && RecordsResolve(records[..i + 1], ctx)
    ensures var prev := AccumulateAll(stats, records[..i], ctx);
      var k := Owner(records[i], ctx);
      AccumulateAll(stats, records[..i + 1], ctx) == prev[k := ApplyRecord(prev[k], records[i], ctx)]
  {
    assert records[..i + 1][..i] == records[..i];
  }

  /**
   * The accumulation loop: mutates the records in `stats` in place, one
   * purchase record at a time.
   */
  method AccumulateRecords(stats: array<SellerStats>, records: seq<PurchaseRecord>, ctx: Context)
    requires RecordsResolve(records, ctx) && IndexWithin(ctx, stats.Length)
    modifies stats
    ensures stats[..] == AccumulateAll(old(stats[..]), records, ctx)
  {
    ghost var initial := stats[..];
    var i := 0;
    while i < |records|
      invariant 0 <= i <= |records|
      invariant RecordsResolve(records[..i], ctx)
      invariant stats[..] == AccumulateAll(initial, records[..i], ctx)
    {
      var record := records[i];
      // the position of the seller's record: the object the source mutates
      var seller := ctx.sellerIndex[record.seller_id];
      ghost var prev := stats[..];
      assert RecordResolves(record, ctx);
      var s := stats[seller];
      stats[seller] := s.(sales_count := s.sales_count + 1, revenue := s.revenue + record.total_amount);
      AccumulateItems(stats, seller, record.items, ctx);
      assert stats[..] == prev[seller := ApplyRecord(s, record, ctx)];
      AccumulateAllNext(initial, records, i, ctx);
      i := i + 1;
    }
    assert records[..i] == records;
  }
}
