/**
 * A seller's sold-products dictionary (sku -> quantity), kept as its
 * entries in insertion order, and the top-products list derived from it.
 */
module ProductsSold {
  import opened SalesTypes
  import opened StableSort

  /** The total quantity recorded under `sku`. */
  function QuantityOf(sold: seq<ProductQty>, sku: string): int
  {
    if sold == [] then 0
    else (if sold[0].sku == sku then sold[0].quantity else 0) + QuantityOf(sold[1..], sku)
  }

  /** The keys of the dictionary. */
  function Skus(sold: seq<ProductQty>): set<string>
  {
    if sold == [] then {} else {sold[0].sku} + Skus(sold[1..])
  }

  /** A key is a sku of some entry. */
  lemma {:induction false} SkusAt(sold: seq<ProductQty>, sku: string)
    ensures sku in Skus(sold) <==> exists i :: 0 <= i < |sold| && sold[i].sku == sku
  {
    if sold != [] {
      SkusAt(sold[1..], sku);
      if sku in Skus(sold[1..]) {
        var i :| 0 <= i < |sold| - 1 && sold[1..][i].sku == sku;
        assert sold[i + 1].sku == sku;
      }
      if exists i :: 0 <= i < |sold| && sold[i].sku == sku {
        var i :| 0 <= i < |sold| && sold[i].sku == sku;
        if i > 0 {
          assert sold[1..][i - 1].sku == sku;
        }
      }
    }
  }

  /** No key appears twice: the shape of a real dictionary. */
  ghost predicate DistinctSkus(sold: seq<ProductQty>)
  {
    forall i, j :: 0 <= i < j < |sold| ==> sold[i].sku != sold[j].sku
  }

  /**
   * Adds `quantity` to the entry of `sku`, creating it at the end (with 0
   * before the addition) when the seller had not sold that sku yet.
   */
  function AddQuantity(sold: seq<ProductQty>, sku: string, quantity: int): (r: seq<ProductQty>)
    // existing keys keep their places and values other than sku's
    ensures |sold| <= |r| <= |sold| + 1
    ensures forall i :: 0 <= i < |sold| ==> r[i].sku == sold[i].sku
    ensures forall i :: 0 <= i < |sold| && sold[i].sku != sku ==> r[i] == sold[i]
  {
    if sold == [] then [ProductQty(sku, 0 + quantity)]
    else if sold[0].sku == sku then [sold[0].(quantity := sold[0].quantity + quantity)] + sold[1..]
    else [sold[0]] + AddQuantity(sold[1..], sku, quantity)
  }

  /** Adding raises the quantity of `sku` by `quantity` and no other quantity. */
  lemma {:induction false} AddQuantityCounts(sold: seq<ProductQty>, sku: string, quantity: int, other: string)
    ensures QuantityOf(AddQuantity(sold, sku, quantity), other)
            == QuantityOf(sold, other) + (if other == sku then quantity else 0)
  {
    if sold != [] && sold[0].sku != sku {
      AddQuantityCounts(sold[1..], sku, quantity, other);
    }
  }

  /** The keys after adding are the old keys plus `sku`, and a new key goes last. */
  lemma {:induction false} AddQuantityKeys(sold: seq<ProductQty>, sku: string, quantity: int)
    ensures Skus(AddQuantity(sold, sku, quantity)) == Skus(sold) + {sku}
    ensures sku !in Skus(sold) ==> AddQuantity(sold, sku, quantity) == sold + [ProductQty(sku, quantity)]
    ensures sku in Skus(sold) ==> |AddQuantity(sold, sku, quantity)| == |sold|
  {
    if sold != [] && sold[0].sku != sku {
      AddQuantityKeys(sold[1..], sku, quantity);
    }
  }

  /** Adding keeps the keys distinct: a dictionary stays a dictionary. */
  lemma {:induction false} AddQuantityDistinct(sold: seq<ProductQty>, sku: string, quantity: int)
    requires DistinctSkus(sold)
    ensures DistinctSkus(AddQuantity(sold, sku, quantity))
  {
    AddQuantityKeys(sold, sku, quantity);
    SkusAt(sold, sku);
  }

  /** In a dictionary each entry carries the whole quantity of its sku. */
  lemma {:induction false} EntryQuantity(sold: seq<ProductQty>, i: nat)
    requires DistinctSkus(sold) && i < |sold|
    ensures QuantityOf(sold, sold[i].sku) == sold[i].quantity
  {
    if i == 0 {
      AbsentQuantity(sold[1..], sold[0].sku);
    } else {
      EntryQuantity(sold[1..], i - 1);
    }
  }

  /** A sku that is not a key has quantity 0. */
  lemma {:induction false} AbsentQuantity(sold: seq<ProductQty>, sku: string)
    requires forall i :: 0 <= i < |sold| ==> sold[i].sku != sku
    ensures QuantityOf(sold, sku) == 0
  {
    if sold != [] {
      AbsentQuantity(sold[1..], sku);
    }
  }

  /** A dictionary has as many entries as distinct keys. */
  lemma {:induction false} DistinctSkusCount(sold: seq<ProductQty>)
    requires DistinctSkus(sold)
    ensures |Skus(sold)| == |sold|
  {
    if sold != [] {
      DistinctSkusCount(sold[1..]);
      SkusAt(sold[1..], sold[0].sku);
    }
  }

  /** The sort key of an entry. */
  function Quantity(e: ProductQty): real
  {
    e.quantity as real
  }

  /**
   * The ten best-selling entries: the entries sorted by quantity,
   * descending and stable, cut to at most ten.
   */
  function TopProducts(sold: seq<ProductQty>): seq<ProductQty>
  {
    var sorted := SortDesc(sold, Quantity);
    sorted[..if |sorted| < 10 then |sorted| else 10]
  }

  /** The length of the top-products list: ten, or fewer when fewer skus were sold. */
  lemma TopProductsLength(sold: seq<ProductQty>)
    requires DistinctSkus(sold)
    ensures |TopProducts(sold)| == if |Skus(sold)| < 10 then |Skus(sold)| else 10
  {
    DistinctSkusCount(sold);
  }

  /** Every listed entry is a dictionary entry and carries its sku's whole quantity. */
  lemma TopProductsFromSold(sold: seq<ProductQty>)
    requires DistinctSkus(sold)
    ensures forall e :: e in TopProducts(sold) ==> e in sold && QuantityOf(sold, e.sku) == e.quantity
  {
    var sorted := SortDesc(sold, Quantity);
    SortDescPermutation(sold, Quantity);
    forall e | e in TopProducts(sold) ensures e in sold && QuantityOf(sold, e.sku) == e.quantity {
      assert e in multiset(sorted);
      var i :| 0 <= i < |sold| && sold[i] == e;
      EntryQuantity(sold, i);
    }
  }

  /** No entry left out sold more than the last one listed. */
  lemma TopProductsCutoff(sold: seq<ProductQty>)
    ensures var top := TopProducts(sold);
      forall e :: e in sold && e !in top ==> e.quantity <= top[|top| - 1].quantity
  {
    var sorted := SortDesc(sold, Quantity);
    var top := TopProducts(sold);
    var n := |top|;
    SortDescSorted(sold, Quantity);
    SortDescPermutation(sold, Quantity);
    forall e | e in sold && e !in top ensures e.quantity <= top[n - 1].quantity {
      assert e in multiset(sorted);
      var k :| 0 <= k < |sorted| && sorted[k] == e;
      assert k >= n;
      assert Quantity(sorted[n - 1]) >= Quantity(sorted[k]);
    }
  }

  /** Entries with equal quantities are listed in dictionary order. */
  lemma TopProductsTies(sold: seq<ProductQty>, q: real)
    ensures Filter(TopProducts(sold), Quantity, q) <= Filter(sold, Quantity, q)
  {
    SortDescStable(sold, Quantity, q);
    var sorted := SortDesc(sold, Quantity);
    FilterPrefix(sorted, |TopProducts(sold)|, Quantity, q);
  }

  /**
   * The top-products list has min(10, number of distinct skus) entries,
   * non-increasing quantities, entries taken from the dictionary with
   * their full quantity, no entry left out that sold more than the last
   * one kept, and ties in dictionary order.
   */
  lemma TopProductsSpec(sold: seq<ProductQty>)
    requires DistinctSkus(sold)
    ensures var top := TopProducts(sold);
      && |top| == (if |Skus(sold)| < 10 then |Skus(sold)| else 10)
      && (forall i, j :: 0 <= i < j < |top| ==> top[i].quantity >= top[j].quantity)
      && (forall e :: e in top ==> e in sold && QuantityOf(sold, e.sku) == e.quantity)
      && (forall e :: e in sold && e !in top ==> e.quantity <= top[|top| - 1].quantity)
      && (forall q :: Filter(top, Quantity, q) <= Filter(sold, Quantity, q))
  {
    var top := TopProducts(sold);
    TopProductsLength(sold);
    SortDescSorted(sold, Quantity);
    forall i, j | 0 <= i < j < |top| ensures top[i].quantity >= top[j].quantity {
      assert Quantity(top[i]) >= Quantity(top[j]);
    }
    TopProductsFromSold(sold);
    TopProductsCutoff(sold);
    forall q ensures Filter(top, Quantity, q) <= Filter(sold, Quantity, q) {
      TopProductsTies(sold, q);
    }
  }

  /** Filtering a prefix gives a prefix of the filtered sequence. */
  lemma {:induction false} FilterPrefix<T>(s: seq<T>, n: nat, key: T -> real, v: real)
    requires n <= |s|
    ensures Filter(s[..n], key, v) <= Filter(s, key, v)
  {
    if n < |s| {
      FilterPrefix(s[..|s| - 1], n, key, v);
      assert s[..|s| - 1][..n] == s[..n];
    } else {
      assert s[..n] == s;
    }
  }
}
