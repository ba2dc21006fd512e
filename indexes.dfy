/**
 * The two lookup tables built before accumulation (src/main.js:75-76):
 * seller id -> the seller's statistics record, and sku -> product card.
 * Both are `Object.fromEntries` over a list of pairs, where a later pair
 * with the same key replaces an earlier one.
 *
 * The seller table points at the very record that later stages mutate;
 * here the records live in an array and the table maps an id to the
 * record's position in it.
 */
module Indexes {
  import opened SalesTypes

  /** `Object.fromEntries`: the dictionary of the pairs, the last pair per key winning. */
  function FromEntries<K, V>(entries: seq<(K, V)>): (m: map<K, V>)
    ensures m.Keys == set i | 0 <= i < |entries| :: entries[i].0
  {
    if entries == [] then map[]
    else
      var init := entries[..|entries| - 1];
      assert forall i :: 0 <= i < |init| ==> init[i] == entries[i];
      FromEntries(init)[entries[|entries| - 1].0 := entries[|entries| - 1].1]
  }

  /** Every value of the dictionary comes from a pair with its key. */
  lemma {:induction false} FromEntriesValue<K, V>(entries: seq<(K, V)>, k: K)
    requires k in FromEntries(entries)
    ensures exists i :: 0 <= i < |entries| && entries[i].0 == k && FromEntries(entries)[k] == entries[i].1
  {
    var n := |entries|;
    if entries[n - 1].0 != k {
      var init := entries[..n - 1];
      FromEntriesValue(init, k);
      var i :| 0 <= i < |init| && init[i].0 == k && FromEntries(init)[k] == init[i].1;
      assert entries[i] == init[i];
    }
  }

  /** The last pair with a key decides its value. */
  lemma {:induction false} FromEntriesLast<K, V>(entries: seq<(K, V)>, i: nat)
    requires i < |entries| && IsLastKey(entries, i)
    ensures entries[i].0 in FromEntries(entries) && FromEntries(entries)[entries[i].0] == entries[i].1
  {
    var n := |entries|;
    if i < n - 1 {
      var init := entries[..n - 1];
      assert entries[n - 1].0 != entries[i].0;
      assert IsLastKey(init, i);
      FromEntriesLast(init, i);
    }
  }

  /** No later pair of `entries` has the key of pair `i`. */
  ghost predicate IsLastKey<K, V>(entries: seq<(K, V)>, i: nat)
    requires i < |entries|
  {
    forall j :: i < j < |entries| ==> entries[j].0 != entries[i].0
  }

  /** Seller ids are pairwise distinct. */
  ghost predicate DistinctIds(stats: seq<SellerStats>)
  {
    forall i, j :: 0 <= i < j < |stats| ==> stats[i].id != stats[j].id
  }

  /** The ids of the seller records. */
  function SellerIds(stats: seq<SellerStats>): set<string>
  {
    set s | s in stats :: s.id
  }

  /** The skus of the product cards. */
  function ProductSkus(products: seq<Product>): set<string>
  {
    set p | p in products :: p.sku
  }

  /** The seller table: id -> position of that seller's record. */
  function SellerIndex(stats: seq<SellerStats>): map<string, nat>
  {
    FromEntries(SellerEntries(stats))
  }

  /** The pairs (id, position) of the seller records. */
  function SellerEntries(stats: seq<SellerStats>): seq<(string, nat)>
  {
    seq(|stats|, k requires 0 <= k < |stats| => (stats[k].id, k as nat))
  }

  /** The product table: sku -> product card. */
  function ProductIndex(products: seq<Product>): map<string, Product>
  {
    FromEntries(seq(|products|, p requires 0 <= p < |products| => (products[p].sku, products[p])))
  }

  /**
   * Every seller id is in the seller table and is mapped to a record with
   * that id; with distinct ids each id is mapped to its own record.
   */
  lemma SellerIndexSpec(stats: seq<SellerStats>)
    ensures SellerIndex(stats).Keys == SellerIds(stats)
    ensures forall id :: id in SellerIndex(stats) ==>
              SellerIndex(stats)[id] < |stats| && stats[SellerIndex(stats)[id]].id == id
    ensures DistinctIds(stats) ==> forall k :: 0 <= k < |stats| ==> SellerIndex(stats)[stats[k].id] == k
  {
    var entries := SellerEntries(stats);
    var m := SellerIndex(stats);
    assert m.Keys == SellerIds(stats) by {
      forall id | id in m.Keys ensures id in SellerIds(stats) {
        var i :| 0 <= i < |entries| && entries[i].0 == id;
        assert stats[i] in stats;
      }
      forall id | id in SellerIds(stats) ensures id in m.Keys {
        var s :| s in stats && s.id == id;
        var i :| 0 <= i < |stats| && stats[i] == s;
        assert entries[i].0 == id;
      }
    }
    forall id | id in m ensures m[id] < |stats| && stats[m[id]].id == id {
      FromEntriesValue(entries, id);
    }
    if DistinctIds(stats) {
      forall k | 0 <= k < |stats| ensures m[stats[k].id] == k {
        assert IsLastKey(entries, k);
        FromEntriesLast(entries, k);
      }
    }
  }

  /**
   * Every sku of the catalogue is in the product table and is mapped to the
   * LAST card with that sku.
   */
  lemma ProductIndexSpec(products: seq<Product>)
    ensures ProductIndex(products).Keys == ProductSkus(products)
    ensures forall sku :: sku in ProductIndex(products) ==>
              ProductIndex(products)[sku] in products && ProductIndex(products)[sku].sku == sku
    ensures forall i :: 0 <= i < |products| && (forall j :: i < j < |products| ==> products[j].sku != products[i].sku) ==>
              ProductIndex(products)[products[i].sku] == products[i]
  {
    var entries := seq(|products|, p requires 0 <= p < |products| => (products[p].sku, products[p]));
    var m := ProductIndex(products);
    assert m.Keys == ProductSkus(products) by {
      forall sku | sku in m.Keys ensures sku in ProductSkus(products) {
        var i :| 0 <= i < |entries| && entries[i].0 == sku;
        assert products[i] in products;
      }
      forall sku | sku in ProductSkus(products) ensures sku in m.Keys {
        var p :| p in products && p.sku == sku;
        var i :| 0 <= i < |products| && products[i] == p;
        assert entries[i].0 == sku;
      }
    }
    forall sku | sku in m ensures m[sku] in products && m[sku].sku == sku {
      FromEntriesValue(entries, sku);
    }
    forall i | 0 <= i < |products| && (forall j :: i < j < |products| ==> products[j].sku != products[i].sku)
      ensures m[products[i].sku] == products[i]
    {
      assert IsLastKey(entries, i);
      FromEntriesLast(entries, i);
    }
  }
}
