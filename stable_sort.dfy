/**
 * Stable sorting in descending order of a real-valued key, the order the
 * pipeline uses twice: sellers by profit and a seller's products by
 * quantity. `SortDesc` is the specification (an insertion sort written as
 * a function); `SortInPlace` sorts an array in place and is proved to
 * produce exactly `SortDesc` of its old contents.
 */
module StableSort {

  /** The key never increases along `s`. */
  ghost predicate SortedDesc<T>(s: seq<T>, key: T -> real)
  {
    forall i, j :: 0 <= i < j < |s| ==> key(s[i]) >= key(s[j])
  }

  /** The elements of `s` whose key is `v`, in their order in `s`. */
  function Filter<T>(s: seq<T>, key: T -> real, v: real): seq<T>
  {
    if s == [] then []
    else Filter(s[..|s| - 1], key, v) + (if key(s[|s| - 1]) == v then [s[|s| - 1]] else [])
  }

  /**
   * Inserts `x` into `s` after every element whose key is at least
   * `key(x)`, looking from the end: equal keys stay in front of `x`.
   */
  function Insert<T>(s: seq<T>, x: T, key: T -> real): (r: seq<T>)
    ensures |r| == |s| + 1
  {
    if s == [] || key(s[|s| - 1]) >= key(x) then s + [x]
    else Insert(s[..|s| - 1], x, key) + [s[|s| - 1]]
  }

  /** Stable descending sort: each element in turn is inserted into the sorted prefix. */
  function SortDesc<T>(s: seq<T>, key: T -> real): (r: seq<T>)
    ensures |r| == |s|
  {
    if s == [] then [] else Insert(SortDesc(s[..|s| - 1], key), s[|s| - 1], key)
  }

  lemma {:induction false} InsertMultiset<T>(s: seq<T>, x: T, key: T -> real)
    ensures multiset(Insert(s, x, key)) == multiset(s) + multiset{x}
  {
    if s == [] || key(s[|s| - 1]) >= key(x) {
    } else {
      var init, last := s[..|s| - 1], s[|s| - 1];
      InsertMultiset(init, x, key);
      assert s == init + [last];
    }
  }

  /** Every key of `Insert(s, x, key)` is at least `b` when every key of `s` and `key(x)` are. */
  lemma {:induction false} InsertLowerBound<T>(s: seq<T>, x: T, key: T -> real, b: real)
    requires forall i :: 0 <= i < |s| ==> key(s[i]) >= b
    requires key(x) >= b
    ensures forall i :: 0 <= i < |s| + 1 ==> key(Insert(s, x, key)[i]) >= b
  {
    if s == [] || key(s[|s| - 1]) >= key(x) {
    } else {
      InsertLowerBound(s[..|s| - 1], x, key, b);
    }
  }

  lemma {:induction false} InsertSorted<T>(s: seq<T>, x: T, key: T -> real)
    requires SortedDesc(s, key)
    ensures SortedDesc(Insert(s, x, key), key)
  {
    if s == [] {
    } else if key(s[|s| - 1]) >= key(x) {
      var r := Insert(s, x, key);
      forall i, j | 0 <= i < j < |r| ensures key(r[i]) >= key(r[j]) {
        if j == |s| {
          assert key(s[i]) >= key(s[|s| - 1]);
        }
      }
    } else {
      var init, last := s[..|s| - 1], s[|s| - 1];
      InsertSorted(init, x, key);
      InsertLowerBound(init, x, key, key(last));
    }
  }

  /** Inserting `x` adds it to the end of the elements with its key and leaves the others alone. */
  lemma {:induction false} InsertStable<T>(s: seq<T>, x: T, key: T -> real, v: real)
    ensures Filter(Insert(s, x, key), key, v) == Filter(s, key, v) + (if key(x) == v then [x] else [])
  {
    if s == [] || key(s[|s| - 1]) >= key(x) {
      assert (s + [x])[..|s|] == s;
    } else {
      var init, last := s[..|s| - 1], s[|s| - 1];
      var r' := Insert(init, x, key);
      InsertStable(init, x, key, v);
      assert (r' + [last])[..|r'|] == r';
    }
  }

  /** The sort is a permutation of its input. */
  lemma {:induction false} SortDescPermutation<T>(s: seq<T>, key: T -> real)
    ensures multiset(SortDesc(s, key)) == multiset(s)
  {
    if s != [] {
      var init, last := s[..|s| - 1], s[|s| - 1];
      SortDescPermutation(init, key);
      InsertMultiset(SortDesc(init, key), last, key);
      assert s == init + [last];
    }
  }

  /** The sort orders by non-increasing key. */
  lemma {:induction false} SortDescSorted<T>(s: seq<T>, key: T -> real)
    ensures SortedDesc(SortDesc(s, key), key)
  {
    if s != [] {
      SortDescSorted(s[..|s| - 1], key);
      InsertSorted(SortDesc(s[..|s| - 1], key), s[|s| - 1], key);
    }
  }

  /** The sort is stable: the elements sharing any one key keep their input order. */
  lemma {:induction false} SortDescStable<T>(s: seq<T>, key: T -> real, v: real)
    ensures Filter(SortDesc(s, key), key, v) == Filter(s, key, v)
  {
    if s != [] {
      var init, last := s[..|s| - 1], s[|s| - 1];
      SortDescStable(init, key, v);
      InsertStable(SortDesc(init, key), last, key, v);
    }
  }

  /** A key with a non-empty filter is the key of some element. */
  lemma {:induction false} FilterNonEmpty<T>(s: seq<T>, key: T -> real, v: real)
    requires Filter(s, key, v) != []
    ensures exists i :: 0 <= i < |s| && key(s[i]) == v
  {
    var init, last := s[..|s| - 1], s[|s| - 1];
    if key(last) != v {
      FilterNonEmpty(init, key, v);
      var i :| 0 <= i < |init| && key(init[i]) == v;
      assert s[i] == init[i];
    }
  }

  /** The last key of a sorted `t` is at most the last key of any `r` with the same filters. */
  lemma LastKeyAtMost<T>(r: seq<T>, t: seq<T>, key: T -> real)
    requires |r| > 0 && |t| > 0 && SortedDesc(t, key)
    requires forall v :: Filter(r, key, v) == Filter(t, key, v)
    ensures key(t[|t| - 1]) <= key(r[|r| - 1])
  {
    var m := key(r[|r| - 1]);
    assert Filter(r, key, m) == Filter(r[..|r| - 1], key, m) + [r[|r| - 1]];
    FilterNonEmpty(t, key, m);
    var i :| 0 <= i < |t| && key(t[i]) == m;
    assert i == |t| - 1 || key(t[i]) >= key(t[|t| - 1]);
  }

  /** The smallest key, the last one of a sorted sequence, is determined by the filters. */
  lemma LastKeyDetermined<T>(r: seq<T>, t: seq<T>, key: T -> real)
    requires |r| == |t| > 0 && SortedDesc(r, key) && SortedDesc(t, key)
    requires forall v :: Filter(r, key, v) == Filter(t, key, v)
    ensures key(r[|r| - 1]) == key(t[|t| - 1])
  {
    LastKeyAtMost(r, t, key);
    LastKeyAtMost(t, r, key);
  }

  /** With equal last keys, the last elements agree. */
  lemma LastAgrees<T>(r: seq<T>, t: seq<T>, key: T -> real)
    requires |r| == |t| > 0 && key(r[|r| - 1]) == key(t[|t| - 1])
    requires forall v :: Filter(r, key, v) == Filter(t, key, v)
    ensures r[|r| - 1] == t[|t| - 1]
  {
    var n := |r|;
    var m := key(r[n - 1]);
    var fr, ft := Filter(r[..n - 1], key, m), Filter(t[..n - 1], key, m);
    assert Filter(r, key, m) == fr + [r[n - 1]];
    assert Filter(t, key, m) == ft + [t[n - 1]];
    assert |fr| == |ft|;
    assert (fr + [r[n - 1]])[|fr|] == r[n - 1];
    assert (ft + [t[n - 1]])[|ft|] == t[n - 1];
  }

  /** With equal last keys, the filters of the rest agree too. */
  lemma InitFilterAgrees<T>(r: seq<T>, t: seq<T>, key: T -> real, v: real)
    requires |r| == |t| > 0 && key(r[|r| - 1]) == key(t[|t| - 1])
    requires forall v :: Filter(r, key, v) == Filter(t, key, v)
    ensures Filter(r[..|r| - 1], key, v) == Filter(t[..|t| - 1], key, v)
  {
    var n := |r|;
    var fr, ft := Filter(r[..n - 1], key, v), Filter(t[..n - 1], key, v);
    if v == key(r[n - 1]) {
      assert Filter(r, key, v) == fr + [r[n - 1]];
      assert Filter(t, key, v) == ft + [t[n - 1]];
      assert fr == (fr + [r[n - 1]])[..|fr|];
      assert ft == (ft + [t[n - 1]])[..|ft|];
    } else {
      assert Filter(r, key, v) == fr;
      assert Filter(t, key, v) == ft;
    }
  }

  /**
   * Sorting stably is determined: two sequences of the same length, both
   * sorted by `key`, that agree on the order of the elements of every key
   * are equal.
   */
  lemma {:induction false} SortedStableUnique<T>(r: seq<T>, t: seq<T>, key: T -> real)
    requires |r| == |t| && SortedDesc(r, key) && SortedDesc(t, key)
    requires forall v :: Filter(r, key, v) == Filter(t, key, v)
    ensures r == t
  {
    if r != [] {
      var n := |r|;
      var r', t' := r[..n - 1], t[..n - 1];
      LastKeyDetermined(r, t, key);
      LastAgrees(r, t, key);
      forall v ensures Filter(r', key, v) == Filter(t', key, v) {
        InitFilterAgrees(r, t, key, v);
      }
      SortedStableUnique(r', t', key);
      assert r == r[..n - 1] + [r[n - 1]] && t == t[..n - 1] + [t[n - 1]];
    }
  }

  /**
   * Any stable descending sort of `s` gives `SortDesc(s, key)`: whatever
   * algorithm a host uses, a sorted result that keeps the order of equal
   * keys is this one.
   */
  lemma SortDescUnique<T>(s: seq<T>, r: seq<T>, key: T -> real)
    requires |r| == |s| && SortedDesc(r, key)
    requires forall v :: Filter(r, key, v) == Filter(s, key, v)
    ensures r == SortDesc(s, key)
  {
    SortDescSorted(s, key);
    forall v ensures Filter(r, key, v) == Filter(SortDesc(s, key), key, v) {
      SortDescStable(s, key, v);
    }
    SortedStableUnique(r, SortDesc(s, key), key);
  }

  /**
   * `Insert` puts `x` right after the last element, from the end, whose key
   * is at least `key(x)`.
   */
  lemma {:induction false} InsertAt<T>(s: seq<T>, x: T, key: T -> real, j: nat)
    requires j <= |s|
    requires j == 0 || key(s[j - 1]) >= key(x)
    requires forall m :: j <= m < |s| ==> key(s[m]) < key(x)
    ensures Insert(s, x, key) == s[..j] + [x] + s[j..]
  {
    if j < |s| {
      var init := s[..|s| - 1];
      InsertAt(init, x, key, j);
      assert init[..j] == s[..j];
      assert s[j..] == init[j..] + [s[|s| - 1]];
    } else {
      assert s[..j] == s && s[j..] == [];
    }
  }

  /**
   * Moves `a[i]` left past the elements of `a[..i]` whose key is smaller:
   * the one step of the in-place insertion sort.
   */
  method InsertInPlace<T>(a: array<T>, i: nat, key: T -> real)
    requires i < a.Length
    modifies a
    ensures a[..i + 1] == Insert(old(a[..i]), old(a[i]), key)
    ensures a[i + 1..] == old(a[i + 1..])
  {
    var x := a[i];
    ghost var sorted := a[..i];
    var j := i;
    while j > 0 && key(a[j - 1]) < key(x)
      invariant 0 <= j <= i
      invariant forall m :: 0 <= m < j ==> a[m] == sorted[m]
      invariant forall m :: j < m <= i ==> a[m] == sorted[m - 1]
      invariant forall m :: i < m < a.Length ==> a[m] == old(a[m])
      invariant forall m :: j <= m < i ==> key(sorted[m]) < key(x)
    {
      a[j] := a[j - 1];
      j := j - 1;
    }
    a[j] := x;
    InsertAt(sorted, x, key, j);
    assert a[..i + 1] == sorted[..j] + [x] + sorted[j..];
  }

  /** In-place insertion sort of `a`, descending by `key` and stable. */
  method SortInPlace<T>(a: array<T>, key: T -> real)
    modifies a
    ensures a[..] == SortDesc(old(a[..]), key)
  {
    ghost var input := a[..];
    var i := 0;
    while i < a.Length
      invariant 0 <= i <= a.Length
      invariant a[..i] == SortDesc(input[..i], key)
      invariant a[i..] == input[i..]
    {
      InsertInPlace(a, i, key);
      assert input[..i + 1][..i] == input[..i];
      i := i + 1;
    }
    assert input[..a.Length] == input;
  }
}
