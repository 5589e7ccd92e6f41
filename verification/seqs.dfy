/**
 * Sequence operations shared by the model: `Array.prototype.filter`
 * and the ordering a SQL `ORDER BY` clause imposes on a result set.
 */
module Seqs {

  /** `xs.filter(p)`: the elements satisfying `p`, in their original order. */
  function Filter<T(==)>(xs: seq<T>, p: T -> bool): (r: seq<T>)
    ensures |r| <= |xs|
    ensures forall i :: 0 <= i < |r| ==> p(r[i]) && r[i] in xs
    ensures forall i :: 0 <= i < |xs| && p(xs[i]) ==> xs[i] in r
  {
    if |xs| == 0 then []
    else (if p(xs[0]) then [xs[0]] else []) + Filter(xs[1..], p)
  }

  /** Filtering distributes over concatenation, so relative order is kept. */
  lemma {:induction false} FilterConcat<T>(a: seq<T>, b: seq<T>, p: T -> bool)
    ensures Filter(a + b, p) == Filter(a, p) + Filter(b, p)
  {
    if |a| == 0 {
      assert a + b == b;
    } else {
      assert (a + b)[0] == a[0];
      assert (a + b)[1..] == a[1..] + b;
      FilterConcat(a[1..], b, p);
    }
  }

  /** Every occurrence of a kept element survives, every other one is gone. */
  lemma {:induction false} FilterCount<T>(xs: seq<T>, p: T -> bool, x: T)
    ensures multiset(Filter(xs, p))[x] == if p(x) then multiset(xs)[x] else 0
  {
    if |xs| > 0 {
      FilterCount(xs[1..], p, x);
      assert xs == [xs[0]] + xs[1..];
    }
  }

  /** A filter that keeps everything is the identity. */
  lemma {:induction false} FilterKeepsAll<T>(xs: seq<T>, p: T -> bool)
    requires forall i :: 0 <= i < |xs| ==> p(xs[i])
    ensures Filter(xs, p) == xs
  {
    if |xs| > 0 {
      FilterKeepsAll(xs[1..], p);
      assert xs == [xs[0]] + xs[1..];
    }
  }

  /** A filter that keeps nothing yields the empty sequence. */
  lemma {:induction false} FilterDropsAll<T>(xs: seq<T>, p: T -> bool)
    requires forall i :: 0 <= i < |xs| ==> !p(xs[i])
    ensures Filter(xs, p) == []
  {
    if |xs| > 0 {
      FilterDropsAll(xs[1..], p);
    }
  }

  /** Filtering twice with predicates where the second one is implied is filtering once. */
  lemma {:induction false} FilterFilter<T>(xs: seq<T>, p: T -> bool, q: T -> bool)
    requires forall x :: p(x) ==> q(x)
    ensures Filter(Filter(xs, p), q) == Filter(xs, p)
  {
    if |xs| > 0 {
      FilterFilter(xs[1..], p, q);
      var rest := Filter(xs[1..], p);
      if p(xs[0]) {
        var f := [xs[0]] + rest;
        assert Filter(xs, p) == f;
        assert f[0] == xs[0] && q(f[0]);
        assert f[1..] == rest;
        assert Filter(f, q) == [f[0]] + Filter(f[1..], q);
      } else {
        assert Filter(xs, p) == [] + rest;
        assert [] + rest == rest;
      }
    }
  }

  /** Two filters with disjoint predicates split a sequence without losing elements. */
  lemma {:induction false} FilterPartition<T>(xs: seq<T>, p: T -> bool, q: T -> bool)
    requires forall i :: 0 <= i < |xs| ==> (p(xs[i]) <==> !q(xs[i]))
    ensures |Filter(xs, p)| + |Filter(xs, q)| == |xs|
  {
    if |xs| > 0 {
      FilterPartition(xs[1..], p, q);
    }
  }

  /** Keys ascend (ties allowed) along the sequence. */
  predicate SortedBy<T>(s: seq<T>, key: T -> nat) {
    forall i, j :: 0 <= i < j < |s| ==> key(s[i]) <= key(s[j])
  }

  /**
   * Inserts `x` into `s` after every element whose key does not exceed
   * `key(x)`, so that equal keys keep their arrival order.
   */
  function InsertByKey<T(==)>(s: seq<T>, x: T, key: T -> nat): (r: seq<T>)
    ensures |r| == |s| + 1
    ensures multiset(r) == multiset(s) + multiset{x}
  {
    if |s| == 0 then [x]
    else if key(s[|s| - 1]) <= key(x) then s + [x]
    else
      assert s == s[..|s| - 1] + [s[|s| - 1]];
      InsertByKey(s[..|s| - 1], x, key) + [s[|s| - 1]]
  }

  /** Every element of `InsertByKey(s, x, key)` comes from `s` or is `x`. */
  lemma InsertByKeyFrom<T>(s: seq<T>, x: T, key: T -> nat, k: nat)
    requires k < |s| + 1
    ensures InsertByKey(s, x, key)[k] == x || InsertByKey(s, x, key)[k] in s
  {
    var r := InsertByKey(s, x, key);
    assert r[k] in multiset(r);
  }

  /** Inserting into a sorted sequence keeps it sorted. */
  lemma {:induction false} InsertByKeySorted<T>(s: seq<T>, x: T, key: T -> nat)
    requires SortedBy(s, key)
    ensures SortedBy(InsertByKey(s, x, key), key)
  {
    if |s| > 0 && key(x) < key(s[|s| - 1]) {
      var init, last := s[..|s| - 1], s[|s| - 1];
      assert SortedBy(init, key);
      InsertByKeySorted(init, x, key);
      var r' := InsertByKey(init, x, key);
      forall k | 0 <= k < |r'| ensures key(r'[k]) <= key(last) {
        InsertByKeyFrom(init, x, key, k);
        if r'[k] != x {
          var m :| 0 <= m < |init| && init[m] == r'[k];
          assert s[m] == init[m];
        }
      }
      assert InsertByKey(s, x, key) == r' + [last];
    }
  }

  /** Filtering a sorted sequence leaves it sorted. */
  lemma {:induction false} FilterSorted<T>(xs: seq<T>, p: T -> bool, key: T -> nat)
    requires SortedBy(xs, key)
    ensures SortedBy(Filter(xs, p), key)
  {
    if |xs| > 0 {
      assert SortedBy(xs[1..], key);
      FilterSorted(xs[1..], p, key);
      var rest := Filter(xs[1..], p);
      forall k | 0 <= k < |rest| ensures key(xs[0]) <= key(rest[k]) {
        var m :| 0 <= m < |xs[1..]| && xs[1..][m] == rest[k];
        assert xs[m + 1] == rest[k];
      }
      var head := if p(xs[0]) then [xs[0]] else [];
      assert Filter(xs, p) == head + rest;
      assert forall i, j :: 0 <= i < |head| && 0 <= j < |rest| ==> key(head[i]) <= key(rest[j]);
    }
  }

  /** `ORDER BY key ASC` as a stable insertion sort. */
  function SortByKey<T(==)>(s: seq<T>, key: T -> nat): (r: seq<T>)
    ensures |r| == |s|
    ensures multiset(r) == multiset(s)
    ensures SortedBy(r, key)
  {
    if |s| == 0 then []
    else
      assert s == s[..|s| - 1] + [s[|s| - 1]];
      var sorted := SortByKey(s[..|s| - 1], key);
      InsertByKeySorted(sorted, s[|s| - 1], key);
      InsertByKey(sorted, s[|s| - 1], key)
  }

  /** Sorting a sequence that is already in key order leaves it as it is. */
  lemma {:induction false} SortByKeyOfSorted<T>(s: seq<T>, key: T -> nat)
    requires SortedBy(s, key)
    ensures SortByKey(s, key) == s
  {
    if |s| > 0 {
      var init, last := s[..|s| - 1], s[|s| - 1];
      assert SortedBy(init, key);
      SortByKeyOfSorted(init, key);
      assert s == init + [last];
      if |init| > 0 {
        assert key(init[|init| - 1]) <= key(last);
      }
      assert InsertByKey(init, last, key) == init + [last];
    }
  }

  /** `WHERE p ORDER BY key ASC`: the rows satisfying `p`, sorted by `key`. */
  function SortedFilter<T(==)>(xs: seq<T>, p: T -> bool, key: T -> nat): (r: seq<T>)
    ensures forall i :: 0 <= i < |r| ==> p(r[i]) && r[i] in xs
    ensures SortedBy(r, key)
    ensures multiset(r) == multiset(Filter(xs, p))
  {
    var r := SortByKey(Filter(xs, p), key);
    SameMultisetMembers(r, Filter(xs, p));
    r
  }

  /** Sequences with the same multiset have the same members. */
  lemma SameMultisetMembers<T>(a: seq<T>, b: seq<T>)
    requires multiset(a) == multiset(b)
    ensures forall i :: 0 <= i < |a| ==> a[i] in b
  {
    forall i | 0 <= i < |a| ensures a[i] in b {
      assert a[i] in multiset(a);
    }
  }
}
