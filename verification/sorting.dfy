/** Python's `sorted(xs, key=...)` and `list.sort(key=...)` (with or without
    `reverse=True`) are stable: elements whose keys compare equal keep their
    original order. This module gives that sort as a stable insertion sort over
    any strict total order on keys, and Python's `xs[:k]` slice. */
module Sorting {

  ghost predicate StrictTotalOrder<K(!new)>(lt: (K, K) -> bool) {
    && (forall a :: !lt(a, a))
    && (forall a, b, c :: lt(a, b) && lt(b, c) ==> lt(a, c))
    && (forall a, b :: a != b ==> lt(a, b) || lt(b, a))
  }

  /** No element is strictly before an element to its left. */
  ghost predicate SortedBy<T, K>(s: seq<T>, key: T -> K, lt: (K, K) -> bool) {
    forall i, j :: 0 <= i < j < |s| ==> !lt(key(s[j]), key(s[i]))
  }

  /** The elements of `s` whose key is `k`, in their order in `s`. */
  function WithKey<T, K(==)>(s: seq<T>, key: T -> K, k: K): (r: seq<T>)
    ensures |r| <= |s|
  {
    if s == [] then []
    else WithKey(s[..|s| - 1], key, k) + (if key(s[|s| - 1]) == k then [s[|s| - 1]] else [])
  }

  lemma {:induction false} WithKeyConcat<T, K>(a: seq<T>, b: seq<T>, key: T -> K, k: K)
    ensures WithKey(a + b, key, k) == WithKey(a, key, k) + WithKey(b, key, k)
    decreases |b|
  {
    if b == [] {
      assert a + b == a;
    } else {
      assert (a + b)[..|a + b| - 1] == a + b[..|b| - 1];
      WithKeyConcat(a, b[..|b| - 1], key, k);
    }
  }

  lemma {:induction false} WithKeyNone<T, K>(s: seq<T>, key: T -> K, k: K)
    requires forall x <- s :: key(x) != k
    ensures WithKey(s, key, k) == []
    decreases |s|
  {
    if s != [] { WithKeyNone(s[..|s| - 1], key, k); }
  }

  /** Puts `x` after every element of `r` that is not strictly after it. */
  function Insert<T, K>(x: T, r: seq<T>, key: T -> K, lt: (K, K) -> bool): (q: seq<T>)
    ensures multiset(q) == multiset(r) + multiset{x}
    ensures |q| == |r| + 1
  {
    if r == [] then [x]
    else if lt(key(x), key(r[0])) then [x] + r
    else
      assert r == [r[0]] + r[1..];
      [r[0]] + Insert(x, r[1..], key, lt)
  }

  lemma {:induction false} InsertSorted<T, K(!new)>(x: T, r: seq<T>, key: T -> K, lt: (K, K) -> bool)
    requires StrictTotalOrder(lt) && SortedBy(r, key, lt)
    ensures SortedBy(Insert(x, r, key, lt), key, lt)
    decreases |r|
  {
    if r != [] && !lt(key(x), key(r[0])) {
      InsertSorted(x, r[1..], key, lt);
      var q := Insert(x, r, key, lt);
      var t := Insert(x, r[1..], key, lt);
      assert q == [r[0]] + t;
      assert multiset(t) == multiset(r[1..]) + multiset{x};
      forall j | 0 < j < |q| ensures !lt(key(q[j]), key(q[0])) {
        assert q[j] in multiset(t);
        if q[j] == x {
        } else {
          assert q[j] in multiset(r[1..]);
          var m :| 0 <= m < |r[1..]| && r[1..][m] == q[j];
          assert r[m + 1] == q[j];
        }
      }
    }
  }

  /** In a sorted sequence whose head comes strictly after `x`, every element does. */
  lemma AllAfter<T, K(!new)>(x: T, r: seq<T>, key: T -> K, lt: (K, K) -> bool)
    requires StrictTotalOrder(lt) && SortedBy(r, key, lt)
    requires r != [] && lt(key(x), key(r[0]))
    ensures forall y <- r :: key(y) != key(x)
  {
    forall y <- r ensures key(y) != key(x) {
      var m :| 0 <= m < |r| && r[m] == y;
      if m > 0 {
        assert !lt(key(r[m]), key(r[0]));
        assert key(r[m]) == key(r[0]) || lt(key(r[0]), key(r[m]));
      }
    }
  }

  lemma InsertWithKeyFront<T, K(!new)>(x: T, r: seq<T>, key: T -> K, lt: (K, K) -> bool, k: K)
    requires StrictTotalOrder(lt) && SortedBy(r, key, lt)
    requires r != [] && lt(key(x), key(r[0]))
    ensures WithKey([x] + r, key, k) == WithKey(r, key, k) + (if key(x) == k then [x] else [])
  {
    WithKeyConcat([x], r, key, k);
    assert WithKey([x], key, k) == WithKey([] + [x], key, k);
    if key(x) == k {
      AllAfter(x, r, key, lt);
      WithKeyNone(r, key, k);
    }
  }

  lemma {:induction false} InsertWithKey<T, K(!new)>(x: T, r: seq<T>, key: T -> K, lt: (K, K) -> bool, k: K)
    requires StrictTotalOrder(lt) && SortedBy(r, key, lt)
    ensures WithKey(Insert(x, r, key, lt), key, k)
         == WithKey(r, key, k) + (if key(x) == k then [x] else [])
    decreases |r|
  {
    if r == [] {
      assert Insert(x, r, key, lt) == [] + [x];
    } else if lt(key(x), key(r[0])) {
      InsertWithKeyFront(x, r, key, lt, k);
    } else {
      InsertWithKey(x, r[1..], key, lt, k);
      InsertWithKeyStep(x, r, key, lt, k);
    }
  }

  lemma InsertWithKeyStep<T, K(!new)>(x: T, r: seq<T>, key: T -> K, lt: (K, K) -> bool, k: K)
    requires r != [] && !lt(key(x), key(r[0]))
    requires WithKey(Insert(x, r[1..], key, lt), key, k)
          == WithKey(r[1..], key, k) + (if key(x) == k then [x] else [])
    ensures WithKey(Insert(x, r, key, lt), key, k)
         == WithKey(r, key, k) + (if key(x) == k then [x] else [])
  {
    var t := Insert(x, r[1..], key, lt);
    var e := if key(x) == k then [x] else [];
    InsertCons(x, r, key, lt);
    ConsWithKey(r[0], t, r, key, k);
    var h := WithKey([r[0]], key, k);
    assert WithKey(Insert(x, r, key, lt), key, k) == h + (WithKey(r[1..], key, k) + e);
    assert h + (WithKey(r[1..], key, k) + e) == (h + WithKey(r[1..], key, k)) + e;
  }

  lemma InsertCons<T, K>(x: T, r: seq<T>, key: T -> K, lt: (K, K) -> bool)
    requires r != [] && !lt(key(x), key(r[0]))
    ensures Insert(x, r, key, lt) == [r[0]] + Insert(x, r[1..], key, lt)
  {
  }

  lemma ConsWithKey<T, K>(a: T, t: seq<T>, r: seq<T>, key: T -> K, k: K)
    requires r != [] && r[0] == a
    ensures WithKey([a] + t, key, k) == WithKey([a], key, k) + WithKey(t, key, k)
    ensures WithKey(r, key, k) == WithKey([a], key, k) + WithKey(r[1..], key, k)
  {
    WithKeyConcat([a], t, key, k);
    assert r == [a] + r[1..];
    WithKeyConcat([a], r[1..], key, k);
  }

  /** The stable sort of `s` by `key` under `lt`. */
  function SortBy<T, K(!new)>(s: seq<T>, key: T -> K, lt: (K, K) -> bool): (r: seq<T>)
    requires StrictTotalOrder(lt)
    ensures multiset(r) == multiset(s) && |r| == |s|
    ensures SortedBy(r, key, lt)
    ensures forall k :: WithKey(r, key, k) == WithKey(s, key, k)
    decreases |s|
  {
    if s == [] then []
    else
      var init := s[..|s| - 1];
      var last := s[|s| - 1];
      var sortedInit := SortBy(init, key, lt);
      assert s == init + [last];
      InsertSorted(last, sortedInit, key, lt);
      forall k ensures WithKey(Insert(last, sortedInit, key, lt), key, k) == WithKey(s, key, k) {
        InsertWithKey(last, sortedInit, key, lt, k);
      }
      Insert(last, sortedInit, key, lt)
  }

  /** Inserting an element no element of `r` is strictly after appends it. */
  lemma {:induction false} InsertAtEnd<T, K>(x: T, r: seq<T>, key: T -> K, lt: (K, K) -> bool)
    requires forall i :: 0 <= i < |r| ==> !lt(key(x), key(r[i]))
    ensures Insert(x, r, key, lt) == r + [x]
    decreases |r|
  {
    if r != [] {
      assert !lt(key(x), key(r[0]));
      InsertAtEnd(x, r[1..], key, lt);
      assert r == [r[0]] + r[1..];
    }
  }

  /** Sorting a sequence that is already sorted leaves it as it is. */
  lemma {:induction false} SortByOfSorted<T, K(!new)>(s: seq<T>, key: T -> K, lt: (K, K) -> bool)
    requires StrictTotalOrder(lt) && SortedBy(s, key, lt)
    ensures SortBy(s, key, lt) == s
    decreases |s|
  {
    if s != [] {
      var init, last := SortedSplit(s, key, lt);
      SortByOfSorted(init, key, lt);
      SortByOfSortedStep(init, last, key, lt);
    }
  }

  /** A sorted sequence is its sorted front and a last element that no
      element of the front follows. */
  lemma SortedSplit<T, K>(s: seq<T>, key: T -> K, lt: (K, K) -> bool) returns (init: seq<T>, last: T)
    requires SortedBy(s, key, lt) && s != []
    ensures init == s[..|s| - 1] && last == s[|s| - 1] && s == init + [last]
    ensures SortedBy(init, key, lt)
    ensures forall i :: 0 <= i < |init| ==> !lt(key(last), key(init[i]))
  {
    init, last := s[..|s| - 1], s[|s| - 1];
    forall i | 0 <= i < |init| ensures !lt(key(last), key(init[i])) {
      assert init[i] == s[i];
    }
  }

  lemma SortByOfSortedStep<T, K(!new)>(init: seq<T>, last: T, key: T -> K, lt: (K, K) -> bool)
    requires StrictTotalOrder(lt)
    requires forall i :: 0 <= i < |init| ==> !lt(key(last), key(init[i]))
    requires SortBy(init, key, lt) == init
    ensures SortBy(init + [last], key, lt) == init + [last]
  {
    InsertAtEnd(last, init, key, lt);
    var s := init + [last];
    assert s[..|s| - 1] == init && s[|s| - 1] == last;
    SortByLast(s, key, lt);
  }

  lemma SortByLast<T, K(!new)>(s: seq<T>, key: T -> K, lt: (K, K) -> bool)
    requires StrictTotalOrder(lt) && s != []
    ensures SortBy(s, key, lt) == Insert(s[|s| - 1], SortBy(s[..|s| - 1], key, lt), key, lt)
  {
  }

  /** Where the elements of `WithKey(s, key, k)` sit in `s`: increasing
      positions, covering every position whose key is `k`. */
  lemma {:induction false} WithKeyPositions<T, K>(s: seq<T>, key: T -> K, k: K) returns (pos: seq<nat>)
    ensures |pos| == |WithKey(s, key, k)|
    ensures forall p :: 0 <= p < |pos| ==> pos[p] < |s| && s[pos[p]] == WithKey(s, key, k)[p]
    ensures forall p, q :: 0 <= p < q < |pos| ==> pos[p] < pos[q]
    ensures forall i :: 0 <= i < |s| && key(s[i]) == k ==> i in pos
    decreases |s|
  {
    if s == [] {
      pos := [];
    } else {
      var init, last := s[..|s| - 1], s[|s| - 1];
      var prev := WithKeyPositions(init, key, k);
      var w, wi := WithKey(s, key, k), WithKey(init, key, k);
      if key(last) == k {
        assert w == wi + [last];
        pos := prev + [|s| - 1];
        forall p | 0 <= p < |pos|
          ensures pos[p] < |s| && s[pos[p]] == w[p]
        {
          if p < |prev| {
            assert pos[p] == prev[p] && w[p] == wi[p] && init[prev[p]] == s[prev[p]];
          }
        }
      } else {
        assert w == wi;
        pos := prev;
        forall p | 0 <= p < |pos|
          ensures pos[p] < |s| && s[pos[p]] == w[p]
        {
          assert init[prev[p]] == s[prev[p]];
        }
      }
      forall i | 0 <= i < |s| && key(s[i]) == k
        ensures i in pos
      {
        if i < |init| {
          assert init[i] == s[i];
          assert i in prev;
        } else {
          assert pos[|pos| - 1] == i;
        }
      }
    }
  }

  /** Two sequences with the same elements per key list elements of equal
      key in the same order: `r[i]` before `r[j]` means `s` has them at
      increasing positions too. */
  lemma StableOrder<T, K>(r: seq<T>, s: seq<T>, key: T -> K, i: nat, j: nat) returns (a: nat, b: nat)
    requires forall k :: WithKey(r, key, k) == WithKey(s, key, k)
    requires i < j < |r| && key(r[i]) == key(r[j])
    ensures a < b < |s| && s[a] == r[i] && s[b] == r[j]
  {
    var k := key(r[i]);
    var posR := WithKeyPositions(r, key, k);
    var posS := WithKeyPositions(s, key, k);
    assert WithKey(r, key, k) == WithKey(s, key, k);
    var p :| 0 <= p < |posR| && posR[p] == i;
    var q :| 0 <= q < |posR| && posR[q] == j;
    assert p < q;
    a, b := posS[p], posS[q];
  }

  /** Python's `s[:k]`: a negative `k` counts from the end. */
  function PyTake<T>(s: seq<T>, k: int): (r: seq<T>)
    ensures k >= 0 ==> |r| == if k < |s| then k else |s|
    ensures |r| <= |s| && r == s[..|r|]
  {
    if k >= 0 then (if k < |s| then s[..k] else s)
    else if |s| + k > 0 then s[..|s| + k] else []
  }

  // The orders the source sorts by.

  function IntAscending(): (int, int) -> bool { (a: int, b: int) => a < b }

  function RealDescending(): (real, real) -> bool { (a: real, b: real) => a > b }

  lemma IntAscendingTotal()
    ensures StrictTotalOrder(IntAscending())
  {
  }

  lemma RealDescendingTotal()
    ensures StrictTotalOrder(RealDescending())
  {
  }

  /** Python's comparison of `str` values: lexicographic by code point. */
  predicate StrLess(a: string, b: string) {
    if a == [] then b != []
    else if b == [] then false
    else if a[0] != b[0] then a[0] < b[0]
    else StrLess(a[1..], b[1..])
  }

  function StrDescending(): (string, string) -> bool { (a: string, b: string) => StrLess(b, a) }

  lemma {:induction false} StrLessIrreflexive(a: string)
    ensures !StrLess(a, a)
  {
    if a != [] { StrLessIrreflexive(a[1..]); }
  }

  lemma {:induction false} StrLessTransitive(a: string, b: string, c: string)
    requires StrLess(a, b) && StrLess(b, c)
    ensures StrLess(a, c)
  {
    if a != [] && b != [] && c != [] && a[0] == b[0] == c[0] {
      StrLessTransitive(a[1..], b[1..], c[1..]);
    }
  }

  lemma {:induction false} StrLessConnex(a: string, b: string)
    requires a != b
    ensures StrLess(a, b) || StrLess(b, a)
  {
    if a != [] && b != [] && a[0] == b[0] {
      assert a == [a[0]] + a[1..] && b == [b[0]] + b[1..];
      StrLessConnex(a[1..], b[1..]);
    }
  }

  lemma StrDescendingTotal()
    ensures StrictTotalOrder(StrDescending())
  {
    var lt := StrDescending();
    forall a ensures !lt(a, a) { StrLessIrreflexive(a); }
    forall a, b, c | lt(a, b) && lt(b, c) ensures lt(a, c) { StrLessTransitive(c, b, a); }
    forall a, b | a != b ensures lt(a, b) || lt(b, a) { StrLessConnex(a, b); }
  }
}
