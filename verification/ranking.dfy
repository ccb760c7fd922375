/** The ranking step of the BM25 index,
    `sorted(range(n), key=lambda i: scores[i], reverse=True)[:top_k]`: a
    stable sort of the row indices by descending score followed by a
    Python slice. It is also the model of the brute-force vector index's
    `argsort` / `argpartition` ranking, whose order among equal scores
    NumPy leaves open. */
module Ranking {
  import opened Sorting

  /** A `BM25Hit` or `VectorHit`: a row index and its score. */
  datatype Hit = Hit(idx: nat, score: real)

  /** Scores never increase along `hits`, and hits of equal score are in
      increasing index order. */
  predicate HitsRanked(hits: seq<Hit>) {
    forall a, b :: 0 <= a < b < |hits| ==>
      hits[a].score >= hits[b].score && (hits[a].score == hits[b].score ==> hits[a].idx < hits[b].idx)
  }

  /** No index appears twice. */
  predicate DistinctHits(hits: seq<Hit>) {
    forall a, b :: 0 <= a < b < |hits| ==> hits[a].idx != hits[b].idx
  }

  /** `range(n)` as a list. */
  function Range(n: nat): (r: seq<nat>)
    ensures |r| == n && forall i :: 0 <= i < n ==> r[i] == i
  {
    if n == 0 then [] else Range(n - 1) + [n - 1]
  }

  /** `lambda i: scores[i]` on the indices of `scores`. */
  function KeyOf(scores: seq<real>): nat -> real {
    (i: nat) => if i < |scores| then scores[i] else 0.0
  }

  /** The indices of `scores` by descending score, equal scores in index
      order, cut by `[:top_k]`. */
  function RankedIndices(scores: seq<real>, topK: int): seq<nat> {
    RealDescendingTotal();
    PyTake(SortBy(Range(|scores|), KeyOf(scores), RealDescending()), topK)
  }

  predicate InRange(r: seq<nat>, n: nat) {
    forall i :: 0 <= i < |r| ==> r[i] < n
  }

  predicate Distinct(r: seq<nat>) {
    forall i, j :: 0 <= i < j < |r| ==> r[i] != r[j]
  }

  /** Scores never increase along `r`. */
  predicate ScoreDescending(scores: seq<real>, r: seq<nat>)
    requires InRange(r, |scores|)
  {
    forall i, j :: 0 <= i < j < |r| ==> scores[r[i]] >= scores[r[j]]
  }

  /** Indices of equal score appear in increasing order. */
  predicate TiesByIndex(scores: seq<real>, r: seq<nat>)
    requires InRange(r, |scores|)
  {
    forall i, j :: 0 <= i < j < |r| && scores[r[i]] == scores[r[j]] ==> r[i] < r[j]
  }

  /** No index left out of `r` scores above one kept in it. */
  predicate BestFirst(scores: seq<real>, r: seq<nat>)
    requires InRange(r, |scores|)
  {
    forall i, x :: 0 <= i < |r| && 0 <= x < |scores| && x !in r ==> scores[x] <= scores[r[i]]
  }

  /** The number of rows `[:top_k]` keeps out of `n`. */
  function TakeCount(n: nat, topK: int): nat {
    if topK >= 0 then (if topK < n then topK else n)
    else if n + topK > 0 then n + topK else 0
  }

  /** `s[:k]` keeps the first `TakeCount(|s|, k)` elements of `s`. */
  lemma TakeLength<T>(s: seq<T>, k: int)
    ensures |PyTake(s, k)| == TakeCount(|s|, k)
    ensures forall a :: 0 <= a < |PyTake(s, k)| ==> PyTake(s, k)[a] == s[a]
  {
  }

  /** The stable sort of the indices by descending score. */
  function SortedIndices(scores: seq<real>): seq<nat> {
    RealDescendingTotal();
    SortBy(Range(|scores|), KeyOf(scores), RealDescending())
  }

  /** `r` is in range, by descending score, with ties in index order. */
  predicate RankedOrder(scores: seq<real>, r: seq<nat>) {
    InRange(r, |scores|) && ScoreDescending(scores, r) && TiesByIndex(scores, r)
  }

  lemma SortedPermutation(scores: seq<real>)
    ensures multiset(SortedIndices(scores)) == multiset(Range(|scores|))
    ensures InRange(SortedIndices(scores), |scores|)
  {
    RealDescendingTotal();
    var sorted := SortedIndices(scores);
    forall m | 0 <= m < |sorted| ensures sorted[m] < |scores| {
      assert sorted[m] in multiset(Range(|scores|));
    }
  }

  lemma SortedDescending(scores: seq<real>)
    requires InRange(SortedIndices(scores), |scores|)
    ensures ScoreDescending(scores, SortedIndices(scores))
  {
    RealDescendingTotal();
    var key, lt := KeyOf(scores), RealDescending();
    var sorted := SortedIndices(scores);
    assert SortedBy(sorted, key, lt);
    forall i, j | 0 <= i < j < |sorted| ensures scores[sorted[i]] >= scores[sorted[j]] {
      assert !lt(key(sorted[j]), key(sorted[i]));
    }
  }

  lemma SortedTie(scores: seq<real>, i: nat, j: nat)
    requires InRange(SortedIndices(scores), |scores|)
    requires i < j < |SortedIndices(scores)|
    requires scores[SortedIndices(scores)[i]] == scores[SortedIndices(scores)[j]]
    ensures SortedIndices(scores)[i] < SortedIndices(scores)[j]
  {
    RealDescendingTotal();
    var key := KeyOf(scores);
    var sorted := SortedIndices(scores);
    assert forall k :: WithKey(sorted, key, k) == WithKey(Range(|scores|), key, k);
    assert key(sorted[i]) == key(sorted[j]);
    var a, b := StableOrder(sorted, Range(|scores|), key, i, j);
  }

  lemma SortedRanked(scores: seq<real>)
    ensures multiset(SortedIndices(scores)) == multiset(Range(|scores|))
    ensures RankedOrder(scores, SortedIndices(scores))
  {
    SortedPermutation(scores);
    SortedDescending(scores);
    var sorted := SortedIndices(scores);
    forall i, j | 0 <= i < j < |sorted| && scores[sorted[i]] == scores[sorted[j]] ensures sorted[i] < sorted[j] {
      SortedTie(scores, i, j);
    }
  }

  /** A cut of a ranked order is ranked, and holds no index twice. */
  lemma PrefixRanked(scores: seq<real>, sorted: seq<nat>, r: seq<nat>)
    requires RankedOrder(scores, sorted)
    requires |r| <= |sorted| && r == sorted[..|r|]
    ensures RankedOrder(scores, r) && Distinct(r)
  {
    assert forall i :: 0 <= i < |r| ==> r[i] == sorted[i];
    forall i, j | 0 <= i < j < |r| ensures r[i] != r[j] {
      if scores[r[i]] == scores[r[j]] {
        assert r[i] < r[j];
      }
    }
  }

  /** A cut of an order holding every index keeps the best ones. */
  lemma PrefixBest(scores: seq<real>, sorted: seq<nat>, r: seq<nat>)
    requires forall x :: 0 <= x < |scores| ==> x in sorted
    requires InRange(sorted, |scores|) && ScoreDescending(scores, sorted)
    requires |r| <= |sorted| && r == sorted[..|r|]
    ensures InRange(r, |scores|) && BestFirst(scores, r)
  {
    forall i, x | 0 <= i < |r| && 0 <= x < |scores| ensures x !in r ==> scores[x] <= scores[r[i]] {
      assert x in sorted;
      var m :| 0 <= m < |sorted| && sorted[m] == x;
      if m < |r| {
        assert r[m] == x;
      } else {
        assert r[i] == sorted[i];
      }
    }
  }

  /** A cut that keeps as many indices as there are rows keeps them all. */
  lemma PrefixComplete(scores: seq<real>, sorted: seq<nat>, r: seq<nat>)
    requires multiset(sorted) == multiset(Range(|scores|))
    requires |r| == |scores| && |r| <= |sorted| && r == sorted[..|r|]
    ensures forall x :: 0 <= x < |scores| ==> x in r
  {
    forall x | 0 <= x < |scores| ensures x in r {
      var m := PositionOf(scores, sorted, x);
      assert r[m] == x;
    }
  }

  lemma AllIndicesIn(scores: seq<real>, sorted: seq<nat>)
    requires multiset(sorted) == multiset(Range(|scores|))
    ensures forall x :: 0 <= x < |scores| ==> x in sorted
  {
    forall x | 0 <= x < |scores| ensures x in sorted {
      var m := PositionOf(scores, sorted, x);
    }
  }

  lemma PositionOf(scores: seq<real>, sorted: seq<nat>, x: nat) returns (m: nat)
    requires multiset(sorted) == multiset(Range(|scores|)) && x < |scores|
    ensures m < |sorted| && sorted[m] == x && |sorted| == |scores|
  {
    assert Range(|scores|)[x] == x;
    assert x in multiset(sorted);
    m :| 0 <= m < |sorted| && sorted[m] == x;
    assert |sorted| == |multiset(sorted)| == |Range(|scores|)|;
  }

  /** The ranked indices are valid row indices, each at most once, by
      descending score with ties in index order; `[:top_k]` keeps
      `TakeCount` of them, the best ones, and all of them when `top_k`
      reaches the row count. */
  lemma RankedProperties(scores: seq<real>, topK: int)
    ensures |RankedIndices(scores, topK)| == TakeCount(|scores|, topK)
    ensures RankedOrder(scores, RankedIndices(scores, topK))
    ensures Distinct(RankedIndices(scores, topK))
    ensures BestFirst(scores, RankedIndices(scores, topK))
    ensures topK >= |scores| ==> forall x :: 0 <= x < |scores| ==> x in RankedIndices(scores, topK)
  {
    var sorted := SortedIndices(scores);
    var r := RankedIndices(scores, topK);
    assert r == PyTake(sorted, topK);
    SortedRanked(scores);
    PrefixRanked(scores, sorted, r);
    AllIndicesIn(scores, sorted);
    PrefixBest(scores, sorted, r);
    if |r| == |scores| {
      PrefixComplete(scores, sorted, r);
    }
  }
}
