/** `BruteForceIndex`: `add` keeps a copy of the embedding matrix, and
    `search` scores every row by its dot product with the query and returns
    the best `top_k` rows by descending score. The dot product is a
    parameter; NumPy's `argsort` / `argpartition` are modelled by the
    stable ranking, which is one of the orders they may produce. */
module VectorIndex {
  import opened Wrappers
  import opened Text
  import opened Sorting
  import opened Ranking

  /** `(mat @ q.T).reshape(-1)`: one score per row. */
  function RowScores(mat: seq<seq<real>>, query: seq<real>, dot: (seq<real>, seq<real>) -> real): (s: seq<real>)
    ensures |s| == |mat| && forall i :: 0 <= i < |mat| ==> s[i] == dot(mat[i], query)
  {
    seq(|mat|, i requires 0 <= i < |mat| => dot(mat[i], query))
  }

  /** `[VectorHit(int(i), float(scores[i])) for i in idxs]`. */
  function HitsAt(idxs: seq<nat>, scores: seq<real>): (hits: seq<Hit>)
    requires InRange(idxs, |scores|)
    ensures |hits| == |idxs| && forall k :: 0 <= k < |idxs| ==> hits[k] == Hit(idxs[k], scores[idxs[k]])
  {
    seq(|idxs|, k requires 0 <= k < |idxs| => Hit(idxs[k], scores[idxs[k]]))
  }

  /** NumPy's message for a `kth` outside `0..n-1`. */
  function KthOutOfBounds(kth: int, n: nat): string {
    "kth(=" + (if kth < 0 then "-" + Decimal(-kth) else Decimal(kth)) + ") out of bounds (" + Decimal(n) + ")"
  }

  /** The search over a stored matrix. With `top_k >= n` every row is
      sorted; otherwise `argpartition(-scores, top_k)[:top_k]` keeps the
      best `top_k` rows (for a negative `top_k`, all but the last
      `-top_k`). NumPy adds `n` to a negative `kth` and refuses it when it
      is still negative, unless the matrix has no rows. */
  function TopK(mat: seq<seq<real>>, query: seq<real>, topK: int, dot: (seq<real>, seq<real>) -> real): Result<seq<Hit>> {
    if |mat| > 0 && topK < -|mat| then Err(ValueError(KthOutOfBounds(topK + |mat|, |mat|)))
    else
      var s := RowScores(mat, query, dot);
      RankedProperties(s, topK);
      Ok(HitsAt(RankedIndices(s, topK), s))
  }

  class BruteForceIndex {
    var mat: Option<seq<seq<real>>>

    constructor()
      ensures mat == None
    {
      mat := None;
    }

    /** Stores the matrix, replacing any earlier one. */
    method Add(embeddings: seq<seq<real>>)
      modifies this
      ensures mat == Some(embeddings)
    {
      mat := Some(embeddings);
    }

    /** Nothing before the first `add`; otherwise the search over the
        stored matrix. */
    function Search(query: seq<real>, topK: int, dot: (seq<real>, seq<real>) -> real): (r: Result<seq<Hit>>)
      reads this
      ensures mat == None ==> r == Ok([])
      ensures r.Err? <==> mat.Some? && |mat.value| > 0 && topK < -|mat.value|
    {
      match mat
      case None => Ok([])
      case Some(m) => TopK(m, query, topK, dot)
    }
  }

  lemma HitsAtRanked(idxs: seq<nat>, scores: seq<real>)
    requires RankedOrder(scores, idxs) && Distinct(idxs)
    ensures forall h <- HitsAt(idxs, scores) :: h.idx < |scores| && h.score == scores[h.idx]
    ensures HitsRanked(HitsAt(idxs, scores)) && DistinctHits(HitsAt(idxs, scores))
  {
    var hits := HitsAt(idxs, scores);
    forall h <- hits ensures h.idx < |scores| && h.score == scores[h.idx] {
      var k :| 0 <= k < |hits| && hits[k] == h;
    }
  }

  lemma HitsAtBest(idxs: seq<nat>, scores: seq<real>)
    requires InRange(idxs, |scores|) && BestFirst(scores, idxs)
    ensures forall h <- HitsAt(idxs, scores), i ::
      0 <= i < |scores| && Hit(i, scores[i]) !in HitsAt(idxs, scores) ==> scores[i] <= h.score
  {
    var hits := HitsAt(idxs, scores);
    forall h <- hits, i | 0 <= i < |scores| && Hit(i, scores[i]) !in hits ensures scores[i] <= h.score {
      var k :| 0 <= k < |hits| && hits[k] == h;
    }
  }

  lemma HitsAtComplete(idxs: seq<nat>, scores: seq<real>)
    requires InRange(idxs, |scores|) && forall i :: 0 <= i < |scores| ==> i in idxs
    ensures forall i :: 0 <= i < |scores| ==> Hit(i, scores[i]) in HitsAt(idxs, scores)
  {
    var hits := HitsAt(idxs, scores);
    forall i | 0 <= i < |scores| ensures Hit(i, scores[i]) in hits {
      assert i in idxs;
      var p :| 0 <= p < |idxs| && idxs[p] == i;
      assert hits[p] == Hit(i, scores[i]);
    }
  }

  /** The properties of `search` over a matrix of `n` rows: `TakeCount`
      hits (`top_k` of them when `0 <= top_k <= n`), each a row index with
      its dot product; by descending score, no row twice; no row left out
      scores above a returned one; with `top_k >= n`, every row. */
  lemma TopKProperties(mat: seq<seq<real>>, query: seq<real>, topK: int, dot: (seq<real>, seq<real>) -> real)
    requires |mat| == 0 || topK >= -|mat|
    ensures TopK(mat, query, topK, dot).Ok?
    ensures |TopK(mat, query, topK, dot).value| == TakeCount(|mat|, topK)
    ensures forall h <- TopK(mat, query, topK, dot).value :: h.idx < |mat| && h.score == dot(mat[h.idx], query)
    ensures HitsRanked(TopK(mat, query, topK, dot).value)
    ensures DistinctHits(TopK(mat, query, topK, dot).value)
    ensures forall h <- TopK(mat, query, topK, dot).value, i ::
      0 <= i < |mat| && Hit(i, dot(mat[i], query)) !in TopK(mat, query, topK, dot).value ==> dot(mat[i], query) <= h.score
    ensures topK >= |mat| ==> forall i :: 0 <= i < |mat| ==> Hit(i, dot(mat[i], query)) in TopK(mat, query, topK, dot).value
  {
    var s := RowScores(mat, query, dot);
    RankedProperties(s, topK);
    var idxs := RankedIndices(s, topK);
    assert TopK(mat, query, topK, dot) == Ok(HitsAt(idxs, s));
    HitsAtRanked(idxs, s);
    HitsAtBest(idxs, s);
    if topK >= |mat| {
      HitsAtComplete(idxs, s);
    }
  }

  /** A `top_k` below `-n` is refused with NumPy's message, which names
      `top_k + n` and `n`; a matrix without rows is never refused. */
  lemma TopKRefused(mat: seq<seq<real>>, query: seq<real>, topK: int, dot: (seq<real>, seq<real>) -> real)
    ensures |mat| > 0 && topK < -|mat| ==>
      TopK(mat, query, topK, dot) == Err(ValueError(KthOutOfBounds(topK + |mat|, |mat|)))
    ensures |mat| == 0 ==> TopK(mat, query, topK, dot) == Ok([])
  {
    if |mat| == 0 {
      RankedProperties(RowScores(mat, query, dot), topK);
    }
  }

  /** `top_k = -7` over five rows: `kth(=-2) out of bounds (5)`. */
  lemma KthMessageExample(mat: seq<seq<real>>, query: seq<real>, dot: (seq<real>, seq<real>) -> real)
    requires |mat| == 5
    ensures TopK(mat, query, -7, dot) == Err(ValueError("kth(=-2) out of bounds (5)"))
  {
    assert Decimal(2) == "2" && Decimal(5) == "5";
    assert KthOutOfBounds(-2, 5) == "kth(=" + "-" + "2" + ") out of bounds (" + "5" + ")";
    assert "kth(=" + "-" + "2" + ") out of bounds (" + "5" + ")" == "kth(=-2) out of bounds (5)";
  }
}
