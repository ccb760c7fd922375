/** `HybridRetriever` of `index/hybrid.py`: holds a vector index, an optional BM25 index and the
    weight `alpha` (0.7 by default), and answers a query by running both
    searches and fusing their hits. The embedding dot product and the
    natural logarithm are parameters. */
module HybridRetrieval {
  import opened Wrappers
  import opened Ranking
  import VectorIndex
  import Bm25
  import Hybrid

  /** The default weight of the vector scores. */
  const DefaultAlpha: real := 0.7

  /** The default number of BM25 hits fetched. */
  const DefaultBm25TopK: int := 20

  class HybridRetriever {
    const vectorIndex: VectorIndex.BruteForceIndex
    const bm25: Option<Bm25.BM25>
    const alpha: real

    constructor(vectorIndex: VectorIndex.BruteForceIndex, bm25: Option<Bm25.BM25>, alpha: real)
      ensures this.vectorIndex == vectorIndex && this.bm25 == bm25 && this.alpha == alpha
    {
      this.vectorIndex := vectorIndex;
      this.bm25 := bm25;
      this.alpha := alpha;
    }

    /** The BM25 index, when there is one, is in a consistent state. */
    ghost predicate Ready()
      reads this, if bm25.Some? then {bm25.value} else {}
    {
      bm25.Some? ==> bm25.value.Valid()
    }

    /** What the BM25 index returns for the query, or nothing without one. */
    function BmHits(queryText: string, bm25TopK: int, ln: real -> real): seq<Hit>
      requires bm25.Some? ==> bm25.value.k1 >= 0.0 && 0.0 <= bm25.value.b <= 1.0
      reads this, if bm25.Some? then {bm25.value} else {}
    {
      match bm25
      case None => []
      case Some(index) => Bm25.SearchResult(index.docs, index.k1, index.b, ln, queryText, bm25TopK)
    }

    /** `search`: a refused vector search is refused as a whole; otherwise
        the vector hits for `top_k` and the BM25 hits for `bm25_top_k` are
        fused and cut to `top_k`. */
    method Search(queryVec: seq<real>, queryText: string, topK: int, bm25TopK: int,
                  dot: (seq<real>, seq<real>) -> real, ln: real -> real) returns (r: Result<seq<Hybrid.HybridHit>>)
      requires Ready()
      ensures vectorIndex.Search(queryVec, topK, dot).Err? ==> r == Err(vectorIndex.Search(queryVec, topK, dot).error)
      ensures vectorIndex.Search(queryVec, topK, dot).Ok? ==>
        r == Ok(Hybrid.Fused(vectorIndex.Search(queryVec, topK, dot).value, BmHits(queryText, bm25TopK, ln), alpha, topK))
    {
      var vec := vectorIndex.Search(queryVec, topK, dot);
      if vec.Err? {
        return Err(vec.error);
      }
      var bmHits: seq<Hit> := [];
      if bm25.Some? {
        bmHits := bm25.value.Search(queryText, bm25TopK, ln);
      }
      var hits := Hybrid.Search(vec.value, bmHits, alpha, topK);
      return Ok(hits);
    }

    /** Whatever the two indexes hold, a successful search returns no
        index twice, by descending score, each hit carrying the entry the
        merge makes for its index, at most `TakeCount` of them; with
        `0 <= alpha <= 1` every score lies in `[0, 1]`. */
    lemma SearchProperties(queryVec: seq<real>, queryText: string, topK: int, bm25TopK: int,
                           dot: (seq<real>, seq<real>) -> real, ln: real -> real)
      requires Ready()
      requires vectorIndex.Search(queryVec, topK, dot).Ok?
      ensures Hybrid.DistinctIdx(Hybrid.Fused(vectorIndex.Search(queryVec, topK, dot).value, BmHits(queryText, bm25TopK, ln), alpha, topK))
      ensures forall a, b :: 0 <= a < b < |Hybrid.Fused(vectorIndex.Search(queryVec, topK, dot).value, BmHits(queryText, bm25TopK, ln), alpha, topK)| ==>
        Hybrid.Fused(vectorIndex.Search(queryVec, topK, dot).value, BmHits(queryText, bm25TopK, ln), alpha, topK)[a].score
        >= Hybrid.Fused(vectorIndex.Search(queryVec, topK, dot).value, BmHits(queryText, bm25TopK, ln), alpha, topK)[b].score
      ensures |Hybrid.Fused(vectorIndex.Search(queryVec, topK, dot).value, BmHits(queryText, bm25TopK, ln), alpha, topK)|
        <= |vectorIndex.Search(queryVec, topK, dot).value| + |BmHits(queryText, bm25TopK, ln)|
      ensures 0.0 <= alpha <= 1.0 ==>
        forall a :: 0 <= a < |Hybrid.Fused(vectorIndex.Search(queryVec, topK, dot).value, BmHits(queryText, bm25TopK, ln), alpha, topK)| ==>
          0.0 <= Hybrid.Fused(vectorIndex.Search(queryVec, topK, dot).value, BmHits(queryText, bm25TopK, ln), alpha, topK)[a].score <= 1.0
    {
      var vh, bh := vectorIndex.Search(queryVec, topK, dot).value, BmHits(queryText, bm25TopK, ln);
      VectorHitsDistinct(queryVec, topK, dot);
      if bm25.Some? {
        var index := bm25.value;
        Bm25.SearchProperties(index.docs, index.k1, index.b, ln, queryText, bm25TopK);
      }
      Hybrid.FusedProperties(vh, bh, alpha, topK);
      Hybrid.MergedSize(vh, bh, alpha);
      if 0.0 <= alpha <= 1.0 {
        Hybrid.FusedUnit(vh, bh, alpha, topK);
      }
    }

    lemma VectorHitsDistinct(queryVec: seq<real>, topK: int, dot: (seq<real>, seq<real>) -> real)
      requires vectorIndex.Search(queryVec, topK, dot).Ok?
      ensures DistinctHits(vectorIndex.Search(queryVec, topK, dot).value)
    {
      if vectorIndex.mat.Some? {
        VectorIndex.TopKProperties(vectorIndex.mat.value, queryVec, topK, dot);
      }
    }
  }
}
