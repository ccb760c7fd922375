/** `HybridRetriever.search`: the vector hits and the BM25 hits are each
    min-max normalised, merged into one hit per index in a dict that keeps
    insertion order, weighted by `alpha` and `1 - alpha`, stably sorted by
    descending score and cut to `top_k`. The two searches themselves are
    inputs here: `vecHits` is what the vector index returned and `bmHits`
    what BM25 returned, or `[]` when the retriever has no BM25 index. */
module Hybrid {
  import opened Wrappers
  import opened Sorting
  import opened Ranking

  datatype HybridHit = HybridHit(idx: nat, score: real, sources: seq<string>)

  // ---------------------------------------------------------------------
  // Min-max normalisation

  /** The guard `abs(mx - mn) < 1e-9`. */
  const Eps: real := 0.000000001

  function Abs(x: real): real { if x < 0.0 then -x else x }

  function MaxOf(s: seq<real>): (m: real)
    requires s != []
    ensures forall i :: 0 <= i < |s| ==> s[i] <= m
    ensures m in s
  {
    if |s| == 1 then s[0]
    else
      var m := MaxOf(s[..|s| - 1]);
      if s[|s| - 1] > m then s[|s| - 1] else m
  }

  function MinOf(s: seq<real>): (m: real)
    requires s != []
    ensures forall i :: 0 <= i < |s| ==> m <= s[i]
    ensures m in s
  {
    if |s| == 1 then s[0]
    else
      var m := MinOf(s[..|s| - 1]);
      if s[|s| - 1] < m then s[|s| - 1] else m
  }

  /** `(x - mn) / (mx - mn)`, or `1.0` when the spread is below `Eps`. */
  function Scale(x: real, mx: real, mn: real): real {
    if Abs(mx - mn) < Eps then 1.0 else (x - mn) / (mx - mn)
  }

  /** The inner `norm`: each score scaled by the maximum and minimum of
      all of them. */
  function Norm(scores: seq<real>): (r: seq<real>)
    ensures |r| == |scores|
  {
    if scores == [] then [] else NormWith(scores, MaxOf(scores), MinOf(scores))
  }

  function NormWith(scores: seq<real>, mx: real, mn: real): (r: seq<real>)
    ensures |r| == |scores| && forall i :: 0 <= i < |scores| ==> r[i] == Scale(scores[i], mx, mn)
  {
    if scores == [] then [] else [Scale(scores[0], mx, mn)] + NormWith(scores[1..], mx, mn)
  }

  /** The normalised score at `i`. */
  lemma NormAt(scores: seq<real>, i: nat)
    requires i < |scores|
    ensures Norm(scores)[i] == Scale(scores[i], MaxOf(scores), MinOf(scores))
  {
  }

  lemma ScaleUnit(x: real, mx: real, mn: real)
    requires mn <= x <= mx
    ensures 0.0 <= Scale(x, mx, mn) <= 1.0
  {
    if Abs(mx - mn) >= Eps {
      assert 0.0 <= (x - mn) / (mx - mn) <= 1.0 by {
        var a, d := x - mn, mx - mn;
        assert 0.0 <= a <= d && d > 0.0;
        assert a / d <= d / d;
      }
    }
  }

  lemma ScaleMonotone(x: real, y: real, mx: real, mn: real)
    requires x <= y && mn <= mx
    ensures Scale(x, mx, mn) <= Scale(y, mx, mn)
  {
    if Abs(mx - mn) >= Eps {
      var d := mx - mn;
      assert (x - mn) / d <= (y - mn) / d;
    }
  }

  lemma ScaleEnds(x: real, mx: real, mn: real)
    requires mn <= x <= mx
    ensures mx - mn >= Eps && x == mx ==> Scale(x, mx, mn) == 1.0
    ensures mx - mn >= Eps && x == mn ==> Scale(x, mx, mn) == 0.0
    ensures mx - mn < Eps ==> Scale(x, mx, mn) == 1.0
  {
    var d := mx - mn;
    if d >= Eps {
      assert Abs(d) == d;
      assert d / d == 1.0;
      assert 0.0 / d == 0.0;
    }
  }

  /** Every normalised score lies in `[0, 1]`. */
  lemma NormUnit(scores: seq<real>, i: nat)
    requires i < |scores|
    ensures 0.0 <= Norm(scores)[i] <= 1.0
  {
    NormAt(scores, i);
    ScaleUnit(scores[i], MaxOf(scores), MinOf(scores));
  }

  /** Normalising keeps the order of the scores. */
  lemma NormMonotone(scores: seq<real>, i: nat, j: nat)
    requires i < |scores| && j < |scores| && scores[i] <= scores[j]
    ensures Norm(scores)[i] <= Norm(scores)[j]
  {
    NormAt(scores, i);
    NormAt(scores, j);
    ScaleMonotone(scores[i], scores[j], MaxOf(scores), MinOf(scores));
  }

  /** When the scores spread by at least `1e-9`, the largest goes to 1 and
      the smallest to 0; otherwise every score goes to 1. */
  lemma NormExtremes(scores: seq<real>, i: nat)
    requires i < |scores|
    ensures MaxOf(scores) - MinOf(scores) >= Eps && scores[i] == MaxOf(scores) ==> Norm(scores)[i] == 1.0
    ensures MaxOf(scores) - MinOf(scores) >= Eps && scores[i] == MinOf(scores) ==> Norm(scores)[i] == 0.0
    ensures MaxOf(scores) - MinOf(scores) < Eps ==> Norm(scores)[i] == 1.0
  {
    NormAt(scores, i);
    ScaleEnds(scores[i], MaxOf(scores), MinOf(scores));
  }

  // ---------------------------------------------------------------------
  // Merging

  function HybridScore(): HybridHit -> real { (h: HybridHit) => h.score }

  /** Where the dict `agg` holds index `x`: the test `h.idx in agg`. */
  function Lookup(agg: seq<HybridHit>, x: nat): (r: Option<nat>)
    ensures r.Some? ==> r.value < |agg| && agg[r.value].idx == x
    ensures r.None? ==> forall p :: 0 <= p < |agg| ==> agg[p].idx != x
  {
    if agg == [] then None
    else if agg[0].idx == x then Some(0)
    else match Lookup(agg[1..], x)
      case None => None
      case Some(p) => Some(p + 1)
  }

  /** `[h.score for h in hits]`. */
  function ScoresOf(hits: seq<Hit>): (s: seq<real>)
    ensures |s| == |hits| && forall i :: 0 <= i < |hits| ==> s[i] == hits[i].score
  {
    seq(|hits|, i requires 0 <= i < |hits| => hits[i].score)
  }

  /** The three source tuples the merge can produce. */
  const VectorOnly: seq<string> := ["vector"]
  const Bm25Only: seq<string> := ["bm25"]
  const Both: seq<string> := ["bm25", "vector"]

  /** `tuple(sorted(set(prev + ("bm25",))))` on sources drawn from
      `"bm25"` and `"vector"`, the only names the merge uses. */
  function WithBm25(prev: seq<string>): seq<string> {
    if "vector" in prev then Both else Bm25Only
  }

  /** `agg[k] = hit`: replaces the entry of the same index where it stands,
      or appends a new one. */
  function Put(agg: seq<HybridHit>, hit: HybridHit): seq<HybridHit> {
    match Lookup(agg, hit.idx)
    case Some(p) => agg[p := hit]
    case None => agg + [hit]
  }

  /** A normalised score `s` weighted by `w`. */
  function Weighted(w: real, s: real): real { w * s }

  /** The entry a vector hit makes: `alpha` times its normalised score. */
  function VecEntry(h: Hit, s: real, alpha: real): HybridHit {
    HybridHit(h.idx, Weighted(alpha, s), VectorOnly)
  }

  /** The entry a BM25 hit makes for an index the vector hits left out. */
  function BmEntry(h: Hit, s: real, alpha: real): HybridHit {
    HybridHit(h.idx, Weighted(1.0 - alpha, s), Bm25Only)
  }

  /** The entry a BM25 hit makes for an index already in the dict as `prev`. */
  function Combined(prev: HybridHit, h: Hit, s: real, alpha: real): HybridHit {
    HybridHit(h.idx, prev.score + Weighted(1.0 - alpha, s), WithBm25(prev.sources))
  }

  /** The dict after the first `k` vector hits. */
  function VecPass(vh: seq<Hit>, vn: seq<real>, alpha: real, k: nat): seq<HybridHit>
    requires k <= |vh| == |vn|
  {
    if k == 0 then []
    else Put(VecPass(vh, vn, alpha, k - 1), VecEntry(vh[k - 1], vn[k - 1], alpha))
  }

  /** One BM25 hit merged into the dict. */
  function BmStep(agg: seq<HybridHit>, h: Hit, s: real, alpha: real): seq<HybridHit> {
    match Lookup(agg, h.idx)
    case Some(p) => agg[p := Combined(agg[p], h, s, alpha)]
    case None => agg + [BmEntry(h, s, alpha)]
  }

  /** The dict after the first `k` BM25 hits. */
  function BmPass(agg: seq<HybridHit>, bh: seq<Hit>, bn: seq<real>, alpha: real, k: nat): seq<HybridHit>
    requires k <= |bh| == |bn|
  {
    if k == 0 then agg
    else BmStep(BmPass(agg, bh, bn, alpha, k - 1), bh[k - 1], bn[k - 1], alpha)
  }

  /** `list(agg.values())` once both lists are merged. */
  function Merged(vh: seq<Hit>, bh: seq<Hit>, alpha: real): seq<HybridHit> {
    var vn, bn := Norm(ScoresOf(vh)), Norm(ScoresOf(bh));
    BmPass(VecPass(vh, vn, alpha, |vh|), bh, bn, alpha, |bh|)
  }

  /** What `search` returns. */
  function Fused(vh: seq<Hit>, bh: seq<Hit>, alpha: real, topK: int): seq<HybridHit> {
    RealDescendingTotal();
    PyTake(SortBy(Merged(vh, bh, alpha), HybridScore(), RealDescending()), topK)
  }

  /** The first loop of the merge: each vector hit enters the dict with
      `alpha` times its normalised score. */
  method MergeVector(vecHits: seq<Hit>, vecNorm: seq<real>, alpha: real) returns (agg: seq<HybridHit>)
    requires |vecHits| == |vecNorm|
    ensures agg == VecPass(vecHits, vecNorm, alpha, |vecHits|)
  {
    agg := [];
    for k := 0 to |vecHits|
      invariant agg == VecPass(vecHits, vecNorm, alpha, k)
    {
      var h, s := vecHits[k], vecNorm[k];
      agg := Put(agg, VecEntry(h, s, alpha));
    }
  }

  /** The second loop: each BM25 hit adds `1 - alpha` times its normalised
      score to the entry of its index, or enters the dict. */
  method MergeBm25(start: seq<HybridHit>, bmHits: seq<Hit>, bmNorm: seq<real>, alpha: real) returns (agg: seq<HybridHit>)
    requires |bmHits| == |bmNorm|
    ensures agg == BmPass(start, bmHits, bmNorm, alpha, |bmHits|)
  {
    agg := start;
    for k := 0 to |bmHits|
      invariant agg == BmPass(start, bmHits, bmNorm, alpha, k)
    {
      var h, s := bmHits[k], bmNorm[k];
      match Lookup(agg, h.idx)
      case Some(p) =>
        agg := agg[p := Combined(agg[p], h, s, alpha)];
      case None =>
        agg := agg + [BmEntry(h, s, alpha)];
    }
  }

  /** The merge and sort of `HybridRetriever.search`. */
  method Search(vecHits: seq<Hit>, bmHits: seq<Hit>, alpha: real, topK: int) returns (hits: seq<HybridHit>)
    ensures hits == Fused(vecHits, bmHits, alpha, topK)
  {
    var vecNorm := Norm(ScoresOf(vecHits));
    var bmNorm := Norm(ScoresOf(bmHits));
    var agg := MergeVector(vecHits, vecNorm, alpha);
    agg := MergeBm25(agg, bmHits, bmNorm, alpha);
    RealDescendingTotal();
    hits := SortBy(agg, HybridScore(), RealDescending());
    hits := PyTake(hits, topK);
  }

  // ---------------------------------------------------------------------
  // What the merge computes

  /** No index appears twice. */
  predicate DistinctIdx(hits: seq<HybridHit>) {
    forall a, b :: 0 <= a < b < |hits| ==> hits[a].idx != hits[b].idx
  }

  /** The first of `hs[..k]` with index `x`. */
  function PosIn(hs: seq<Hit>, k: nat, x: nat): (r: Option<nat>)
    requires k <= |hs|
    ensures r.Some? ==> r.value < k && hs[r.value].idx == x
    ensures r.None? ==> forall q :: 0 <= q < k ==> hs[q].idx != x
  {
    if k == 0 then None
    else match PosIn(hs, k - 1, x)
      case Some(q) => Some(q)
      case None => if hs[k - 1].idx == x then Some(k - 1) else None
  }

  lemma PosInAt(hs: seq<Hit>, k: nat, q: nat)
    requires DistinctHits(hs) && q < k <= |hs|
    ensures PosIn(hs, k, hs[q].idx) == Some(q)
  {
  }

  /** The entry the merge makes for index `x` out of all the vector hits
      and the first `k` BM25 hits: `alpha` times the normalised vector
      score plus `1 - alpha` times the normalised BM25 score, with the
      sources it came from; `None` when neither list has `x`. */
  function Expected(vh: seq<Hit>, vn: seq<real>, bh: seq<Hit>, bn: seq<real>, alpha: real, k: nat, x: nat): Option<HybridHit>
    requires |vh| == |vn| && k <= |bh| == |bn|
  {
    var inVec, inBm := PosIn(vh, |vh|, x), PosIn(bh, k, x);
    if inVec.Some? && inBm.Some? then
      Some(HybridHit(x, Weighted(alpha, vn[inVec.value]) + Weighted(1.0 - alpha, bn[inBm.value]), Both))
    else if inVec.Some? then Some(HybridHit(x, Weighted(alpha, vn[inVec.value]), VectorOnly))
    else if inBm.Some? then Some(HybridHit(x, Weighted(1.0 - alpha, bn[inBm.value]), Bm25Only))
    else None
  }

  /** `Expected` over both whole lists, with the scores normalised. */
  function ExpectedHit(vh: seq<Hit>, bh: seq<Hit>, alpha: real, x: nat): Option<HybridHit> {
    Expected(vh, Norm(ScoresOf(vh)), bh, Norm(ScoresOf(bh)), alpha, |bh|, x)
  }

  /** What the dict holds after all the vector hits and `k` BM25 hits. */
  predicate MergeInv(agg: seq<HybridHit>, vh: seq<Hit>, vn: seq<real>, bh: seq<Hit>, bn: seq<real>, alpha: real, k: nat)
    requires |vh| == |vn| && k <= |bh| == |bn|
  {
    |vh| <= |agg| && DistinctIdx(agg)
    && (forall p :: 0 <= p < |vh| ==> agg[p].idx == vh[p].idx)
    && (forall a :: 0 <= a < |agg| ==> Expected(vh, vn, bh, bn, alpha, k, agg[a].idx) == Some(agg[a]))
    && (forall q :: 0 <= q < k ==> HasIdx(agg, bh[q].idx))
    && BmOnlyOrdered(agg, vh, bh, k)
  }

  /** The entries after the vector ones are BM25-only, in BM25 order. */
  predicate BmOnlyOrdered(agg: seq<HybridHit>, vh: seq<Hit>, bh: seq<Hit>, k: nat)
    requires k <= |bh|
  {
    (forall a :: |vh| <= a < |agg| ==> PosIn(vh, |vh|, agg[a].idx).None? && PosIn(bh, k, agg[a].idx).Some?)
    && (forall a, b :: |vh| <= a < b < |agg| && PosIn(bh, k, agg[a].idx).Some? && PosIn(bh, k, agg[b].idx).Some? ==>
         PosIn(bh, k, agg[a].idx).value < PosIn(bh, k, agg[b].idx).value)
  }

  /** With no index twice among the vector hits, the first pass appends
      one entry per hit, in order. */
  lemma {:induction false} VecPassShape(vh: seq<Hit>, vn: seq<real>, alpha: real, k: nat)
    requires k <= |vh| == |vn| && DistinctHits(vh)
    ensures |VecPass(vh, vn, alpha, k)| == k
    ensures forall p :: 0 <= p < k ==> VecPass(vh, vn, alpha, k)[p] == VecEntry(vh[p], vn[p], alpha)
  {
    if k > 0 {
      VecPassShape(vh, vn, alpha, k - 1);
      var prev := VecPass(vh, vn, alpha, k - 1);
      var e := VecEntry(vh[k - 1], vn[k - 1], alpha);
      assert Lookup(prev, e.idx).None? by {
        forall p | 0 <= p < |prev| ensures prev[p].idx != e.idx {
          assert prev[p].idx == vh[p].idx;
        }
      }
      assert VecPass(vh, vn, alpha, k) == prev + [e];
    }
  }

  lemma MergeInvStart(vh: seq<Hit>, vn: seq<real>, bh: seq<Hit>, bn: seq<real>, alpha: real)
    requires |vh| == |vn| && |bh| == |bn| && DistinctHits(vh)
    ensures MergeInv(VecPass(vh, vn, alpha, |vh|), vh, vn, bh, bn, alpha, 0)
  {
    VecPassShape(vh, vn, alpha, |vh|);
    var agg := VecPass(vh, vn, alpha, |vh|);
    forall a | 0 <= a < |agg| ensures Expected(vh, vn, bh, bn, alpha, 0, agg[a].idx) == Some(agg[a]) {
      PosInAt(vh, |vh|, a);
      assert PosIn(bh, 0, agg[a].idx) == None;
      assert agg[a] == VecEntry(vh[a], vn[a], alpha);
    }
  }

  /** Only the entry for `x` changes when the `k`-th BM25 hit, of index
      `x`, is taken in. */
  lemma ExpectedOther(vh: seq<Hit>, vn: seq<real>, bh: seq<Hit>, bn: seq<real>, alpha: real, k: nat, y: nat)
    requires |vh| == |vn| && k < |bh| == |bn| && bh[k].idx != y
    ensures Expected(vh, vn, bh, bn, alpha, k + 1, y) == Expected(vh, vn, bh, bn, alpha, k, y)
  {
    assert PosIn(bh, k + 1, y) == PosIn(bh, k, y);
  }

  /** The entries for the indices of the first `k` BM25 hits stay in the
      dict when it grows or an entry is replaced by one of the same index,
      and the entry `next[e]` adds the index of `bh[k]`. */
  lemma CoverageKept(agg: seq<HybridHit>, next: seq<HybridHit>, bh: seq<Hit>, k: nat, e: nat)
    requires k < |bh| && |agg| <= |next| && forall a :: 0 <= a < |agg| ==> next[a].idx == agg[a].idx
    requires forall q :: 0 <= q < k ==> HasIdx(agg, bh[q].idx)
    requires e < |next| && next[e].idx == bh[k].idx
    ensures forall q :: 0 <= q < k + 1 ==> HasIdx(next, bh[q].idx)
  {
    forall q | 0 <= q < k + 1 ensures HasIdx(next, bh[q].idx) {
      if q < k {
        assert HasIdx(agg, bh[q].idx);
        var b :| 0 <= b < |agg| && agg[b].idx == bh[q].idx;
        assert next[b].idx == bh[q].idx;
      } else {
        assert next[e].idx == bh[q].idx;
      }
    }
  }

  /** The entry for the index of `bh[k]` once it meets the vector entry
      `agg[a]`. */
  lemma ExpectedCombine(agg: seq<HybridHit>, vh: seq<Hit>, vn: seq<real>, bh: seq<Hit>, bn: seq<real>, alpha: real, k: nat, a: nat)
    requires |vh| == |vn| && k < |bh| == |bn| && DistinctHits(bh)
    requires a < |agg| && agg[a].idx == bh[k].idx
    requires Expected(vh, vn, bh, bn, alpha, k, agg[a].idx) == Some(agg[a])
    ensures Expected(vh, vn, bh, bn, alpha, k + 1, bh[k].idx) == Some(Combined(agg[a], bh[k], bn[k], alpha))
  {
    var x := bh[k].idx;
    assert PosIn(bh, k, x).None?;
    assert PosIn(bh, k + 1, x) == Some(k);
  }

  /** The entry for the index of `bh[k]` when the dict does not hold it. */
  lemma ExpectedAppend(agg: seq<HybridHit>, vh: seq<Hit>, vn: seq<real>, bh: seq<Hit>, bn: seq<real>, alpha: real, k: nat)
    requires |vh| == |vn| && k < |bh| == |bn| && DistinctHits(bh)
    requires |vh| <= |agg| && forall p :: 0 <= p < |vh| ==> agg[p].idx == vh[p].idx
    requires forall a :: 0 <= a < |agg| ==> agg[a].idx != bh[k].idx
    ensures Expected(vh, vn, bh, bn, alpha, k + 1, bh[k].idx) == Some(BmEntry(bh[k], bn[k], alpha))
  {
    var x := bh[k].idx;
    assert PosIn(bh, k, x).None?;
    assert PosIn(bh, k + 1, x) == Some(k);
    assert PosIn(vh, |vh|, x).None? by {
      forall p | 0 <= p < |vh| ensures vh[p].idx != x {
        assert agg[p].idx != x;
      }
    }
  }

  lemma SameIndices(agg: seq<HybridHit>, next: seq<HybridHit>, vh: seq<Hit>)
    requires |next| == |agg| && forall b :: 0 <= b < |agg| ==> next[b].idx == agg[b].idx
    requires DistinctIdx(agg) && |vh| <= |agg| && forall p :: 0 <= p < |vh| ==> agg[p].idx == vh[p].idx
    ensures DistinctIdx(next) && forall p :: 0 <= p < |vh| ==> next[p].idx == vh[p].idx
  {
  }

  lemma OrderCombine(agg: seq<HybridHit>, next: seq<HybridHit>, vh: seq<Hit>, bh: seq<Hit>, k: nat, a: nat)
    requires k < |bh| && DistinctHits(bh) && DistinctIdx(agg) && BmOnlyOrdered(agg, vh, bh, k)
    requires a < |agg| && agg[a].idx == bh[k].idx
    requires |next| == |agg| && forall b :: 0 <= b < |agg| ==> next[b].idx == agg[b].idx
    ensures BmOnlyOrdered(next, vh, bh, k + 1)
  {
    var x := bh[k].idx;
    assert PosIn(bh, k, x).None?;
    assert a < |vh|;
    forall b | |vh| <= b < |agg| ensures PosIn(bh, k + 1, next[b].idx) == PosIn(bh, k, agg[b].idx) {
      assert agg[b].idx != x;
    }
  }

  lemma OrderAppend(agg: seq<HybridHit>, vh: seq<Hit>, bh: seq<Hit>, k: nat, e: HybridHit)
    requires k < |bh| && DistinctHits(bh) && BmOnlyOrdered(agg, vh, bh, k) && |vh| <= |agg|
    requires forall a :: 0 <= a < |agg| ==> agg[a].idx != bh[k].idx
    requires e.idx == bh[k].idx && PosIn(vh, |vh|, e.idx).None?
    ensures BmOnlyOrdered(agg + [e], vh, bh, k + 1)
  {
    var next := agg + [e];
    var x := bh[k].idx;
    assert PosIn(bh, k, x).None?;
    assert PosIn(bh, k + 1, x) == Some(k);
    forall b | |vh| <= b < |agg| ensures PosIn(bh, k + 1, next[b].idx) == PosIn(bh, k, agg[b].idx) {
      assert agg[b].idx != x;
    }
  }

  /** The BM25 hit `bh[k]` meets the entry `agg[a]` of its index. */
  lemma BmStepCombine(agg: seq<HybridHit>, vh: seq<Hit>, vn: seq<real>, bh: seq<Hit>, bn: seq<real>, alpha: real, k: nat, a: nat)
    requires |vh| == |vn| && k < |bh| == |bn| && DistinctHits(bh)
    requires MergeInv(agg, vh, vn, bh, bn, alpha, k)
    requires a < |agg| && agg[a].idx == bh[k].idx
    ensures MergeInv(agg[a := Combined(agg[a], bh[k], bn[k], alpha)], vh, vn, bh, bn, alpha, k + 1)
  {
    var next := agg[a := Combined(agg[a], bh[k], bn[k], alpha)];
    ExpectedCombine(agg, vh, vn, bh, bn, alpha, k, a);
    ExpectedUnchanged(agg, vh, vn, bh, bn, alpha, k);
    CoverageKept(agg, next, bh, k, a);
    OrderCombine(agg, next, vh, bh, k, a);
    SameIndices(agg, next, vh);
  }

  /** The BM25 hit `bh[k]` has an index the dict does not hold yet. */
  lemma BmStepAppend(agg: seq<HybridHit>, vh: seq<Hit>, vn: seq<real>, bh: seq<Hit>, bn: seq<real>, alpha: real, k: nat)
    requires |vh| == |vn| && k < |bh| == |bn| && DistinctHits(bh)
    requires MergeInv(agg, vh, vn, bh, bn, alpha, k)
    requires forall a :: 0 <= a < |agg| ==> agg[a].idx != bh[k].idx
    ensures MergeInv(agg + [BmEntry(bh[k], bn[k], alpha)], vh, vn, bh, bn, alpha, k + 1)
  {
    var next := agg + [BmEntry(bh[k], bn[k], alpha)];
    ExpectedAppend(agg, vh, vn, bh, bn, alpha, k);
    ExpectedUnchanged(agg, vh, vn, bh, bn, alpha, k);
    CoverageKept(agg, next, bh, k, |agg|);
    OrderAppend(agg, vh, bh, k, BmEntry(bh[k], bn[k], alpha));
  }

  lemma ExpectedUnchanged(agg: seq<HybridHit>, vh: seq<Hit>, vn: seq<real>, bh: seq<Hit>, bn: seq<real>, alpha: real, k: nat)
    requires |vh| == |vn| && k < |bh| == |bn|
    requires forall a :: 0 <= a < |agg| ==> Expected(vh, vn, bh, bn, alpha, k, agg[a].idx) == Some(agg[a])
    ensures forall a :: 0 <= a < |agg| && agg[a].idx != bh[k].idx ==>
      Expected(vh, vn, bh, bn, alpha, k + 1, agg[a].idx) == Some(agg[a])
  {
    forall a | 0 <= a < |agg| && agg[a].idx != bh[k].idx
      ensures Expected(vh, vn, bh, bn, alpha, k + 1, agg[a].idx) == Some(agg[a])
    {
      ExpectedOther(vh, vn, bh, bn, alpha, k, agg[a].idx);
    }
  }

  lemma BmStepInv(agg: seq<HybridHit>, vh: seq<Hit>, vn: seq<real>, bh: seq<Hit>, bn: seq<real>, alpha: real, k: nat)
    requires |vh| == |vn| && k < |bh| == |bn| && DistinctHits(bh)
    requires MergeInv(agg, vh, vn, bh, bn, alpha, k)
    ensures MergeInv(BmStep(agg, bh[k], bn[k], alpha), vh, vn, bh, bn, alpha, k + 1)
  {
    match Lookup(agg, bh[k].idx)
    case Some(a) =>
      BmStepCombine(agg, vh, vn, bh, bn, alpha, k, a);
    case None =>
      BmStepAppend(agg, vh, vn, bh, bn, alpha, k);
  }

  lemma BmPassInv(vh: seq<Hit>, vn: seq<real>, bh: seq<Hit>, bn: seq<real>, alpha: real)
    requires |vh| == |vn| && |bh| == |bn| && DistinctHits(vh) && DistinctHits(bh)
    ensures MergeInv(BmPass(VecPass(vh, vn, alpha, |vh|), bh, bn, alpha, |bh|), vh, vn, bh, bn, alpha, |bh|)
  {
    var start := VecPass(vh, vn, alpha, |vh|);
    MergeInvStart(vh, vn, bh, bn, alpha);
    var k := 0;
    while k < |bh|
      invariant k <= |bh| && MergeInv(BmPass(start, bh, bn, alpha, k), vh, vn, bh, bn, alpha, k)
    {
      var prev := BmPass(start, bh, bn, alpha, k);
      BmStepInv(prev, vh, vn, bh, bn, alpha, k);
      assert BmPass(start, bh, bn, alpha, k + 1) == BmStep(prev, bh[k], bn[k], alpha);
      k := k + 1;
    }
  }


  /** With no index twice in either list, the merged dict holds each index
      once, every entry is the `Expected` one, every index of either list
      has an entry, and the vector hits come first, in their order. */
  lemma MergedProperties(vh: seq<Hit>, bh: seq<Hit>, alpha: real)
    requires DistinctHits(vh) && DistinctHits(bh)
    ensures DistinctIdx(Merged(vh, bh, alpha))
    ensures forall a :: 0 <= a < |Merged(vh, bh, alpha)| ==>
      ExpectedHit(vh, bh, alpha, Merged(vh, bh, alpha)[a].idx) == Some(Merged(vh, bh, alpha)[a])
    ensures forall x: nat :: ExpectedHit(vh, bh, alpha, x).Some? ==> HasIdx(Merged(vh, bh, alpha), x)
    ensures |vh| <= |Merged(vh, bh, alpha)|
    ensures forall p :: 0 <= p < |vh| ==> Merged(vh, bh, alpha)[p].idx == vh[p].idx
  {
    var vn, bn := Norm(ScoresOf(vh)), Norm(ScoresOf(bh));
    var m := Merged(vh, bh, alpha);
    BmPassInv(vh, vn, bh, bn, alpha);
    assert MergeInv(m, vh, vn, bh, bn, alpha, |bh|);
    forall x: nat | ExpectedHit(vh, bh, alpha, x).Some? ensures HasIdx(m, x) {
      var inVec := PosIn(vh, |vh|, x);
      if inVec.Some? {
        assert m[inVec.value].idx == x;
      } else {
        var q := PosIn(bh, |bh|, x).value;
        assert HasIdx(m, bh[q].idx);
      }
    }
  }

  /** The entries after the vector hits are BM25-only, in the order of
      the BM25 hits. */
  lemma MergedBm25Order(vh: seq<Hit>, bh: seq<Hit>, alpha: real)
    requires DistinctHits(vh) && DistinctHits(bh)
    ensures forall a :: |vh| <= a < |Merged(vh, bh, alpha)| ==> !HitIn(vh, Merged(vh, bh, alpha)[a].idx)
    ensures forall a, b, q, r ::
      (|vh| <= a < b < |Merged(vh, bh, alpha)| && 0 <= q < |bh| && 0 <= r < |bh|
       && bh[q].idx == Merged(vh, bh, alpha)[a].idx && bh[r].idx == Merged(vh, bh, alpha)[b].idx) ==> q < r
  {
    var vn, bn := Norm(ScoresOf(vh)), Norm(ScoresOf(bh));
    var m := Merged(vh, bh, alpha);
    BmPassInv(vh, vn, bh, bn, alpha);
    assert BmOnlyOrdered(m, vh, bh, |bh|);
    forall a | |vh| <= a < |m| ensures !HitIn(vh, m[a].idx) {
      PosInFound(vh, m[a].idx);
    }
    forall a, b, q, r | |vh| <= a < b < |m| && 0 <= q < |bh| && 0 <= r < |bh| && bh[q].idx == m[a].idx && bh[r].idx == m[b].idx
      ensures q < r
    {
      PosInAt(bh, |bh|, q);
      PosInAt(bh, |bh|, r);
    }
  }

  /** Each hit adds at most one entry to the dict. */
  lemma {:induction false} VecPassSize(vh: seq<Hit>, vn: seq<real>, alpha: real, k: nat)
    requires k <= |vh| == |vn|
    ensures |VecPass(vh, vn, alpha, k)| <= k
  {
    if k > 0 {
      VecPassSize(vh, vn, alpha, k - 1);
    }
  }

  lemma {:induction false} BmPassSize(agg: seq<HybridHit>, bh: seq<Hit>, bn: seq<real>, alpha: real, k: nat)
    requires k <= |bh| == |bn|
    ensures |BmPass(agg, bh, bn, alpha, k)| <= |agg| + k
  {
    if k > 0 {
      BmPassSize(agg, bh, bn, alpha, k - 1);
    }
  }

  /** The dict never holds more entries than there are hits. */
  lemma MergedSize(vh: seq<Hit>, bh: seq<Hit>, alpha: real)
    ensures |Merged(vh, bh, alpha)| <= |vh| + |bh|
  {
    var vn, bn := Norm(ScoresOf(vh)), Norm(ScoresOf(bh));
    VecPassSize(vh, vn, alpha, |vh|);
    BmPassSize(VecPass(vh, vn, alpha, |vh|), bh, bn, alpha, |bh|);
  }

  // ---------------------------------------------------------------------
  // The sorted, cut result

  lemma DistinctCount(s: seq<HybridHit>, v: HybridHit)
    requires DistinctIdx(s)
    ensures multiset(s)[v] <= 1
    decreases |s|
  {
    if s != [] {
      var init := s[..|s| - 1];
      assert s == init + [s[|s| - 1]];
      assert DistinctIdx(init);
      DistinctCount(init, v);
      if s[|s| - 1] == v {
        assert v !in init;
      }
    }
  }

  lemma TwiceCount(s: seq<HybridHit>, a: nat, b: nat)
    requires a < b < |s| && s[a] == s[b]
    ensures multiset(s)[s[a]] >= 2
  {
    assert s == s[..b] + [s[b]] + s[b + 1..];
    assert s[a] in s[..b];
  }

  /** A reordering of a dict's values holds no index twice either. */
  lemma PermutationDistinct(r: seq<HybridHit>, s: seq<HybridHit>)
    requires multiset(r) == multiset(s) && DistinctIdx(s)
    ensures DistinctIdx(r)
  {
    forall a, b | 0 <= a < b < |r| ensures r[a].idx != r[b].idx {
      if r[a].idx == r[b].idx {
        assert r[a] in multiset(s) && r[b] in multiset(s);
        var i :| 0 <= i < |s| && s[i] == r[a];
        var j :| 0 <= j < |s| && s[j] == r[b];
        assert i == j;
        TwiceCount(r, a, b);
        DistinctCount(s, r[a]);
      }
    }
  }

  /** The merged hits sorted by descending score. */
  function Ranked(vh: seq<Hit>, bh: seq<Hit>, alpha: real): seq<HybridHit> {
    RealDescendingTotal();
    SortBy(Merged(vh, bh, alpha), HybridScore(), RealDescending())
  }

  lemma RankedDescending(vh: seq<Hit>, bh: seq<Hit>, alpha: real)
    ensures forall a, b :: 0 <= a < b < |Ranked(vh, bh, alpha)| ==>
      Ranked(vh, bh, alpha)[a].score >= Ranked(vh, bh, alpha)[b].score
  {
    RealDescendingTotal();
    var r := Ranked(vh, bh, alpha);
    var key, lt := HybridScore(), RealDescending();
    assert SortedBy(r, key, lt);
    forall a, b | 0 <= a < b < |r| ensures r[a].score >= r[b].score {
      assert !lt(key(r[b]), key(r[a]));
    }
  }

  lemma RankedMembers(vh: seq<Hit>, bh: seq<Hit>, alpha: real)
    requires DistinctHits(vh) && DistinctHits(bh)
    ensures |Ranked(vh, bh, alpha)| == |Merged(vh, bh, alpha)|
    ensures DistinctIdx(Ranked(vh, bh, alpha))
    ensures forall a :: 0 <= a < |Ranked(vh, bh, alpha)| ==>
      ExpectedHit(vh, bh, alpha, Ranked(vh, bh, alpha)[a].idx) == Some(Ranked(vh, bh, alpha)[a])
    ensures forall x: nat :: ExpectedHit(vh, bh, alpha, x).Some? ==> HasIdx(Ranked(vh, bh, alpha), x)
  {
    RealDescendingTotal();
    var m, r := Merged(vh, bh, alpha), Ranked(vh, bh, alpha);
    MergedProperties(vh, bh, alpha);
    PermutationDistinct(r, m);
    PermutationExpected(vh, bh, alpha, r, m);
    PermutationHasIdx(vh, bh, alpha, r, m);
  }

  lemma PermutationExpected(vh: seq<Hit>, bh: seq<Hit>, alpha: real, r: seq<HybridHit>, m: seq<HybridHit>)
    requires multiset(r) == multiset(m)
    requires forall a :: 0 <= a < |m| ==> ExpectedHit(vh, bh, alpha, m[a].idx) == Some(m[a])
    ensures forall a :: 0 <= a < |r| ==> ExpectedHit(vh, bh, alpha, r[a].idx) == Some(r[a])
  {
    forall a | 0 <= a < |r| ensures ExpectedHit(vh, bh, alpha, r[a].idx) == Some(r[a]) {
      assert r[a] in multiset(m);
      var i :| 0 <= i < |m| && m[i] == r[a];
    }
  }

  lemma PermutationHasIdx(vh: seq<Hit>, bh: seq<Hit>, alpha: real, r: seq<HybridHit>, m: seq<HybridHit>)
    requires multiset(r) == multiset(m)
    requires forall x: nat :: ExpectedHit(vh, bh, alpha, x).Some? ==> HasIdx(m, x)
    ensures forall x: nat :: ExpectedHit(vh, bh, alpha, x).Some? ==> HasIdx(r, x)
  {
    forall x: nat | ExpectedHit(vh, bh, alpha, x).Some? ensures HasIdx(r, x) {
      assert HasIdx(m, x);
      var i :| 0 <= i < |m| && m[i].idx == x;
      assert m[i] in multiset(r);
      var a :| 0 <= a < |r| && r[a] == m[i];
    }
  }

  /** Some hit has index `x`. */
  predicate HasIdx(hits: seq<HybridHit>, x: nat) {
    exists a :: 0 <= a < |hits| && hits[a].idx == x
  }

  lemma PrefixMembers(vh: seq<Hit>, bh: seq<Hit>, alpha: real, r: seq<HybridHit>, f: seq<HybridHit>)
    requires |f| <= |r| && f == r[..|f|] && DistinctIdx(r)
    requires forall a :: 0 <= a < |r| ==> ExpectedHit(vh, bh, alpha, r[a].idx) == Some(r[a])
    ensures DistinctIdx(f)
    ensures forall a :: 0 <= a < |f| ==> ExpectedHit(vh, bh, alpha, f[a].idx) == Some(f[a])
  {
    assert forall a :: 0 <= a < |f| ==> f[a] == r[a];
  }

  lemma PrefixDescending(r: seq<HybridHit>, f: seq<HybridHit>)
    requires |f| <= |r| && f == r[..|f|]
    requires forall a, b :: 0 <= a < b < |r| ==> r[a].score >= r[b].score
    ensures forall a, b :: 0 <= a < b < |f| ==> f[a].score >= f[b].score
  {
    assert forall a :: 0 <= a < |f| ==> f[a] == r[a];
  }

  lemma PrefixHasIdx(r: seq<HybridHit>, f: seq<HybridHit>, m: nat)
    requires |f| <= |r| && f == r[..|f|] && m < |r|
    ensures m < |f| ==> HasIdx(f, r[m].idx)
  {
    if m < |f| {
      assert f[m] == r[m];
    }
  }

  lemma PrefixBestHits(vh: seq<Hit>, bh: seq<Hit>, alpha: real, r: seq<HybridHit>, f: seq<HybridHit>)
    requires |f| <= |r| && f == r[..|f|]
    requires forall a, b :: 0 <= a < b < |r| ==> r[a].score >= r[b].score
    requires forall a :: 0 <= a < |r| ==> ExpectedHit(vh, bh, alpha, r[a].idx) == Some(r[a])
    requires forall x: nat :: ExpectedHit(vh, bh, alpha, x).Some? ==> HasIdx(r, x)
    ensures forall a, x: nat :: 0 <= a < |f| && ExpectedHit(vh, bh, alpha, x).Some? && !HasIdx(f, x) ==>
      ExpectedHit(vh, bh, alpha, x).value.score <= f[a].score
  {
    forall a, x: nat | 0 <= a < |f| && ExpectedHit(vh, bh, alpha, x).Some? && !HasIdx(f, x)
      ensures ExpectedHit(vh, bh, alpha, x).value.score <= f[a].score
    {
      assert HasIdx(r, x);
      var m :| 0 <= m < |r| && r[m].idx == x;
      PrefixHasIdx(r, f, m);
      assert f[a] == r[a];
    }
  }

  lemma PrefixAll(vh: seq<Hit>, bh: seq<Hit>, alpha: real, r: seq<HybridHit>, f: seq<HybridHit>)
    requires f == r
    requires forall x: nat :: ExpectedHit(vh, bh, alpha, x).Some? ==> HasIdx(r, x)
    ensures forall x: nat :: ExpectedHit(vh, bh, alpha, x).Some? ==> HasIdx(f, x)
  {
  }

  /** The properties of `search` when neither list holds an index twice
      (as the vector index and BM25 guarantee): `[:top_k]` of the merged
      hits, each index once, each hit the `Expected` merge of its index,
      by descending score, no index left out scoring above a returned one,
      and every index of either list once `top_k` reaches the number of
      merged hits. */
  lemma FusedProperties(vh: seq<Hit>, bh: seq<Hit>, alpha: real, topK: int)
    requires DistinctHits(vh) && DistinctHits(bh)
    ensures |Fused(vh, bh, alpha, topK)| == TakeCount(|Merged(vh, bh, alpha)|, topK)
    ensures DistinctIdx(Fused(vh, bh, alpha, topK))
    ensures forall a :: 0 <= a < |Fused(vh, bh, alpha, topK)| ==>
      ExpectedHit(vh, bh, alpha, Fused(vh, bh, alpha, topK)[a].idx) == Some(Fused(vh, bh, alpha, topK)[a])
    ensures forall a, b :: 0 <= a < b < |Fused(vh, bh, alpha, topK)| ==>
      Fused(vh, bh, alpha, topK)[a].score >= Fused(vh, bh, alpha, topK)[b].score
    ensures forall a, x: nat ::
      0 <= a < |Fused(vh, bh, alpha, topK)| && ExpectedHit(vh, bh, alpha, x).Some? && !HasIdx(Fused(vh, bh, alpha, topK), x) ==>
      ExpectedHit(vh, bh, alpha, x).value.score <= Fused(vh, bh, alpha, topK)[a].score
    ensures topK >= |Merged(vh, bh, alpha)| ==>
      forall x: nat :: ExpectedHit(vh, bh, alpha, x).Some? ==> HasIdx(Fused(vh, bh, alpha, topK), x)
  {
    var r, f := Ranked(vh, bh, alpha), Fused(vh, bh, alpha, topK);
    RankedMembers(vh, bh, alpha);
    RankedDescending(vh, bh, alpha);
    assert f == PyTake(r, topK);
    TakeLength(r, topK);
    PrefixMembers(vh, bh, alpha, r, f);
    PrefixDescending(r, f);
    PrefixBestHits(vh, bh, alpha, r, f);
    if topK >= |Merged(vh, bh, alpha)| {
      PrefixAll(vh, bh, alpha, r, f);
    }
  }

  /** Hits of equal score keep the order they have in the merged dict. */
  lemma FusedTie(vh: seq<Hit>, bh: seq<Hit>, alpha: real, topK: int, a: nat, b: nat) returns (i: nat, j: nat)
    requires a < b < |Fused(vh, bh, alpha, topK)|
    requires Fused(vh, bh, alpha, topK)[a].score == Fused(vh, bh, alpha, topK)[b].score
    ensures i < j < |Merged(vh, bh, alpha)|
    ensures Merged(vh, bh, alpha)[i] == Fused(vh, bh, alpha, topK)[a]
    ensures Merged(vh, bh, alpha)[j] == Fused(vh, bh, alpha, topK)[b]
  {
    RealDescendingTotal();
    var m, r, f := Merged(vh, bh, alpha), Ranked(vh, bh, alpha), Fused(vh, bh, alpha, topK);
    assert f == PyTake(r, topK);
    assert f[a] == r[a] && f[b] == r[b];
    i, j := StableOrder(r, m, HybridScore(), a, b);
  }

  lemma WeightedUnit(w: real, x: real)
    requires 0.0 <= w <= 1.0 && 0.0 <= x <= 1.0
    ensures 0.0 <= Weighted(w, x) <= w
  {
    ProductNonNegative(w, x);
    ProductNonNegative(w, 1.0 - x);
    assert w * (1.0 - x) == w - w * x;
  }

  lemma ProductNonNegative(a: real, b: real)
    requires a >= 0.0 && b >= 0.0
    ensures a * b >= 0.0
  {
  }

  lemma WeightedMonotone(w: real, x: real, y: real)
    requires w >= 0.0 && x <= y
    ensures Weighted(w, x) <= Weighted(w, y)
  {
    ProductNonNegative(w, y - x);
    assert w * (y - x) == w * y - w * x;
  }

  /** Index `x` is among the hits. */
  predicate HitIn(hs: seq<Hit>, x: nat) {
    exists q :: 0 <= q < |hs| && hs[q].idx == x
  }

  lemma PosInFound(hs: seq<Hit>, x: nat)
    ensures PosIn(hs, |hs|, x).Some? <==> HitIn(hs, x)
  {
    if PosIn(hs, |hs|, x).Some? {
      var q := PosIn(hs, |hs|, x).value;
      assert hs[q].idx == x;
    }
  }

  /** The merged entry for `x` exists exactly when `x` is a vector or a
      BM25 hit, and is tagged with the lists it came from. */
  lemma ExpectedSources(vh: seq<Hit>, bh: seq<Hit>, alpha: real, x: nat)
    ensures ExpectedHit(vh, bh, alpha, x).None? <==> !HitIn(vh, x) && !HitIn(bh, x)
    ensures ExpectedHit(vh, bh, alpha, x).Some? ==> ExpectedHit(vh, bh, alpha, x).value.idx == x
    ensures HitIn(vh, x) && HitIn(bh, x) ==> ExpectedHit(vh, bh, alpha, x).value.sources == ["bm25", "vector"]
    ensures HitIn(vh, x) && !HitIn(bh, x) ==> ExpectedHit(vh, bh, alpha, x).value.sources == ["vector"]
    ensures !HitIn(vh, x) && HitIn(bh, x) ==> ExpectedHit(vh, bh, alpha, x).value.sources == ["bm25"]
  {
    PosInFound(vh, x);
    PosInFound(bh, x);
  }

  lemma BothUnit(alpha: real, v: real, b: real)
    requires 0.0 <= alpha <= 1.0 && 0.0 <= v <= 1.0 && 0.0 <= b <= 1.0
    ensures 0.0 <= Weighted(alpha, v) + Weighted(1.0 - alpha, b) <= 1.0
  {
    WeightedUnit(alpha, v);
    WeightedUnit(1.0 - alpha, b);
  }

  /** With `0 <= alpha <= 1`, every merged score lies in `[0, 1]`; a
      vector-only entry scores at most `alpha` and a BM25-only entry at
      most `1 - alpha`. */
  lemma ExpectedUnit(vh: seq<Hit>, bh: seq<Hit>, alpha: real, x: nat)
    requires 0.0 <= alpha <= 1.0 && ExpectedHit(vh, bh, alpha, x).Some?
    ensures 0.0 <= ExpectedHit(vh, bh, alpha, x).value.score <= 1.0
    ensures ExpectedHit(vh, bh, alpha, x).value.sources == ["vector"] ==> ExpectedHit(vh, bh, alpha, x).value.score <= alpha
    ensures ExpectedHit(vh, bh, alpha, x).value.sources == ["bm25"] ==> ExpectedHit(vh, bh, alpha, x).value.score <= 1.0 - alpha
  {
    var vn, bn := Norm(ScoresOf(vh)), Norm(ScoresOf(bh));
    forall i | 0 <= i < |vn| ensures 0.0 <= vn[i] <= 1.0 {
      NormUnit(ScoresOf(vh), i);
    }
    forall i | 0 <= i < |bn| ensures 0.0 <= bn[i] <= 1.0 {
      NormUnit(ScoresOf(bh), i);
    }
    ExpectedUnitWith(vh, vn, bh, bn, alpha, |bh|, x);
  }

  lemma ExpectedUnitWith(vh: seq<Hit>, vn: seq<real>, bh: seq<Hit>, bn: seq<real>, alpha: real, k: nat, x: nat)
    requires |vh| == |vn| && k <= |bh| == |bn| && 0.0 <= alpha <= 1.0
    requires forall i :: 0 <= i < |vn| ==> 0.0 <= vn[i] <= 1.0
    requires forall i :: 0 <= i < |bn| ==> 0.0 <= bn[i] <= 1.0
    requires Expected(vh, vn, bh, bn, alpha, k, x).Some?
    ensures 0.0 <= Expected(vh, vn, bh, bn, alpha, k, x).value.score <= 1.0
    ensures Expected(vh, vn, bh, bn, alpha, k, x).value.sources == ["vector"] ==> Expected(vh, vn, bh, bn, alpha, k, x).value.score <= alpha
    ensures Expected(vh, vn, bh, bn, alpha, k, x).value.sources == ["bm25"] ==> Expected(vh, vn, bh, bn, alpha, k, x).value.score <= 1.0 - alpha
  {
    var inVec, inBm := PosIn(vh, |vh|, x), PosIn(bh, k, x);
    if inVec.Some? && inBm.Some? {
      BothUnit(alpha, vn[inVec.value], bn[inBm.value]);
    } else if inVec.Some? {
      WeightedUnit(alpha, vn[inVec.value]);
    } else {
      WeightedUnit(1.0 - alpha, bn[inBm.value]);
    }
  }

  /** With `0 <= alpha <= 1`, every returned score lies in `[0, 1]`. */
  lemma FusedUnit(vh: seq<Hit>, bh: seq<Hit>, alpha: real, topK: int)
    requires DistinctHits(vh) && DistinctHits(bh) && 0.0 <= alpha <= 1.0
    ensures forall a :: 0 <= a < |Fused(vh, bh, alpha, topK)| ==> 0.0 <= Fused(vh, bh, alpha, topK)[a].score <= 1.0
  {
    var f := Fused(vh, bh, alpha, topK);
    FusedProperties(vh, bh, alpha, topK);
    forall a | 0 <= a < |f| ensures 0.0 <= f[a].score <= 1.0 {
      ExpectedUnit(vh, bh, alpha, f[a].idx);
    }
  }

  /** Ranked vector hits with a non-negative `alpha` leave the first pass
      already sorted by descending score. */
  lemma VecPassSorted(vh: seq<Hit>, alpha: real)
    requires HitsRanked(vh) && DistinctHits(vh) && alpha >= 0.0
    ensures SortedBy(VecPass(vh, Norm(ScoresOf(vh)), alpha, |vh|), HybridScore(), RealDescending())
  {
    var vn := Norm(ScoresOf(vh));
    var m := VecPass(vh, vn, alpha, |vh|);
    VecPassShape(vh, vn, alpha, |vh|);
    var key, lt := HybridScore(), RealDescending();
    forall i, j | 0 <= i < j < |m| ensures !lt(key(m[j]), key(m[i])) {
      NormMonotone(ScoresOf(vh), j, i);
      WeightedMonotone(alpha, vn[j], vn[i]);
    }
  }

  lemma VectorOnlyFused(vh: seq<Hit>, alpha: real, topK: int)
    requires HitsRanked(vh) && DistinctHits(vh) && alpha >= 0.0
    ensures Fused(vh, [], alpha, topK) == PyTake(VecPass(vh, Norm(ScoresOf(vh)), alpha, |vh|), topK)
  {
    RealDescendingTotal();
    var m := VecPass(vh, Norm(ScoresOf(vh)), alpha, |vh|);
    assert Merged(vh, [], alpha) == m;
    VecPassSorted(vh, alpha);
    SortByOfSorted(m, HybridScore(), RealDescending());
  }

  /** Without BM25 hits, ranked vector hits and a non-negative `alpha`
      keep the vector order: the result is the first `top_k` vector hits,
      each with `alpha` times its normalised score. */
  lemma VectorOnlyOrder(vh: seq<Hit>, alpha: real, topK: int)
    requires HitsRanked(vh) && DistinctHits(vh) && alpha >= 0.0
    ensures |Fused(vh, [], alpha, topK)| == TakeCount(|vh|, topK)
    ensures forall a :: 0 <= a < |Fused(vh, [], alpha, topK)| ==>
      Fused(vh, [], alpha, topK)[a] == VecEntry(vh[a], Norm(ScoresOf(vh))[a], alpha)
  {
    var vn := Norm(ScoresOf(vh));
    var m := VecPass(vh, vn, alpha, |vh|);
    VecPassShape(vh, vn, alpha, |vh|);
    VectorOnlyFused(vh, alpha, topK);
    TakeLength(m, topK);
  }
}
