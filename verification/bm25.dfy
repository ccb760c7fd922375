/** The BM25 keyword index: `_tokenize`, and the `BM25` object whose
    `add_documents` replaces its corpus, document-frequency table and
    average document length, and whose `search` scores every document
    against the query tokens and keeps the best positive ones. Scores are
    exact reals; the natural logarithm of the idf term is a parameter. */
module Bm25 {
  import opened Text
  import opened Sorting
  import opened Ranking

  // ---------------------------------------------------------------------
  // Tokens

  /** The length of the run of `[A-Za-z0-9_]` that starts `s`. */
  function WordEnd(s: string): (e: nat)
    ensures e <= |s| && (e < |s| ==> !IsWordChar(s[e]))
    ensures forall i :: 0 <= i < e ==> IsWordChar(s[i])
  {
    if s == [] || !IsWordChar(s[0]) then 0 else 1 + WordEnd(s[1..])
  }

  /** `_tokenize`: every maximal run of `[A-Za-z0-9_]`, lowercased, in
      text order (`re.finditer` scans left to right and `+` is greedy). */
  function Tokenize(text: string): seq<string>
    decreases |text|
  {
    if text == [] then []
    else if !IsWordChar(text[0]) then Tokenize(text[1..])
    else
      var e := WordEnd(text);
      [Lower(text[..e])] + Tokenize(text[e..])
  }

  /** A token is a non-empty run of lowercase word characters. */
  predicate IsToken(t: string) {
    t != [] && forall i :: 0 <= i < |t| ==> IsWordChar(t[i]) && LowerChar(t[i]) == t[i]
  }

  lemma LowerWord(w: string)
    requires w != [] && forall i :: 0 <= i < |w| ==> IsWordChar(w[i])
    ensures IsToken(Lower(w))
  {
    forall i | 0 <= i < |w| ensures IsWordChar(Lower(w)[i]) && LowerChar(Lower(w)[i]) == Lower(w)[i] {
      LowerWordChar(w[i]);
    }
  }

  /** Lowercasing keeps a word character a word character, and is
      idempotent. */
  lemma LowerWordChar(c: char)
    requires IsWordChar(c)
    ensures IsWordChar(LowerChar(c)) && LowerChar(LowerChar(c)) == LowerChar(c)
  {
  }

  /** Every token is a non-empty lowercase run of word characters. */
  lemma {:induction false} TokensAreTokens(text: string)
    ensures forall t <- Tokenize(text) :: IsToken(t)
    decreases |text|
  {
    if text != [] {
      if !IsWordChar(text[0]) {
        TokensAreTokens(text[1..]);
      } else {
        var e := WordEnd(text);
        LowerWord(text[..e]);
        TokensAreTokens(text[e..]);
      }
    }
  }

  /** A text that is one run of word characters is one token: the run is
      not split. */
  lemma OneWord(w: string)
    requires w != [] && forall i :: 0 <= i < |w| ==> IsWordChar(w[i])
    ensures Tokenize(w) == [Lower(w)]
  {
    WordEndAll(w);
    assert w[..|w|] == w && w[|w|..] == [];
    assert Tokenize(w[|w|..]) == [];
    assert IsWordChar(w[0]);
    assert Tokenize(w) == [Lower(w[..|w|])] + Tokenize(w[|w|..]);
  }

  lemma {:induction false} WordEndAll(w: string)
    requires forall i :: 0 <= i < |w| ==> IsWordChar(w[i])
    ensures WordEnd(w) == |w|
    decreases |w|
  {
    if w != [] { WordEndAll(w[1..]); }
  }

  /** A run of word characters stops at a non-word character. */
  lemma {:induction false} WordEndBefore(a: string, c: char, b: string)
    requires !IsWordChar(c)
    ensures WordEnd(a + [c] + b) == WordEnd(a)
    decreases |a|
  {
    if a == [] {
      assert (a + [c] + b)[0] == c;
    } else if IsWordChar(a[0]) {
      assert (a + [c] + b)[1..] == a[1..] + [c] + b;
      WordEndBefore(a[1..], c, b);
    }
  }

  /** Tokens never cross a non-word character: the tokens of `a`, a
      separator and `b` are those of `a` followed by those of `b`. */
  lemma {:induction false} TokenizeSplit(a: string, c: char, b: string)
    requires !IsWordChar(c)
    ensures Tokenize(a + [c] + b) == Tokenize(a) + Tokenize(b)
    decreases |a|
  {
    var s := a + [c] + b;
    if a == [] {
      assert s[0] == c && s[1..] == b;
    } else if !IsWordChar(a[0]) {
      assert s[1..] == a[1..] + [c] + b;
      TokenizeSplit(a[1..], c, b);
    } else {
      var e := WordEnd(a);
      WordEndBefore(a, c, b);
      assert s[..e] == a[..e];
      assert s[e..] == a[e..] + [c] + b;
      TokenizeSplit(a[e..], c, b);
    }
  }

  // ---------------------------------------------------------------------
  // Corpus statistics

  /** `[_tokenize(t) for t in texts]`. */
  function TokenizeAll(texts: seq<string>): (docs: seq<seq<string>>)
    ensures |docs| == |texts| && forall i :: 0 <= i < |texts| ==> docs[i] == Tokenize(texts[i])
  {
    seq(|texts|, i requires 0 <= i < |texts| => Tokenize(texts[i]))
  }

  /** How often `t` occurs in `doc`. */
  function Count(doc: seq<string>, t: string): nat {
    if doc == [] then 0 else Count(doc[..|doc| - 1], t) + (if doc[|doc| - 1] == t then 1 else 0)
  }

  /** The number of documents that contain `t`. */
  function DocFreq(docs: seq<seq<string>>, t: string): nat {
    if docs == [] then 0 else DocFreq(docs[..|docs| - 1], t) + (if t in docs[|docs| - 1] then 1 else 0)
  }

  /** The total number of tokens. */
  function TotalLength(docs: seq<seq<string>>): nat {
    if docs == [] then 0 else TotalLength(docs[..|docs| - 1]) + |docs[|docs| - 1]|
  }

  /** `total_len / max(1, len(docs))`. */
  function AvgLength(docs: seq<seq<string>>): (r: real)
    ensures r >= 0.0
  {
    TotalLength(docs) as real / (if |docs| < 1 then 1 else |docs|) as real
  }

  /** `d.get(t, 0)`. */
  function Get(d: map<string, nat>, t: string): nat {
    if t in d then d[t] else 0
  }

  /** `df` holds, for every term that occurs, the number of documents that
      contain it, and nothing else. */
  ghost predicate DfTable(df: map<string, nat>, docs: seq<seq<string>>) {
    (forall t :: Get(df, t) == DocFreq(docs, t)) && (forall t :: t in df ==> df[t] >= 1)
  }

  lemma {:induction false} CountPositive(doc: seq<string>, t: string)
    ensures Count(doc, t) > 0 <==> t in doc
    decreases |doc|
  {
    if doc != [] {
      var init := doc[..|doc| - 1];
      CountPositive(init, t);
      assert doc == init + [doc[|doc| - 1]];
    }
  }

  lemma {:induction false} DocFreqBounds(docs: seq<seq<string>>, t: string)
    ensures DocFreq(docs, t) <= |docs|
    ensures DocFreq(docs, t) > 0 <==> exists j :: 0 <= j < |docs| && t in docs[j]
    decreases |docs|
  {
    if docs != [] {
      var init := docs[..|docs| - 1];
      DocFreqBounds(init, t);
      if exists j :: 0 <= j < |docs| && t in docs[j] {
        var j :| 0 <= j < |docs| && t in docs[j];
        if j < |init| {
          assert init[j] == docs[j];
        }
      } else {
        forall j | 0 <= j < |init| ensures t !in init[j] {
          assert init[j] == docs[j];
        }
      }
    }
  }

  /** The keys of a document-frequency table are exactly the terms that
      occur, each counted between 1 and the number of documents. */
  lemma DfTableBounds(df: map<string, nat>, docs: seq<seq<string>>, t: string)
    requires DfTable(df, docs)
    ensures t in df <==> exists j :: 0 <= j < |docs| && t in docs[j]
    ensures t in df ==> 1 <= df[t] <= |docs|
  {
    DocFreqBounds(docs, t);
    assert Get(df, t) == DocFreq(docs, t);
  }

  // ---------------------------------------------------------------------
  // Scores

  /** The `1e-9` guards of the score formula. */
  const Eps: real := 0.000000001

  lemma DenominatorPositive(f: nat, dl: nat, avgdl: real, k1: real, b: real)
    requires f >= 1 && avgdl >= 0.0 && k1 >= 0.0 && 0.0 <= b <= 1.0
    ensures f as real + k1 * (1.0 - b + b * (dl as real / (avgdl + Eps))) + Eps > 0.0
  {
    var x := dl as real / (avgdl + Eps);
    assert x >= 0.0;
    assert b * x >= 0.0;
    var y := 1.0 - b + b * x;
    assert y >= 0.0;
    assert k1 * y >= 0.0;
  }

  /** One query term's share of a document's score: the idf of a term in
      `d` of `n` documents, times the saturated frequency `f` in a document
      of `dl` tokens. */
  function TermWeight(n: nat, d: nat, f: nat, dl: nat, avgdl: real, k1: real, b: real, ln: real -> real): real
    requires f >= 1 && avgdl >= 0.0 && k1 >= 0.0 && 0.0 <= b <= 1.0
  {
    var idf := ln(1.0 + ((n - d) as real + 0.5) / (d as real + 0.5));
    var denom := f as real + k1 * (1.0 - b + b * (dl as real / (avgdl + Eps)));
    DenominatorPositive(f, dl, avgdl, k1, b);
    idf * (f as real * (k1 + 1.0) / (denom + Eps))
  }

  /** What query term `t` adds to document `i`: nothing when the document
      does not contain it. */
  function Contribution(docs: seq<seq<string>>, k1: real, b: real, ln: real -> real, t: string, i: nat): real
    requires i < |docs| && k1 >= 0.0 && 0.0 <= b <= 1.0
  {
    var f := Count(docs[i], t);
    if f == 0 then 0.0
    else TermWeight(|docs|, DocFreq(docs, t), f, |docs[i]|, AvgLength(docs), k1, b, ln)
  }

  /** The score of document `i`: the contributions of the query terms, in
      query order, repeated terms included. */
  function DocScore(docs: seq<seq<string>>, k1: real, b: real, ln: real -> real, terms: seq<string>, i: nat): real
    requires i < |docs| && k1 >= 0.0 && 0.0 <= b <= 1.0
  {
    if terms == [] then 0.0
    else DocScore(docs, k1, b, ln, terms[..|terms| - 1], i) + Contribution(docs, k1, b, ln, terms[|terms| - 1], i)
  }

  function Scores(docs: seq<seq<string>>, k1: real, b: real, ln: real -> real, terms: seq<string>): (s: seq<real>)
    requires k1 >= 0.0 && 0.0 <= b <= 1.0
    ensures |s| == |docs| && forall i :: 0 <= i < |docs| ==> s[i] == DocScore(docs, k1, b, ln, terms, i)
  {
    seq(|docs|, i requires 0 <= i < |docs| => DocScore(docs, k1, b, ln, terms, i))
  }

  /** `[BM25Hit(i, scores[i]) for i in idxs if scores[i] > 0]`. */
  function KeptHits(idxs: seq<nat>, scores: seq<real>): (hits: seq<Hit>)
    requires InRange(idxs, |scores|)
    ensures |hits| <= |idxs|
  {
    if idxs == [] then []
    else
      (if scores[idxs[0]] > 0.0 then [Hit(idxs[0], scores[idxs[0]])] else [])
      + KeptHits(idxs[1..], scores)
  }

  /** What `search` returns on a corpus. */
  function SearchResult(docs: seq<seq<string>>, k1: real, b: real, ln: real -> real, query: string, topK: int): seq<Hit>
    requires k1 >= 0.0 && 0.0 <= b <= 1.0
  {
    var terms := Tokenize(query);
    if terms == [] || docs == [] then []
    else
      var s := Scores(docs, k1, b, ln, terms);
      RankedProperties(s, topK);
      KeptHits(RankedIndices(s, topK), s)
  }

  /** Every kept hit is a listed index with its positive score. */
  lemma {:induction false} KeptFrom(idxs: seq<nat>, scores: seq<real>)
    requires InRange(idxs, |scores|)
    ensures forall h <- KeptHits(idxs, scores) ::
      exists p :: 0 <= p < |idxs| && h == Hit(idxs[p], scores[idxs[p]]) && scores[idxs[p]] > 0.0
    decreases |idxs|
  {
    if idxs != [] {
      KeptFrom(idxs[1..], scores);
      forall h <- KeptHits(idxs[1..], scores)
        ensures exists p :: 0 <= p < |idxs| && h == Hit(idxs[p], scores[idxs[p]]) && scores[idxs[p]] > 0.0
      {
        var p :| 0 <= p < |idxs[1..]| && h == Hit(idxs[1..][p], scores[idxs[1..][p]]) && scores[idxs[1..][p]] > 0.0;
        assert idxs[p + 1] == idxs[1..][p];
      }
    }
  }

  /** Every listed index of positive score is kept. */
  lemma {:induction false} KeptAll(idxs: seq<nat>, scores: seq<real>, p: nat)
    requires InRange(idxs, |scores|) && p < |idxs| && scores[idxs[p]] > 0.0
    ensures Hit(idxs[p], scores[idxs[p]]) in KeptHits(idxs, scores)
    decreases |idxs|
  {
    if p > 0 {
      assert idxs[1..][p - 1] == idxs[p];
      KeptAll(idxs[1..], scores, p - 1);
    }
  }

  /** Keeping the positive hits of a ranked order keeps it ranked. */
  lemma {:induction false} KeptRanked(idxs: seq<nat>, scores: seq<real>)
    requires RankedOrder(scores, idxs)
    ensures HitsRanked(KeptHits(idxs, scores))
    decreases |idxs|
  {
    if idxs != [] {
      var tail := KeptHits(idxs[1..], scores);
      assert RankedOrder(scores, idxs[1..]) by {
        assert forall i :: 0 <= i < |idxs[1..]| ==> idxs[1..][i] == idxs[i + 1];
      }
      KeptRanked(idxs[1..], scores);
      if scores[idxs[0]] > 0.0 {
        KeptFrom(idxs[1..], scores);
        var h0 := Hit(idxs[0], scores[idxs[0]]);
        forall h <- tail ensures h0.score >= h.score && (h0.score == h.score ==> h0.idx < h.idx) {
          var p :| 0 <= p < |idxs[1..]| && h == Hit(idxs[1..][p], scores[idxs[1..][p]]) && scores[idxs[1..][p]] > 0.0;
          assert idxs[1..][p] == idxs[p + 1];
        }
        HitsRankedCons(h0, tail);
      }
    }
  }

  lemma HitsRankedCons(h0: Hit, tail: seq<Hit>)
    requires HitsRanked(tail)
    requires forall h <- tail :: h0.score >= h.score && (h0.score == h.score ==> h0.idx < h.idx)
    ensures HitsRanked([h0] + tail)
  {
    var r := [h0] + tail;
    forall a, b | 0 <= a < b < |r|
      ensures r[a].score >= r[b].score && (r[a].score == r[b].score ==> r[a].idx < r[b].idx)
    {
      assert r[b] == tail[b - 1];
      if a > 0 {
        assert r[a] == tail[a - 1];
      }
    }
  }

  lemma KeptScores(idxs: seq<nat>, scores: seq<real>)
    requires InRange(idxs, |scores|)
    ensures forall h <- KeptHits(idxs, scores) :: h.idx < |scores| && h.score == scores[h.idx] && h.score > 0.0
  {
    KeptFrom(idxs, scores);
  }

  /** An index whose hit is missing scores no more than any kept hit, when
      the listed indices are the best ones. */
  lemma KeptBest(idxs: seq<nat>, scores: seq<real>)
    requires InRange(idxs, |scores|) && BestFirst(scores, idxs)
    ensures forall h <- KeptHits(idxs, scores), i ::
      0 <= i < |scores| && Hit(i, scores[i]) !in KeptHits(idxs, scores) ==> scores[i] <= h.score
  {
    var r := KeptHits(idxs, scores);
    KeptFrom(idxs, scores);
    forall h <- r, i | 0 <= i < |scores| && Hit(i, scores[i]) !in r ensures scores[i] <= h.score {
      var p :| 0 <= p < |idxs| && h == Hit(idxs[p], scores[idxs[p]]) && scores[idxs[p]] > 0.0;
      if scores[i] > 0.0 && i in idxs {
        var q :| 0 <= q < |idxs| && idxs[q] == i;
        KeptAll(idxs, scores, q);
      }
    }
  }

  /** When every index is listed, every positive one is kept. */
  lemma KeptComplete(idxs: seq<nat>, scores: seq<real>)
    requires InRange(idxs, |scores|) && forall i :: 0 <= i < |scores| ==> i in idxs
    ensures forall i :: 0 <= i < |scores| && scores[i] > 0.0 ==> Hit(i, scores[i]) in KeptHits(idxs, scores)
  {
    forall i | 0 <= i < |scores| && scores[i] > 0.0 ensures Hit(i, scores[i]) in KeptHits(idxs, scores) {
      assert i in idxs;
      var q :| 0 <= q < |idxs| && idxs[q] == i;
      KeptAll(idxs, scores, q);
    }
  }

  /** Ranked hits whose score is a function of their index hold no index
      twice. */
  lemma RankedScoredDistinct(hits: seq<Hit>, scores: seq<real>)
    requires HitsRanked(hits)
    requires forall h <- hits :: h.idx < |scores| && h.score == scores[h.idx]
    ensures DistinctHits(hits)
  {
    forall a, b | 0 <= a < b < |hits| ensures hits[a].idx != hits[b].idx {
      assert hits[a] in hits && hits[b] in hits;
    }
  }

  /** The properties of `search`: nothing for a query without tokens or an
      empty corpus; at most `TakeCount` hits, each a document index with its
      score, which is positive; by descending score with ties in document
      order, and no document twice; no document left out scores above a
      returned one, and with `top_k` at least the corpus size every
      document of positive score is returned. */
  lemma SearchProperties(docs: seq<seq<string>>, k1: real, b: real, ln: real -> real, query: string, topK: int)
    requires k1 >= 0.0 && 0.0 <= b <= 1.0
    ensures Tokenize(query) == [] || docs == [] ==> SearchResult(docs, k1, b, ln, query, topK) == []
    ensures |SearchResult(docs, k1, b, ln, query, topK)| <= TakeCount(|docs|, topK)
    ensures forall h <- SearchResult(docs, k1, b, ln, query, topK) ::
      h.idx < |docs| && h.score > 0.0 && h.score == DocScore(docs, k1, b, ln, Tokenize(query), h.idx)
    ensures HitsRanked(SearchResult(docs, k1, b, ln, query, topK))
    ensures DistinctHits(SearchResult(docs, k1, b, ln, query, topK))
    ensures forall h <- SearchResult(docs, k1, b, ln, query, topK), i ::
      0 <= i < |docs| && Hit(i, DocScore(docs, k1, b, ln, Tokenize(query), i)) !in SearchResult(docs, k1, b, ln, query, topK)
      ==> DocScore(docs, k1, b, ln, Tokenize(query), i) <= h.score
    ensures topK >= |docs| ==> forall i :: 0 <= i < |docs| && DocScore(docs, k1, b, ln, Tokenize(query), i) > 0.0 ==>
      Hit(i, DocScore(docs, k1, b, ln, Tokenize(query), i)) in SearchResult(docs, k1, b, ln, query, topK)
  {
    var terms := Tokenize(query);
    if terms != [] && docs != [] {
      var s := Scores(docs, k1, b, ln, terms);
      RankedProperties(s, topK);
      var idxs := RankedIndices(s, topK);
      var r := KeptHits(idxs, s);
      assert r == SearchResult(docs, k1, b, ln, query, topK);
      KeptScores(idxs, s);
      KeptRanked(idxs, s);
      RankedScoredDistinct(r, s);
      KeptBest(idxs, s);
      if topK >= |docs| {
        KeptComplete(idxs, s);
      }
    }
  }

  /** A document that shares no token with the query scores zero and is
      never returned. */
  lemma NoSharedTokenNotReturned(docs: seq<seq<string>>, k1: real, b: real, ln: real -> real, query: string, topK: int, i: nat)
    requires k1 >= 0.0 && 0.0 <= b <= 1.0 && i < |docs|
    requires forall t <- Tokenize(query) :: t !in docs[i]
    ensures DocScore(docs, k1, b, ln, Tokenize(query), i) == 0.0
    ensures forall h <- SearchResult(docs, k1, b, ln, query, topK) :: h.idx != i
  {
    NoSharedTokenZero(docs, k1, b, ln, Tokenize(query), i);
    SearchProperties(docs, k1, b, ln, query, topK);
  }

  lemma {:induction false} NoSharedTokenZero(docs: seq<seq<string>>, k1: real, b: real, ln: real -> real, terms: seq<string>, i: nat)
    requires k1 >= 0.0 && 0.0 <= b <= 1.0 && i < |docs|
    requires forall t <- terms :: t !in docs[i]
    ensures DocScore(docs, k1, b, ln, terms, i) == 0.0
    decreases |terms|
  {
    if terms != [] {
      var last := terms[|terms| - 1];
      CountPositive(docs[i], last);
      NoSharedTokenZero(docs, k1, b, ln, terms[..|terms| - 1], i);
    }
  }

  /** The score is a sum over the query's token list: the scores of two
      token lists add up, so a repeated token counts again. */
  lemma {:induction false} DocScoreConcat(docs: seq<seq<string>>, k1: real, b: real, ln: real -> real, q1: seq<string>, q2: seq<string>, i: nat)
    requires k1 >= 0.0 && 0.0 <= b <= 1.0 && i < |docs|
    ensures DocScore(docs, k1, b, ln, q1 + q2, i) == DocScore(docs, k1, b, ln, q1, i) + DocScore(docs, k1, b, ln, q2, i)
    decreases |q2|
  {
    if q2 == [] {
      assert q1 + q2 == q1;
    } else {
      var init := q2[..|q2| - 1];
      assert (q1 + q2)[..|q1 + q2| - 1] == q1 + init;
      DocScoreConcat(docs, k1, b, ln, q1, init, i);
    }
  }

  /** A token written twice in the query counts twice. */
  lemma RepeatedToken(docs: seq<seq<string>>, k1: real, b: real, ln: real -> real, t: string, i: nat)
    requires k1 >= 0.0 && 0.0 <= b <= 1.0 && i < |docs|
    ensures DocScore(docs, k1, b, ln, [t, t], i) == 2.0 * DocScore(docs, k1, b, ln, [t], i)
  {
    DocScoreConcat(docs, k1, b, ln, [t], [t], i);
    assert [t] + [t] == [t, t];
  }

  /** The table is determined by the corpus alone: `add_documents` does not
      carry counts over from an earlier call. */
  lemma DfTableUnique(df1: map<string, nat>, df2: map<string, nat>, docs: seq<seq<string>>)
    requires DfTable(df1, docs) && DfTable(df2, docs)
    ensures df1 == df2
  {
    forall t ensures (t in df1 <==> t in df2) && (t in df1 ==> df1[t] == df2[t]) {
      assert Get(df1, t) == Get(df2, t);
    }
  }

  lemma DocFreqPrefix(docs: seq<seq<string>>, i: nat)
    requires i < |docs|
    ensures forall t :: DocFreq(docs[..i + 1], t) == DocFreq(docs[..i], t) + (if t in docs[i] then 1 else 0)
    ensures TotalLength(docs[..i + 1]) == TotalLength(docs[..i]) + |docs[i]|
  {
    assert docs[..i + 1][..i] == docs[..i];
  }

  lemma DocScorePrefix(docs: seq<seq<string>>, k1: real, b: real, ln: real -> real, terms: seq<string>, q: nat, i: nat)
    requires k1 >= 0.0 && 0.0 <= b <= 1.0 && i < |docs| && q < |terms|
    ensures DocScore(docs, k1, b, ln, terms[..q + 1], i)
         == DocScore(docs, k1, b, ln, terms[..q], i) + Contribution(docs, k1, b, ln, terms[q], i)
  {
    assert terms[..q + 1][..q] == terms[..q];
  }

  // ---------------------------------------------------------------------
  // The index object

  class BM25 {
    const k1: real
    const b: real
    var docs: seq<seq<string>>
    var df: map<string, nat>
    var avgdl: real

    /** The saturation parameters keep every denominator positive, and the
        table and the average describe the corpus. */
    ghost predicate Valid()
      reads this
    {
      k1 >= 0.0 && 0.0 <= b <= 1.0 && DfTable(df, docs) && avgdl == AvgLength(docs)
    }

    constructor(k1: real, b: real)
      requires k1 >= 0.0 && 0.0 <= b <= 1.0
      ensures Valid() && this.k1 == k1 && this.b == b
      ensures docs == [] && df == map[] && avgdl == 0.0
    {
      this.k1 := k1;
      this.b := b;
      docs := [];
      df := map[];
      avgdl := 0.0;
    }

    /** Replaces the corpus by the tokenized texts and rebuilds the table
        and the average from them alone. */
    method AddDocuments(texts: seq<string>)
      requires Valid()
      modifies this
      ensures Valid() && docs == TokenizeAll(texts)
    {
      docs := TokenizeAll(texts);
      df := map[];
      var totalLen := 0;
      for i := 0 to |docs|
        invariant docs == TokenizeAll(texts)
        invariant forall t :: Get(df, t) == DocFreq(docs[..i], t)
        invariant forall t :: t in df ==> df[t] >= 1
        invariant totalLen == TotalLength(docs[..i])
      {
        var doc := docs[i];
        totalLen := totalLen + |doc|;
        df := CountOnce(df, doc);
        DocFreqPrefix(docs, i);
      }
      assert docs[..|docs|] == docs;
      avgdl := totalLen as real / (if |docs| < 1 then 1 else |docs|) as real;
    }

    /** Scores every document against the query tokens and returns the
        best `top_k` of them that score above zero. */
    method Search(query: string, topK: int, ln: real -> real) returns (hits: seq<Hit>)
      requires Valid()
      ensures hits == SearchResult(docs, k1, b, ln, query, topK)
    {
      var qTerms := Tokenize(query);
      if qTerms == [] || docs == [] {
        return [];
      }
      var n := |docs|;
      var scores := new real[n](_ => 0.0);
      for i := 0 to n
        invariant forall j :: 0 <= j < i ==> scores[j] == DocScore(docs, k1, b, ln, qTerms, j)
      {
        scores[i] := ScoreDocument(docs, df, avgdl, k1, b, ln, qTerms, i);
      }
      var s := scores[..];
      assert s == Scores(docs, k1, b, ln, qTerms);
      RankedProperties(s, topK);
      var idxs := RankedIndices(s, topK);
      hits := KeptHits(idxs, s);
    }
  }

  /** The `for term in set(doc)` pass: one more document for each distinct
      term of `doc`. */
  method CountOnce(df: map<string, nat>, doc: seq<string>) returns (df': map<string, nat>)
    requires forall t :: t in df ==> df[t] >= 1
    ensures forall t :: Get(df', t) == Get(df, t) + (if t in doc then 1 else 0)
    ensures forall t :: t in df' ==> df'[t] >= 1
  {
    df' := df;
    var seen := set t | t in doc;
    var rest := seen;
    while rest != {}
      invariant rest <= seen
      invariant forall t :: Get(df', t) == Get(df, t) + (if t in seen - rest then 1 else 0)
      invariant forall t :: t in df' ==> df'[t] >= 1
      decreases |rest|
    {
      var term :| term in rest;
      df' := df'[term := Get(df', term) + 1];
      rest := rest - {term};
    }
  }

  /** The `tf` table of one document. */
  method TermFrequencies(doc: seq<string>) returns (tf: map<string, nat>)
    ensures forall t :: Get(tf, t) == Count(doc, t)
    ensures forall t :: t in tf ==> tf[t] >= 1
  {
    tf := map[];
    for p := 0 to |doc|
      invariant forall t :: Get(tf, t) == Count(doc[..p], t)
      invariant forall t :: t in tf ==> tf[t] >= 1
    {
      assert doc[..p + 1][..p] == doc[..p];
      tf := tf[doc[p] := Get(tf, doc[p]) + 1];
    }
    assert doc[..|doc|] == doc;
  }

  /** The score of document `i`: one term per query token the document
      contains, summed in query order. */
  method ScoreDocument(docs: seq<seq<string>>, df: map<string, nat>, avgdl: real, k1: real, b: real,
                       ln: real -> real, qTerms: seq<string>, i: nat) returns (score: real)
    requires k1 >= 0.0 && 0.0 <= b <= 1.0 && i < |docs|
    requires DfTable(df, docs) && avgdl == AvgLength(docs)
    ensures score == DocScore(docs, k1, b, ln, qTerms, i)
  {
    var doc := docs[i];
    var dl := |doc|;
    var tf := TermFrequencies(doc);
    score := 0.0;
    for q := 0 to |qTerms|
      invariant score == DocScore(docs, k1, b, ln, qTerms[..q], i)
    {
      var term := qTerms[q];
      DocScorePrefix(docs, k1, b, ln, qTerms, q, i);
      assert Get(tf, term) == Count(doc, term);
      if term !in tf {
        continue;
      }
      var d := Get(df, term);
      assert d == DocFreq(docs, term);
      var f := tf[term];
      score := score + TermWeight(|docs|, d, f, dl, avgdl, k1, b, ln);
    }
    assert qTerms[..|qTerms|] == qTerms;
  }
}
