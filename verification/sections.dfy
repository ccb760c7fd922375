/** `processing/sections.py`: sections taken from chapter markers, sections
    grown over the micro-chunks up to topic boundaries, and the assignment of
    each micro-chunk to a section. */
module Sections {
  import opened Wrappers
  import opened Text
  import opened Types

  /** `(start_ms, title)`, as chapter parsing produces them. */
  type Chapter = (int, string)

  const DefaultTargetSectionSec := 7 * 60
  const DefaultMaxSectionSec := 12 * 60

  /*** build_sections_from_chapters ***/

  /** Where the section of chapter `idx` ends: at the next chapter's start,
      or at the end of the video for the last chapter. */
  function ChapterEnd(chapters: seq<Chapter>, idx: nat, videoEndMs: int): int
    requires idx < |chapters|
  {
    if idx + 1 < |chapters| then chapters[idx + 1].0 else videoEndMs
  }

  /** A chapter gives a section only when its span is not empty. */
  predicate ChapterKept(chapters: seq<Chapter>, idx: nat, videoEndMs: int)
    requires idx < |chapters|
  {
    chapters[idx].0 < ChapterEnd(chapters, idx, videoEndMs)
  }

  function ChapterSection(videoId: string, chapters: seq<Chapter>, idx: nat, videoEndMs: int): Section
    requires idx < |chapters|
  {
    Section(videoId, chapters[idx].0, ChapterEnd(chapters, idx, videoEndMs), chapters[idx].1, "")
  }

  /** The sections of the first `n` chapters, in chapter order. */
  function ChapterSections(videoId: string, chapters: seq<Chapter>, videoEndMs: int, n: nat): seq<Section>
    requires n <= |chapters|
  {
    if n == 0 then []
    else
      ChapterSections(videoId, chapters, videoEndMs, n - 1)
        + (if ChapterKept(chapters, n - 1, videoEndMs) then [ChapterSection(videoId, chapters, n - 1, videoEndMs)] else [])
  }

  /** The indices of the chapters among the first `n` that give a section. */
  function KeptIndices(chapters: seq<Chapter>, videoEndMs: int, n: nat): seq<nat>
    requires n <= |chapters|
  {
    if n == 0 then []
    else KeptIndices(chapters, videoEndMs, n - 1) + (if ChapterKept(chapters, n - 1, videoEndMs) then [n - 1] else [])
  }

  method BuildSectionsFromChapters(videoId: string, chapters: seq<Chapter>, videoEndMs: int)
    returns (sections: seq<Section>)
    ensures sections == ChapterSections(videoId, chapters, videoEndMs, |chapters|)
  {
    if chapters == [] {
      return [];
    }
    sections := [];
    for idx := 0 to |chapters|
      invariant sections == ChapterSections(videoId, chapters, videoEndMs, idx)
    {
      var (startMs, title) := chapters[idx];
      var endMs := videoEndMs;
      if idx + 1 < |chapters| {
        endMs := chapters[idx + 1].0;
      }
      if endMs <= startMs {
        continue;
      }
      sections := sections + [Section(videoId, startMs, endMs, title, "")];
    }
  }

  /** The kept indices are increasing, below `n`, of chapters with a
      non-empty span, and every such chapter is among them. */
  lemma {:induction false} KeptIndicesShape(chapters: seq<Chapter>, videoEndMs: int, n: nat)
    requires n <= |chapters|
    ensures forall k :: 0 <= k < |KeptIndices(chapters, videoEndMs, n)| ==>
      KeptIndices(chapters, videoEndMs, n)[k] < n && ChapterKept(chapters, KeptIndices(chapters, videoEndMs, n)[k], videoEndMs)
    ensures forall k1, k2 :: 0 <= k1 < k2 < |KeptIndices(chapters, videoEndMs, n)| ==>
      KeptIndices(chapters, videoEndMs, n)[k1] < KeptIndices(chapters, videoEndMs, n)[k2]
    ensures forall i :: 0 <= i < n && ChapterKept(chapters, i, videoEndMs) ==> i in KeptIndices(chapters, videoEndMs, n)
  {
    if n > 0 {
      KeptIndicesShape(chapters, videoEndMs, n - 1);
    }
  }

  /** Section `k` is the section of the `k`-th kept chapter: the sections
      keep the chapters' order and titles. */
  lemma {:induction false} ChapterSectionsIndexed(videoId: string, chapters: seq<Chapter>, videoEndMs: int, n: nat)
    requires n <= |chapters|
    ensures |ChapterSections(videoId, chapters, videoEndMs, n)| == |KeptIndices(chapters, videoEndMs, n)|
    ensures forall k :: 0 <= k < |KeptIndices(chapters, videoEndMs, n)| ==>
      KeptIndices(chapters, videoEndMs, n)[k] < |chapters|
      && ChapterSections(videoId, chapters, videoEndMs, n)[k]
         == ChapterSection(videoId, chapters, KeptIndices(chapters, videoEndMs, n)[k], videoEndMs)
  {
    if n > 0 {
      ChapterSectionsIndexed(videoId, chapters, videoEndMs, n - 1);
    }
  }

  /** What `build_sections_from_chapters` promises: nothing for no chapters;
      otherwise each section is the kept chapter it comes from, in order,
      with its title, its start, the next chapter's start (or the video end)
      as its end and an empty summary, and its span is not empty. Every
      chapter with a non-empty span gives a section. */
  lemma SectionsFromChaptersProperties(videoId: string, chapters: seq<Chapter>, videoEndMs: int)
    ensures chapters == [] ==> ChapterSections(videoId, chapters, videoEndMs, |chapters|) == []
    ensures |ChapterSections(videoId, chapters, videoEndMs, |chapters|)| <= |chapters|
    ensures forall s <- ChapterSections(videoId, chapters, videoEndMs, |chapters|) ::
      s.startMs < s.endMs && s.videoId == videoId && s.summary == ""
    ensures |ChapterSections(videoId, chapters, videoEndMs, |chapters|)| == |KeptIndices(chapters, videoEndMs, |chapters|)|
    ensures forall k :: 0 <= k < |KeptIndices(chapters, videoEndMs, |chapters|)| ==>
      KeptIndices(chapters, videoEndMs, |chapters|)[k] < |chapters|
      && ChapterSections(videoId, chapters, videoEndMs, |chapters|)[k]
         == ChapterSection(videoId, chapters, KeptIndices(chapters, videoEndMs, |chapters|)[k], videoEndMs)
    ensures forall k1, k2 :: 0 <= k1 < k2 < |KeptIndices(chapters, videoEndMs, |chapters|)| ==>
      KeptIndices(chapters, videoEndMs, |chapters|)[k1] < KeptIndices(chapters, videoEndMs, |chapters|)[k2]
    ensures forall i :: 0 <= i < |chapters| && ChapterKept(chapters, i, videoEndMs) ==>
      ChapterSection(videoId, chapters, i, videoEndMs) in ChapterSections(videoId, chapters, videoEndMs, |chapters|)
  {
    var n := |chapters|;
    var r := ChapterSections(videoId, chapters, videoEndMs, n);
    var ks := KeptIndices(chapters, videoEndMs, n);
    KeptIndicesShape(chapters, videoEndMs, n);
    ChapterSectionsIndexed(videoId, chapters, videoEndMs, n);
    assert |ks| <= n by {
      KeptBound(chapters, videoEndMs, n);
    }
    forall s <- r ensures s.startMs < s.endMs && s.videoId == videoId && s.summary == "" {
      var k :| 0 <= k < |r| && r[k] == s;
      assert ChapterKept(chapters, ks[k], videoEndMs);
    }
    forall i | 0 <= i < n && ChapterKept(chapters, i, videoEndMs)
      ensures ChapterSection(videoId, chapters, i, videoEndMs) in r
    {
      var k :| 0 <= k < |ks| && ks[k] == i;
      assert r[k] == ChapterSection(videoId, chapters, i, videoEndMs);
    }
  }

  lemma {:induction false} KeptBound(chapters: seq<Chapter>, videoEndMs: int, n: nat)
    requires n <= |chapters|
    ensures |KeptIndices(chapters, videoEndMs, n)| <= n
  {
    if n > 0 {
      KeptBound(chapters, videoEndMs, n - 1);
    }
  }

  /** For chapters in non-decreasing start order (as chapter parsing returns
      them), the sections do not overlap: each ends no later than any later
      one starts. */
  lemma ChapterSectionsDisjoint(videoId: string, chapters: seq<Chapter>, videoEndMs: int)
    requires forall i, j :: 0 <= i < j < |chapters| ==> chapters[i].0 <= chapters[j].0
    ensures forall k1, k2 :: 0 <= k1 < k2 < |ChapterSections(videoId, chapters, videoEndMs, |chapters|)| ==>
      ChapterSections(videoId, chapters, videoEndMs, |chapters|)[k1].endMs
        <= ChapterSections(videoId, chapters, videoEndMs, |chapters|)[k2].startMs
  {
    var n := |chapters|;
    var r := ChapterSections(videoId, chapters, videoEndMs, n);
    var ks := KeptIndices(chapters, videoEndMs, n);
    KeptIndicesShape(chapters, videoEndMs, n);
    ChapterSectionsIndexed(videoId, chapters, videoEndMs, n);
    forall k1, k2 | 0 <= k1 < k2 < |r| ensures r[k1].endMs <= r[k2].startMs {
      assert ks[k1] < ks[k2];
      assert r[k1].endMs == chapters[ks[k1] + 1].0;
    }
  }

  /** With strictly increasing starts and the last start before the end of
      the video, every chapter becomes a section. */
  lemma ChapterSectionsAll(videoId: string, chapters: seq<Chapter>, videoEndMs: int)
    requires forall i :: 0 <= i < |chapters| - 1 ==> chapters[i].0 < chapters[i + 1].0
    requires chapters != [] ==> chapters[|chapters| - 1].0 < videoEndMs
    ensures |ChapterSections(videoId, chapters, videoEndMs, |chapters|)| == |chapters|
    ensures forall i :: 0 <= i < |chapters| ==>
      ChapterSections(videoId, chapters, videoEndMs, |chapters|)[i] == ChapterSection(videoId, chapters, i, videoEndMs)
  {
    AllKept(chapters, videoEndMs, |chapters|);
    ChapterSectionsIndexed(videoId, chapters, videoEndMs, |chapters|);
  }

  lemma {:induction false} AllKept(chapters: seq<Chapter>, videoEndMs: int, n: nat)
    requires n <= |chapters|
    requires forall i :: 0 <= i < |chapters| - 1 ==> chapters[i].0 < chapters[i + 1].0
    requires chapters != [] ==> chapters[|chapters| - 1].0 < videoEndMs
    ensures |KeptIndices(chapters, videoEndMs, n)| == n
    ensures forall k :: 0 <= k < n ==> KeptIndices(chapters, videoEndMs, n)[k] == k
  {
    if n > 0 {
      AllKept(chapters, videoEndMs, n - 1);
      assert ChapterKept(chapters, n - 1, videoEndMs);
    }
  }

  /*** auto_chapter_sections: boundaries ***/

  /** The indices `i` in `1..m-1` whose distance to the previous chunk
      reaches the threshold, in increasing order. The distances and the
      percentile threshold are floating point and stay outside the model:
      `spike(i)` stands for `dists[i] >= thresh`. */
  function Spikes(spike: int -> bool, m: nat): seq<int> {
    if m <= 1 then []
    else Spikes(spike, m - 1) + (if spike(m - 1) then [m - 1] else [])
  }

  /** The boundary list before `sorted(set(...))`: 0, the spikes, and the chunk count. */
  function Boundaries(n: nat, spike: int -> bool): seq<int> {
    [0] + Spikes(spike, n) + [n]
  }

  predicate StrictlyIncreasing(s: seq<int>) {
    forall i, j :: 0 <= i < j < |s| ==> s[i] < s[j]
  }

  lemma {:induction false} SpikesShape(spike: int -> bool, m: nat)
    ensures StrictlyIncreasing(Spikes(spike, m))
    ensures forall x <- Spikes(spike, m) :: 1 <= x < m
    ensures forall x :: 1 <= x < m ==> (x in Spikes(spike, m) <==> spike(x))
  {
    if m > 1 {
      SpikesShape(spike, m - 1);
      var p := Spikes(spike, m - 1);
      assert forall i :: 0 <= i < |p| ==> p[i] in p;
    }
  }

  /** For at least one chunk the boundary list is strictly increasing, runs
      from 0 to the chunk count, and holds an inner index exactly when it is
      a spike. */
  lemma BoundariesShape(n: nat, spike: int -> bool)
    requires n >= 1
    ensures StrictlyIncreasing(Boundaries(n, spike))
    ensures Boundaries(n, spike)[0] == 0 && Boundaries(n, spike)[|Boundaries(n, spike)| - 1] == n
    ensures forall x <- Boundaries(n, spike) :: 0 <= x <= n
    ensures forall x :: 0 < x < n ==> (x in Boundaries(n, spike) <==> spike(x))
  {
    SpikesShape(spike, n);
    var sp := Spikes(spike, n);
    var b := Boundaries(n, spike);
    forall i, j | 0 <= i < j < |b| ensures b[i] < b[j] {
      assert 0 < i < |b| - 1 ==> sp[i - 1] in sp;
      assert 0 < j < |b| - 1 ==> sp[j - 1] in sp;
      if 0 < i && j < |b| - 1 {
        assert b[i] == sp[i - 1] && b[j] == sp[j - 1];
      } else if i == 0 && j < |b| - 1 {
        assert b[j] == sp[j - 1];
      } else if 0 < i {
        assert b[i] == sp[i - 1];
      }
    }
    forall x | 0 < x < n ensures x in b <==> spike(x) {
      assert x in b <==> x in sp;
    }
  }

  /** Two strictly increasing lists with the same elements are equal: so
      `sorted(set(b))` is `b` itself for a strictly increasing `b`. */
  lemma {:induction false} SortedSetUnique(a: seq<int>, b: seq<int>)
    requires StrictlyIncreasing(a) && StrictlyIncreasing(b)
    requires forall x :: x in a <==> x in b
    ensures a == b
    decreases |a|
  {
    assert a != [] ==> a[0] in a && a[0] in b;
    assert b != [] ==> b[0] in b && b[0] in a;
    if a != [] && b != [] {
      HeadLeast(a);
      HeadLeast(b);
      assert a[0] == b[0];
      forall x ensures x in a[1..] <==> x in b[1..] {
        if x in a[1..] {
          assert x in b && x != b[0];
        }
        if x in b[1..] {
          assert x in a && x != a[0];
        }
      }
      SortedSetUnique(a[1..], b[1..]);
      assert a == [a[0]] + a[1..] && b == [b[0]] + b[1..];
    }
  }

  /** `sorted(set(boundaries))` for the boundary list the code builds: the
      one strictly increasing list with the same members is that list, so
      re-sorting it changes nothing. */
  lemma SortedSetOfBoundaries(n: nat, spike: int -> bool, sortedSet: seq<int>)
    requires n >= 1
    requires StrictlyIncreasing(sortedSet)
    requires forall x :: x in sortedSet <==> x in Boundaries(n, spike)
    ensures sortedSet == Boundaries(n, spike)
  {
    BoundariesShape(n, spike);
    SortedSetUnique(sortedSet, Boundaries(n, spike));
  }

  /** The head of a strictly increasing list is its least element, and the
      tail holds the rest. */
  lemma HeadLeast(s: seq<int>)
    requires StrictlyIncreasing(s) && s != []
    ensures StrictlyIncreasing(s[1..])
    ensures forall x :: x in s ==> s[0] <= x && (x == s[0] || x in s[1..])
    ensures forall x :: x in s[1..] ==> x in s && s[0] < x
  {
    forall x | x in s ensures s[0] <= x && (x == s[0] || x in s[1..]) {
      var i :| 0 <= i < |s| && s[i] == x;
      if i > 0 {
        assert s[1..][i - 1] == x;
      }
    }
    forall x | x in s[1..] ensures x in s && s[0] < x {
      var i :| 0 <= i < |s[1..]| && s[1..][i] == x;
      assert s[i + 1] == x;
    }
  }

  /*** auto_chapter_sections: growing sections ***/

  /** `end_idx` after the target loop: from `e`, the first index at which the
      chunks since the section start reach `targetMs`, or the chunk count. */
  function TargetEnd(chunks: seq<MicroChunk>, startMs: int, targetMs: int, e: nat): (r: nat)
    requires 1 <= e <= |chunks|
    ensures e <= r <= |chunks|
    decreases |chunks| - e
  {
    if e < |chunks| && chunks[e - 1].endMs - startMs < targetMs then TargetEnd(chunks, startMs, targetMs, e + 1)
    else e
  }

  /** The target end is the first index from `e` at which the section
      reaches `targetMs`: it has reached it there (or the chunks have run
      out), and had not before. */
  lemma {:induction false} TargetEndFirst(chunks: seq<MicroChunk>, startMs: int, targetMs: int, e: nat)
    requires 1 <= e <= |chunks|
    ensures TargetEnd(chunks, startMs, targetMs, e) == |chunks|
         || chunks[TargetEnd(chunks, startMs, targetMs, e) - 1].endMs - startMs >= targetMs
    ensures forall j :: e - 1 <= j < TargetEnd(chunks, startMs, targetMs, e) - 1 ==> chunks[j].endMs - startMs < targetMs
    decreases |chunks| - e
  {
    if e < |chunks| && chunks[e - 1].endMs - startMs < targetMs {
      TargetEndFirst(chunks, startMs, targetMs, e + 1);
    }
  }

  /** The first boundary at or after `e`, looking from position `j` of the list. */
  function Snap(boundaries: seq<int>, j: nat, e: int): (r: Option<int>)
    requires j <= |boundaries|
    ensures r.Some? ==> r.value in boundaries && r.value >= e
    decreases |boundaries| - j
  {
    if j == |boundaries| then None
    else if boundaries[j] >= e then Some(boundaries[j])
    else Snap(boundaries, j + 1, e)
  }

  /** There is no boundary at or after `e` exactly when `Snap` finds none. */
  lemma {:induction false} SnapNone(boundaries: seq<int>, j: nat, e: int)
    requires j <= |boundaries|
    ensures Snap(boundaries, j, e).None? <==> forall i :: j <= i < |boundaries| ==> boundaries[i] < e
    decreases |boundaries| - j
  {
    if j < |boundaries| && boundaries[j] < e {
      SnapNone(boundaries, j + 1, e);
    }
  }

  /** In a strictly increasing list the first boundary at or after `e` is
      the least one. */
  lemma {:induction false} SnapLeast(boundaries: seq<int>, j: nat, e: int)
    requires j <= |boundaries| && StrictlyIncreasing(boundaries)
    requires Snap(boundaries, j, e).Some?
    ensures forall i :: j <= i < |boundaries| && boundaries[i] >= e ==> Snap(boundaries, j, e).value <= boundaries[i]
    decreases |boundaries| - j
  {
    if boundaries[j] < e {
      SnapLeast(boundaries, j + 1, e);
    }
  }

  /** `end_idx` after the max loop: extended one chunk at a time while the
      section is below `maxMs` and `end_idx` is not a boundary. */
  function MaxEnd(chunks: seq<MicroChunk>, boundaries: seq<int>, startMs: int, maxMs: int, e: int): (r: int)
    requires e >= 1
    ensures r >= e
    decreases |chunks| - e
  {
    if e < |chunks| && chunks[e - 1].endMs - startMs < maxMs && e !in boundaries
    then MaxEnd(chunks, boundaries, startMs, maxMs, e + 1)
    else e
  }

  /** The end index of the section that starts at chunk `cur`: the target
      end, snapped forward to the next boundary, extended towards `maxMs`,
      and capped at the chunk count. */
  function SectionEnd(chunks: seq<MicroChunk>, boundaries: seq<int>, targetMs: int, maxMs: int, cur: nat): (r: nat)
    requires cur < |chunks|
    ensures cur < r <= |chunks|
  {
    var startMs := chunks[cur].startMs;
    var e := TargetEnd(chunks, startMs, targetMs, cur + 1);
    var snap := Snap(boundaries, 0, e);
    var snapped := if snap.Some? && snap.value > cur then snap.value else e;
    Min(MaxEnd(chunks, boundaries, startMs, maxMs, snapped), |chunks|)
  }

  /** An end-index function that moves every start forward and stays within `n`. */
  predicate Advances(next: nat -> nat, n: nat) {
    forall c: nat :: c < n ==> c < next(c) <= n
  }

  /** `SectionEnd` as a function of the section start. */
  function SectionEnds(chunks: seq<MicroChunk>, boundaries: seq<int>, targetMs: int, maxMs: int): (next: nat -> nat)
    ensures Advances(next, |chunks|)
    ensures forall c: nat :: c < |chunks| ==> next(c) == SectionEnd(chunks, boundaries, targetMs, maxMs, c)
  {
    (c: nat) => if c < |chunks| then SectionEnd(chunks, boundaries, targetMs, maxMs, c) else |chunks|
  }

  /** The title of the `k`-th section, `f"Section {k}"`. */
  function SectionTitle(k: nat): string {
    SectionPrefix + Decimal(k)
  }

  const SectionPrefix: string := "Section "

  function SectionTitles(): nat -> string {
    (k: nat) => SectionTitle(k)
  }

  /** The sections grown from chunk `cur` on, after `count` earlier ones,
      each ending where `next` says. */
  function GrowSections(
    videoId: string, chunks: seq<MicroChunk>, next: nat -> nat, title: nat -> string, cur: nat, count: nat): seq<Section>
    requires cur <= |chunks| && Advances(next, |chunks|)
    decreases |chunks| - cur
  {
    if cur == |chunks| then []
    else
      [Section(videoId, chunks[cur].startMs, chunks[next(cur) - 1].endMs, title(count + 1), "")]
        + GrowSections(videoId, chunks, next, title, next(cur), count + 1)
  }

  /** The chunk indices at which the sections grown from `cur` start,
      followed by the chunk count. */
  function Cuts(n: nat, next: nat -> nat, cur: nat): seq<nat>
    requires cur <= n && Advances(next, n)
    decreases n - cur
  {
    if cur == n then [cur] else [cur] + Cuts(n, next, next(cur))
  }

  /** What `auto_chapter_sections` returns. */
  function AutoSections(
    videoId: string, chunks: seq<MicroChunk>, embeddingRows: int, spike: int -> bool,
    targetSectionSec: int, maxSectionSec: int): Result<seq<Section>>
  {
    if chunks == [] then Ok([])
    else if |chunks| != embeddingRows then Err(ValueError("chunks and embeddings length mismatch"))
    else
      var next := SectionEnds(chunks, Boundaries(|chunks|, spike), targetSectionSec * 1000, maxSectionSec * 1000);
      Ok(GrowSections(videoId, chunks, next, SectionTitles(), 0, 0))
  }

  method AutoChapterSections(
    videoId: string, chunks: seq<MicroChunk>, embeddingRows: int, spike: int -> bool,
    targetSectionSec: int, maxSectionSec: int)
    returns (r: Result<seq<Section>>)
    ensures r == AutoSections(videoId, chunks, embeddingRows, spike, targetSectionSec, maxSectionSec)
  {
    if chunks == [] {
      return Ok([]);
    }
    if |chunks| != embeddingRows {
      return Err(ValueError("chunks and embeddings length mismatch"));
    }
    var boundaries := [0];
    for i := 1 to |chunks|
      invariant boundaries == [0] + Spikes(spike, i)
    {
      if spike(i) {
        boundaries := boundaries + [i];
      }
    }
    boundaries := boundaries + [|chunks|];
    // `sorted(set(boundaries))` gives the list back unchanged
    // (SortedSetOfBoundaries).
    var sections := GrowSectionsLoop(videoId, chunks, boundaries, targetSectionSec * 1000, maxSectionSec * 1000);
    return Ok(sections);
  }

  /** The sections the outer loop grows from chunk `cur` on, after `count`
      earlier ones: `GrowSections` with `SectionEnd` and `SectionTitle`
      written out. */
  function AutoGrow(
    videoId: string, chunks: seq<MicroChunk>, boundaries: seq<int>, targetMs: int, maxMs: int, cur: nat, count: nat)
    : seq<Section>
    requires cur <= |chunks|
    decreases |chunks| - cur
  {
    if cur == |chunks| then []
    else
      var e := SectionEnd(chunks, boundaries, targetMs, maxMs, cur);
      [Section(videoId, chunks[cur].startMs, chunks[e - 1].endMs, SectionTitle(count + 1), "")]
        + AutoGrow(videoId, chunks, boundaries, targetMs, maxMs, e, count + 1)
  }

  lemma {:induction false} AutoGrowIsGrow(
    videoId: string, chunks: seq<MicroChunk>, boundaries: seq<int>, targetMs: int, maxMs: int, cur: nat, count: nat)
    requires cur <= |chunks|
    ensures AutoGrow(videoId, chunks, boundaries, targetMs, maxMs, cur, count)
         == GrowSections(videoId, chunks, SectionEnds(chunks, boundaries, targetMs, maxMs), SectionTitles(), cur, count)
    decreases |chunks| - cur
  {
    if cur < |chunks| {
      AutoGrowIsGrow(videoId, chunks, boundaries, targetMs, maxMs, SectionEnd(chunks, boundaries, targetMs, maxMs, cur), count + 1);
    }
  }

  /** The outer `while cur_start_idx < len(chunks)` loop. */
  method GrowSectionsLoop(videoId: string, chunks: seq<MicroChunk>, boundaries: seq<int>, targetMs: int, maxMs: int)
    returns (sections: seq<Section>)
    ensures sections == GrowSections(videoId, chunks, SectionEnds(chunks, boundaries, targetMs, maxMs), SectionTitles(), 0, 0)
  {
    sections := [];
    var cur := 0;
    while cur < |chunks|
      invariant cur <= |chunks|
      invariant sections + AutoGrow(videoId, chunks, boundaries, targetMs, maxMs, cur, |sections|)
             == AutoGrow(videoId, chunks, boundaries, targetMs, maxMs, 0, 0)
      decreases |chunks| - cur
    {
      var curStartMs := chunks[cur].startMs;
      var endIdx := NextSectionEnd(chunks, boundaries, targetMs, maxMs, cur);
      var secEndMs := chunks[endIdx - 1].endMs;
      var title := SectionPrefix + Decimal(|sections| + 1);
      var section := Section(videoId, curStartMs, secEndMs, title, "");
      assert AutoGrow(videoId, chunks, boundaries, targetMs, maxMs, cur, |sections|)
          == [section] + AutoGrow(videoId, chunks, boundaries, targetMs, maxMs, endIdx, |sections| + 1);
      sections := sections + [section];
      cur := endIdx;
    }
    AutoGrowIsGrow(videoId, chunks, boundaries, targetMs, maxMs, 0, 0);
  }

  /** One section's end index: the target loop, the snap to a boundary, the
      max loop and the cap at the chunk count. */
  method NextSectionEnd(chunks: seq<MicroChunk>, boundaries: seq<int>, targetMs: int, maxMs: int, cur: nat)
    returns (endIdx: nat)
    requires cur < |chunks|
    ensures endIdx == SectionEnd(chunks, boundaries, targetMs, maxMs, cur)
  {
    var curStartMs := chunks[cur].startMs;
    endIdx := cur + 1;
    while endIdx < |chunks| && chunks[endIdx - 1].endMs - curStartMs < targetMs
      invariant cur + 1 <= endIdx <= |chunks|
      invariant TargetEnd(chunks, curStartMs, targetMs, endIdx) == TargetEnd(chunks, curStartMs, targetMs, cur + 1)
      decreases |chunks| - endIdx
    {
      endIdx := endIdx + 1;
    }
    var snap: Option<int> := None;
    for j := 0 to |boundaries|
      invariant snap.None? && Snap(boundaries, j, endIdx) == Snap(boundaries, 0, endIdx)
    {
      if boundaries[j] >= endIdx {
        snap := Some(boundaries[j]);
        break;
      }
    }
    if snap.Some? && snap.value > cur {
      endIdx := snap.value;
    }
    ghost var snapped := endIdx;
    while endIdx < |chunks| && chunks[endIdx - 1].endMs - curStartMs < maxMs
      invariant cur < snapped <= endIdx
      invariant MaxEnd(chunks, boundaries, curStartMs, maxMs, endIdx) == MaxEnd(chunks, boundaries, curStartMs, maxMs, snapped)
      decreases |chunks| - endIdx
    {
      if endIdx in boundaries {
        break;
      }
      endIdx := endIdx + 1;
    }
    endIdx := Min(endIdx, |chunks|);
  }

  /** Section `s` covers chunks `a` to `b - 1` and has the given title. */
  predicate SectionOver(s: Section, videoId: string, chunks: seq<MicroChunk>, a: nat, b: nat, title: string) {
    a < b <= |chunks|
    && s == Section(videoId, chunks[a].startMs, chunks[b - 1].endMs, title, "")
  }

  /** Section `k` grown from `cur` covers the chunks from cut `k` up to cut
      `k + 1`, which is further on: it starts at the first chunk's start,
      ends at the last chunk's end and is titled `Section <count + k + 1>`.
      The cuts run from `cur` to the chunk count, so the sections partition
      the chunks into contiguous non-empty ranges. */
  lemma {:induction false} GrowPartition(
    videoId: string, chunks: seq<MicroChunk>, next: nat -> nat, title: nat -> string, cur: nat, count: nat)
    requires cur <= |chunks| && Advances(next, |chunks|)
    ensures |Cuts(|chunks|, next, cur)| == |GrowSections(videoId, chunks, next, title, cur, count)| + 1
    ensures Cuts(|chunks|, next, cur)[0] == cur
    ensures Cuts(|chunks|, next, cur)[|GrowSections(videoId, chunks, next, title, cur, count)|] == |chunks|
    ensures forall k :: 0 <= k < |GrowSections(videoId, chunks, next, title, cur, count)| ==>
      SectionOver(GrowSections(videoId, chunks, next, title, cur, count)[k], videoId, chunks,
                  Cuts(|chunks|, next, cur)[k], Cuts(|chunks|, next, cur)[k + 1], title(count + k + 1))
    decreases |chunks| - cur
  {
    if cur < |chunks| {
      var e := next(cur);
      var g := GrowSections(videoId, chunks, next, title, cur, count);
      var g' := GrowSections(videoId, chunks, next, title, e, count + 1);
      var c := Cuts(|chunks|, next, cur);
      var c' := Cuts(|chunks|, next, e);
      GrowPartition(videoId, chunks, next, title, e, count + 1);
      assert g == [g[0]] + g' && c == [cur] + c';
      assert SectionOver(g[0], videoId, chunks, c[0], c[1], title(count + 1));
      forall k | 0 < k < |g| ensures SectionOver(g[k], videoId, chunks, c[k], c[k + 1], title(count + k + 1)) {
        assert g[k] == g'[k - 1] && c[k] == c'[k - 1] && c[k + 1] == c'[k];
      }
    }
  }

  /** End-index functions that agree below `n` grow the same sections. */
  lemma {:induction false} GrowAgree(
    videoId: string, chunks: seq<MicroChunk>, next1: nat -> nat, next2: nat -> nat, title: nat -> string, cur: nat, count: nat)
    requires cur <= |chunks| && Advances(next1, |chunks|) && Advances(next2, |chunks|)
    requires forall c: nat :: c < |chunks| ==> next1(c) == next2(c)
    ensures GrowSections(videoId, chunks, next1, title, cur, count) == GrowSections(videoId, chunks, next2, title, cur, count)
    ensures Cuts(|chunks|, next1, cur) == Cuts(|chunks|, next2, cur)
    decreases |chunks| - cur
  {
    if cur < |chunks| {
      assert next1(cur) == next2(cur);
      GrowAgree(videoId, chunks, next1, next2, title, next1(cur), count + 1);
    }
  }

  /** Every cut after the first is a value of `next`, beyond `cur`. */
  lemma {:induction false} CutsAreEnds(n: nat, next: nat -> nat, cur: nat)
    requires cur <= n && Advances(next, n)
    ensures forall k :: 0 < k < |Cuts(n, next, cur)| ==>
      cur < Cuts(n, next, cur)[k] && exists c: nat :: c < n && Cuts(n, next, cur)[k] == next(c)
    decreases n - cur
  {
    if cur < n {
      var e := next(cur);
      CutsAreEnds(n, next, e);
      var c := Cuts(n, next, cur);
      var c' := Cuts(n, next, e);
      assert c == [cur] + c';
      assert c'[0] == e;
      forall k | 0 < k < |c| ensures cur < c[k] && exists d: nat :: d < n && c[k] == next(d) {
        assert c[k] == c'[k - 1];
        if k == 1 {
          assert c[k] == next(cur) && cur < n;
        } else {
          assert e < c'[k - 1];
          var d: nat :| d < n && c'[k - 1] == next(d);
          assert c[k] == next(d);
        }
      }
    }
  }

  /** A boundary list as `auto_chapter_sections` builds it holds the chunk
      count and nothing beyond it. */
  predicate BoundaryList(boundaries: seq<int>, n: nat) {
    n in boundaries && forall x <- boundaries :: x <= n
  }

  /** With such a list a snap point always exists, so after snapping
      `end_idx` is a boundary, the max loop stops at its first check and the
      cap changes nothing: a section ends at the first boundary at or after
      its target end. */
  lemma SectionEndSnaps(chunks: seq<MicroChunk>, boundaries: seq<int>, targetMs: int, maxMs: int, cur: nat)
    requires cur < |chunks| && BoundaryList(boundaries, |chunks|)
    ensures Snap(boundaries, 0, TargetEnd(chunks, chunks[cur].startMs, targetMs, cur + 1)).Some?
    ensures SectionEnd(chunks, boundaries, targetMs, maxMs, cur)
         == Snap(boundaries, 0, TargetEnd(chunks, chunks[cur].startMs, targetMs, cur + 1)).value
  {
    var e := TargetEnd(chunks, chunks[cur].startMs, targetMs, cur + 1);
    var i :| 0 <= i < |boundaries| && boundaries[i] == |chunks|;
    SnapNone(boundaries, 0, e);
  }

  /** The end-index function of the auto sections over the boundary list
      as built, with the max loop left out (it changes nothing there). */
  function AutoEnds(chunks: seq<MicroChunk>, spike: int -> bool, targetSectionSec: int): (next: nat -> nat)
    ensures Advances(next, |chunks|)
  {
    SectionEnds(chunks, Boundaries(|chunks|, spike), targetSectionSec * 1000, 0)
  }

  /** An auto section starting at chunk `cur` ends at the first boundary at
      or after its target end: the least such boundary, which is either a
      spike or the chunk count. */
  lemma AutoEndAt(chunks: seq<MicroChunk>, spike: int -> bool, targetSectionSec: int, cur: nat)
    requires cur < |chunks|
    ensures Snap(Boundaries(|chunks|, spike), 0, TargetEnd(chunks, chunks[cur].startMs, targetSectionSec * 1000, cur + 1)).Some?
    ensures AutoEnds(chunks, spike, targetSectionSec)(cur)
         == Snap(Boundaries(|chunks|, spike), 0, TargetEnd(chunks, chunks[cur].startMs, targetSectionSec * 1000, cur + 1)).value
    ensures forall x <- Boundaries(|chunks|, spike) ::
      x >= TargetEnd(chunks, chunks[cur].startMs, targetSectionSec * 1000, cur + 1) ==> AutoEnds(chunks, spike, targetSectionSec)(cur) <= x
    ensures AutoEnds(chunks, spike, targetSectionSec)(cur) == |chunks| || spike(AutoEnds(chunks, spike, targetSectionSec)(cur))
  {
    var n := |chunks|;
    var b := Boundaries(n, spike);
    var te := TargetEnd(chunks, chunks[cur].startMs, targetSectionSec * 1000, cur + 1);
    BoundariesShape(n, spike);
    assert BoundaryList(b, n) by {
      assert b[|b| - 1] in b;
    }
    SectionEndSnaps(chunks, b, targetSectionSec * 1000, 0, cur);
    SnapLeast(b, 0, te);
    forall x <- b | x >= te ensures Snap(b, 0, te).value <= x {
      var i :| 0 <= i < |b| && b[i] == x;
    }
  }

  /** What `auto_chapter_sections` promises: an error when the embedding
      row count differs from the chunk count; for matching counts a result,
      the sections grown along `AutoEnds` with titles `Section 1`,
      `Section 2`, ..., whatever `max_section_sec` is. */
  lemma AutoSectionsProperties(
    videoId: string, chunks: seq<MicroChunk>, spike: int -> bool, targetSectionSec: int, maxSectionSec: int, otherMaxSec: int,
    rows: int)
    requires chunks != []
    ensures rows != |chunks| ==> AutoSections(videoId, chunks, rows, spike, targetSectionSec, maxSectionSec).Err?
    ensures AutoSections(videoId, chunks, |chunks|, spike, targetSectionSec, maxSectionSec).Ok?
    ensures AutoSections(videoId, chunks, |chunks|, spike, targetSectionSec, maxSectionSec)
         == AutoSections(videoId, chunks, |chunks|, spike, targetSectionSec, otherMaxSec)
    ensures AutoSections(videoId, chunks, |chunks|, spike, targetSectionSec, maxSectionSec).value
         == GrowSections(videoId, chunks, AutoEnds(chunks, spike, targetSectionSec), SectionTitles(), 0, 0)
  {
    var n := |chunks|;
    var b := Boundaries(n, spike);
    BoundariesShape(n, spike);
    assert BoundaryList(b, n) by {
      assert b[|b| - 1] in b;
    }
    var nextA := SectionEnds(chunks, b, targetSectionSec * 1000, maxSectionSec * 1000);
    var nextB := SectionEnds(chunks, b, targetSectionSec * 1000, otherMaxSec * 1000);
    var auto := AutoEnds(chunks, spike, targetSectionSec);
    forall c: nat | c < n ensures nextA(c) == auto(c) && nextB(c) == auto(c) {
      SectionEndSnaps(chunks, b, targetSectionSec * 1000, maxSectionSec * 1000, c);
      SectionEndSnaps(chunks, b, targetSectionSec * 1000, otherMaxSec * 1000, c);
      SectionEndSnaps(chunks, b, targetSectionSec * 1000, 0, c);
    }
    GrowAgree(videoId, chunks, nextA, auto, SectionTitles(), 0, 0);
    GrowAgree(videoId, chunks, nextB, auto, SectionTitles(), 0, 0);
  }

  /** The auto sections partition the chunks: cut `k` to cut `k + 1` for
      section `k`, titled `Section <k + 1>`, the cuts running from 0 to the
      chunk count; every inner cut is where an earlier section's end index
      function put it, so a spike or the chunk count. */
  lemma AutoSectionsPartition(videoId: string, chunks: seq<MicroChunk>, spike: int -> bool, targetSectionSec: int)
    requires chunks != []
    ensures |Cuts(|chunks|, AutoEnds(chunks, spike, targetSectionSec), 0)|
         == |GrowSections(videoId, chunks, AutoEnds(chunks, spike, targetSectionSec), SectionTitles(), 0, 0)| + 1
    ensures Cuts(|chunks|, AutoEnds(chunks, spike, targetSectionSec), 0)[0] == 0
    ensures Cuts(|chunks|, AutoEnds(chunks, spike, targetSectionSec), 0)
              [|GrowSections(videoId, chunks, AutoEnds(chunks, spike, targetSectionSec), SectionTitles(), 0, 0)|] == |chunks|
    ensures forall k :: 0 <= k < |GrowSections(videoId, chunks, AutoEnds(chunks, spike, targetSectionSec), SectionTitles(), 0, 0)| ==>
      SectionOver(GrowSections(videoId, chunks, AutoEnds(chunks, spike, targetSectionSec), SectionTitles(), 0, 0)[k], videoId, chunks,
                  Cuts(|chunks|, AutoEnds(chunks, spike, targetSectionSec), 0)[k],
                  Cuts(|chunks|, AutoEnds(chunks, spike, targetSectionSec), 0)[k + 1], SectionTitle(k + 1))
    ensures forall k :: 0 < k < |Cuts(|chunks|, AutoEnds(chunks, spike, targetSectionSec), 0)| ==>
      Cuts(|chunks|, AutoEnds(chunks, spike, targetSectionSec), 0)[k] == |chunks|
      || spike(Cuts(|chunks|, AutoEnds(chunks, spike, targetSectionSec), 0)[k])
  {
    var auto := AutoEnds(chunks, spike, targetSectionSec);
    GrowPartition(videoId, chunks, auto, SectionTitles(), 0, 0);
    CutsAreEnds(|chunks|, auto, 0);
    var c := Cuts(|chunks|, auto, 0);
    forall k | 0 < k < |c| ensures c[k] == |chunks| || spike(c[k]) {
      var d: nat :| d < |chunks| && c[k] == auto(d);
      AutoEndAt(chunks, spike, targetSectionSec, d);
    }
  }

  /*** assign_chunks_to_sections ***/

  /** Where the section pointer stops for a chunk starting at `startMs`:
      it moves past section `s` only while the chunk starts at or after its
      end and `s` is not the last section. */
  function Advance(sections: seq<Section>, sidx: nat, startMs: int): (r: nat)
    requires sidx < |sections|
    ensures sidx <= r < |sections|
    ensures r + 1 == |sections| || startMs < sections[r].endMs
    ensures forall j :: sidx <= j < r ==> startMs >= sections[j].endMs
    decreases |sections| - sidx
  {
    if sidx + 1 < |sections| && startMs >= sections[sidx].endMs then Advance(sections, sidx + 1, startMs)
    else sidx
  }

  /** The chunks with their section ids, the pointer starting at `sidx`. */
  function AssignFrom(chunks: seq<MicroChunk>, sections: seq<Section>, sidx: nat): seq<MicroChunk>
    requires sidx < |sections|
    decreases |chunks|
  {
    if chunks == [] then []
    else
      var s := Advance(sections, sidx, chunks[0].startMs);
      [chunks[0].(sectionId := Some(s))] + AssignFrom(chunks[1..], sections, s)
  }

  /** What `assign_chunks_to_sections` returns. */
  function Assigned(chunks: seq<MicroChunk>, sections: seq<Section>): seq<MicroChunk> {
    if sections == [] then chunks else AssignFrom(chunks, sections, 0)
  }

  method AssignChunksToSections(chunks: seq<MicroChunk>, sections: seq<Section>) returns (out: seq<MicroChunk>)
    ensures out == Assigned(chunks, sections)
  {
    if sections == [] {
      return chunks;
    }
    out := [];
    var sidx := 0;
    for i := 0 to |chunks|
      invariant sidx < |sections|
      invariant out + AssignFrom(chunks[i..], sections, sidx) == AssignFrom(chunks, sections, 0)
    {
      var ch := chunks[i];
      ghost var from := sidx;
      while sidx + 1 < |sections| && ch.startMs >= sections[sidx].endMs
        invariant from <= sidx < |sections|
        invariant Advance(sections, sidx, ch.startMs) == Advance(sections, from, ch.startMs)
        decreases |sections| - sidx
      {
        sidx := sidx + 1;
      }
      var secId := sidx;
      assert chunks[i..][1..] == chunks[i + 1..];
      out := out + [ch.(sectionId := Some(secId))];
    }
    assert chunks[0..] == chunks;
  }

  /** The assigned list has the chunks in order, each differing from its
      input only in its section id, which is a section index from `sidx`
      on; the ids never decrease along the list. */
  lemma {:induction false} AssignFromShape(chunks: seq<MicroChunk>, sections: seq<Section>, sidx: nat)
    requires sidx < |sections|
    ensures |AssignFrom(chunks, sections, sidx)| == |chunks|
    ensures forall i :: 0 <= i < |chunks| ==>
      AssignFrom(chunks, sections, sidx)[i].sectionId.Some?
      && sidx <= AssignFrom(chunks, sections, sidx)[i].sectionId.value < |sections|
      && AssignFrom(chunks, sections, sidx)[i] == chunks[i].(sectionId := AssignFrom(chunks, sections, sidx)[i].sectionId)
    ensures forall i, j :: 0 <= i < j < |chunks| ==>
      AssignFrom(chunks, sections, sidx)[i].sectionId.value <= AssignFrom(chunks, sections, sidx)[j].sectionId.value
    decreases |chunks|
  {
    if chunks != [] {
      var s := Advance(sections, sidx, chunks[0].startMs);
      var r := AssignFrom(chunks, sections, sidx);
      var r' := AssignFrom(chunks[1..], sections, s);
      AssignFromShape(chunks[1..], sections, s);
      assert r == [chunks[0].(sectionId := Some(s))] + r';
      forall i | 0 < i < |chunks|
        ensures r[i].sectionId.Some? && sidx <= r[i].sectionId.value < |sections|
             && r[i] == chunks[i].(sectionId := r[i].sectionId)
      {
        assert r[i] == r'[i - 1] && chunks[i] == chunks[1..][i - 1];
      }
      forall i, j | 0 <= i < j < |chunks| ensures r[i].sectionId.value <= r[j].sectionId.value {
        assert r[j] == r'[j - 1];
        if i > 0 {
          assert r[i] == r'[i - 1];
        }
      }
    }
  }

  /** What `assign_chunks_to_sections` promises: with no sections its input
      unchanged; otherwise the same chunks in order, differing only in their
      section ids, which are indices of `sections` and never decrease. */
  lemma AssignedProperties(chunks: seq<MicroChunk>, sections: seq<Section>)
    ensures sections == [] ==> Assigned(chunks, sections) == chunks
    ensures |Assigned(chunks, sections)| == |chunks|
    ensures sections != [] ==> forall i :: 0 <= i < |chunks| ==>
      Assigned(chunks, sections)[i].sectionId.Some?
      && 0 <= Assigned(chunks, sections)[i].sectionId.value < |sections|
      && Assigned(chunks, sections)[i] == chunks[i].(sectionId := Assigned(chunks, sections)[i].sectionId)
    ensures sections != [] ==> forall i, j :: 0 <= i < j < |chunks| ==>
      Assigned(chunks, sections)[i].sectionId.value <= Assigned(chunks, sections)[j].sectionId.value
  {
    if sections != [] {
      AssignFromShape(chunks, sections, 0);
    }
  }

  /** The first section, in list order, that ends after `startMs`, or the
      last section when none does. */
  function FirstEnding(sections: seq<Section>, startMs: int): nat
    requires sections != []
  {
    Advance(sections, 0, startMs)
  }

  /** Starting the pointer anywhere up to the first ending section finds it. */
  lemma AdvanceFrom(sections: seq<Section>, sidx: nat, startMs: int)
    requires sections != [] && sidx <= FirstEnding(sections, startMs)
    ensures Advance(sections, sidx, startMs) == FirstEnding(sections, startMs)
  {
  }

  /** A later start never has an earlier first ending section. */
  lemma FirstEndingMonotone(sections: seq<Section>, t: int, t': int)
    requires sections != [] && t <= t'
    ensures FirstEnding(sections, t) <= FirstEnding(sections, t')
  {
  }

  predicate StartsSorted(chunks: seq<MicroChunk>) {
    forall i, j :: 0 <= i < j < |chunks| ==> chunks[i].startMs <= chunks[j].startMs
  }

  lemma {:induction false} AssignFromFirstEnding(chunks: seq<MicroChunk>, sections: seq<Section>, sidx: nat)
    requires sidx < |sections| && StartsSorted(chunks)
    requires chunks != [] ==> sidx <= FirstEnding(sections, chunks[0].startMs)
    ensures |AssignFrom(chunks, sections, sidx)| == |chunks|
    ensures forall i :: 0 <= i < |chunks| ==>
      AssignFrom(chunks, sections, sidx)[i].sectionId == Some(FirstEnding(sections, chunks[i].startMs))
    decreases |chunks|
  {
    if chunks != [] {
      var s := Advance(sections, sidx, chunks[0].startMs);
      AdvanceFrom(sections, sidx, chunks[0].startMs);
      var rest := chunks[1..];
      assert StartsSorted(rest);
      if rest != [] {
        FirstEndingMonotone(sections, chunks[0].startMs, rest[0].startMs);
      }
      AssignFromFirstEnding(rest, sections, s);
      var r := AssignFrom(chunks, sections, sidx);
      assert r == [chunks[0].(sectionId := Some(s))] + AssignFrom(rest, sections, s);
      forall i | 0 < i < |chunks| ensures r[i].sectionId == Some(FirstEnding(sections, chunks[i].startMs)) {
        assert r[i] == AssignFrom(rest, sections, s)[i - 1] && chunks[i] == rest[i - 1];
      }
    }
  }

  /** For chunks in start order (as chunking produces them), each chunk gets
      the first section that ends after the chunk starts, or the last
      section when none does. */
  lemma AssignedFirstEnding(chunks: seq<MicroChunk>, sections: seq<Section>)
    requires sections != [] && StartsSorted(chunks)
    ensures |Assigned(chunks, sections)| == |chunks|
    ensures forall i :: 0 <= i < |chunks| ==>
      Assigned(chunks, sections)[i].sectionId == Some(FirstEnding(sections, chunks[i].startMs))
  {
    AssignFromFirstEnding(chunks, sections, 0);
  }
}
