/** `build_micro_chunks`: slide a window of `chunk_sec` seconds, advancing by
    `chunk_sec - overlap_sec` seconds (at least 1 ms), over the segments sorted
    by start time, and keep each window whose collected text is not empty. */
module Chunking {
  import opened Wrappers
  import opened Text
  import opened Types
  import opened Sorting

  function StartKey(): Segment -> int { (s: Segment) => s.startMs }

  /** The step of the window loop, `max(1, (chunk_sec - overlap_sec) * 1000)`. */
  function StepMs(chunkSec: int, overlapSec: int): (step: int)
    ensures step >= 1
    ensures step == 1 || step == (chunkSec - overlapSec) * 1000
    ensures step >= (chunkSec - overlapSec) * 1000
  {
    if (chunkSec - overlapSec) * 1000 > 1 then (chunkSec - overlapSec) * 1000 else 1
  }

  /** The texts the inner loop collects for the window `[wStart, wEnd)`: it
      skips segments ending at or before `wStart` and stops at the first one
      starting at or after `wEnd`. */
  function WindowTexts(segs: seq<Segment>, wStart: int, wEnd: int): seq<string> {
    if segs == [] then []
    else if segs[0].endMs <= wStart then WindowTexts(segs[1..], wStart, wEnd)
    else if segs[0].startMs >= wEnd then []
    else [segs[0].text] + WindowTexts(segs[1..], wStart, wEnd)
  }

  predicate Overlaps(s: Segment, wStart: int, wEnd: int) {
    s.endMs > wStart && s.startMs < wEnd
  }

  /** The texts of every segment overlapping the window, in order. */
  function OverlapTexts(segs: seq<Segment>, wStart: int, wEnd: int): seq<string> {
    if segs == [] then []
    else (if Overlaps(segs[0], wStart, wEnd) then [segs[0].text] else []) + OverlapTexts(segs[1..], wStart, wEnd)
  }

  /** `" ".join(buf).strip()` for the window. */
  function WindowText(segs: seq<Segment>, wStart: int, wEnd: int): string {
    Strip(Join(WindowTexts(segs, wStart, wEnd), " "))
  }

  /** The text of the window starting at `w`, as a function of `w`. */
  function TextAt(segs: seq<Segment>, window: int): int -> string {
    (w: int) => WindowText(segs, w, w + window)
  }

  /** The chunk the window at `t` contributes, if its text is not empty. */
  function WindowChunk(text: int -> string, vid: string, t: int, endMs: int, window: int): seq<MicroChunk> {
    if text(t) != [] then [MicroChunk(vid, t, Min(t + window, endMs), text(t), None)] else []
  }

  /** The chunks the window loop emits from window start `t` on, `text(w)`
      being the text of the window starting at `w`. */
  function ChunksFrom(text: int -> string, vid: string, t: int, endMs: int, step: int, window: int): seq<MicroChunk>
    requires step >= 1
    decreases endMs - t
  {
    if t >= endMs then []
    else WindowChunk(text, vid, t, endMs, window) + ChunksFrom(text, vid, t + step, endMs, step, window)
  }

  predicate StartSorted(segs: seq<Segment>) {
    forall i, j :: 0 <= i < j < |segs| ==> segs[i].startMs <= segs[j].startMs
  }

  /** `sorted(segments, key=start_ms)`: the segments in the order the window
      loop sees them. */
  function SortedSegments(segments: seq<Segment>): (segs: seq<Segment>)
    ensures multiset(segs) == multiset(segments) && |segs| == |segments|
    ensures StartSorted(segs)
  {
    IntAscendingTotal();
    var r := SortBy(segments, StartKey(), IntAscending());
    assert forall i, j :: 0 <= i < j < |r| ==> !IntAscending()(StartKey()(r[j]), StartKey()(r[i]));
    r
  }

  /** Segments already in start order are left in their order. */
  lemma SortedSegmentsOfSorted(segments: seq<Segment>)
    requires StartSorted(segments)
    ensures SortedSegments(segments) == segments
  {
    IntAscendingTotal();
    assert SortedBy(segments, StartKey(), IntAscending());
    SortByOfSorted(segments, StartKey(), IntAscending());
  }

  function MicroChunks(segments: seq<Segment>, chunkSec: int, overlapSec: int): seq<MicroChunk> {
    if segments == [] then []
    else
      var segs := SortedSegments(segments);
      ChunksFrom(TextAt(segs, chunkSec * 1000), segs[0].videoId, segs[0].startMs, segs[|segs| - 1].endMs,
                 StepMs(chunkSec, overlapSec), chunkSec * 1000)
  }

  /** The inner loop of the window loop: the texts of the window's segments. */
  method CollectWindow(segs: seq<Segment>, wStart: int, wEnd: int) returns (buf: seq<string>)
    ensures buf == WindowTexts(segs, wStart, wEnd)
  {
    buf := [];
    for j := 0 to |segs|
      invariant buf + WindowTexts(segs[j..], wStart, wEnd) == WindowTexts(segs, wStart, wEnd)
    {
      var s := segs[j];
      assert segs[j..][1..] == segs[j + 1..];
      if s.endMs <= wStart {
        continue;
      }
      if s.startMs >= wEnd {
        break;
      }
      buf := buf + [s.text];
    }
  }

  /** `" ".join(buf).strip()` after the inner loop. */
  method WindowTextOf(segs: seq<Segment>, wStart: int, wEnd: int) returns (text: string)
    ensures text == WindowText(segs, wStart, wEnd)
  {
    var buf := CollectWindow(segs, wStart, wEnd);
    text := Strip(Join(buf, " "));
  }

  method BuildMicroChunks(segments: seq<Segment>, chunkSec: int, overlapSec: int) returns (chunks: seq<MicroChunk>)
    ensures chunks == MicroChunks(segments, chunkSec, overlapSec)
  {
    if |segments| == 0 {
      return [];
    }
    var segs := SortedSegments(segments);
    chunks := WindowLoop(segs, StepMs(chunkSec, overlapSec), chunkSec * 1000);
  }

  /** The window loop of `build_micro_chunks` over the sorted segments. */
  method WindowLoop(segs: seq<Segment>, stepMs: int, windowMs: int) returns (chunks: seq<MicroChunk>)
    requires segs != [] && stepMs >= 1
    ensures chunks == ChunksFrom(TextAt(segs, windowMs), segs[0].videoId, segs[0].startMs, segs[|segs| - 1].endMs, stepMs, windowMs)
  {
    var startMs := segs[0].startMs;
    var endMs := segs[|segs| - 1].endMs;
    var vid := segs[0].videoId;
    ghost var text := TextAt(segs, windowMs);
    ghost var all := ChunksFrom(text, vid, startMs, endMs, stepMs, windowMs);
    chunks := [];
    var t := startMs;
    while t < endMs
      invariant chunks + ChunksFrom(text, vid, t, endMs, stepMs, windowMs) == all
      decreases endMs - t
    {
      var emitted := EmitWindow(segs, vid, t, endMs, windowMs);
      ChunksFromStep(text, vid, t, endMs, stepMs, windowMs, chunks, all);
      chunks := chunks + emitted;
      t := t + stepMs;
    }
  }

  /** One turn of the window loop: the chunk of the window at `t`, if its
      text is not empty. */
  method EmitWindow(segs: seq<Segment>, vid: string, t: int, endMs: int, windowMs: int) returns (emitted: seq<MicroChunk>)
    ensures emitted == WindowChunk(TextAt(segs, windowMs), vid, t, endMs, windowMs)
  {
    var wStart := t;
    var wEnd := t + windowMs;
    var joined := WindowTextOf(segs, wStart, wEnd);
    assert joined == TextAt(segs, windowMs)(t);
    emitted := [];
    if joined != [] {
      emitted := [MicroChunk(vid, wStart, Min(wEnd, endMs), joined, None)];
    }
  }

  /** `x` is `t` plus a whole number of steps: a start the window loop visits. */
  predicate OnGrid(x: int, t: int, step: int)
    requires step >= 1
    decreases x - t
  {
    x == t || (x > t && OnGrid(x - step, t, step))
  }

  lemma {:induction false} OnGridShift(x: int, t: int, step: int)
    requires step >= 1 && OnGrid(x, t + step, step)
    ensures OnGrid(x, t, step) && x > t
    decreases x - t
  {
    if x != t + step {
      OnGridShift(x - step, t, step);
    }
  }

  lemma {:induction false} OnGridUnshift(x: int, t: int, step: int)
    requires step >= 1 && OnGrid(x, t, step) && x != t
    ensures OnGrid(x, t + step, step)
    decreases x - t
  {
    if x - step != t {
      OnGridUnshift(x - step, t, step);
    }
  }

  /** Some chunk of `r` starts at `w`. */
  predicate HasStart(r: seq<MicroChunk>, w: int) {
    exists i :: 0 <= i < |r| && r[i].startMs == w
  }

  lemma ChunksFromUnfold(text: int -> string, vid: string, t: int, endMs: int, step: int, window: int)
    requires step >= 1 && t < endMs
    ensures ChunksFrom(text, vid, t, endMs, step, window)
         == WindowChunk(text, vid, t, endMs, window) + ChunksFrom(text, vid, t + step, endMs, step, window)
  {
  }

  /** One turn of the window loop keeps its invariant. */
  lemma ChunksFromStep(text: int -> string, vid: string, t: int, endMs: int, step: int, window: int,
                       chunks: seq<MicroChunk>, all: seq<MicroChunk>)
    requires step >= 1 && t < endMs
    requires chunks + ChunksFrom(text, vid, t, endMs, step, window) == all
    ensures (chunks + WindowChunk(text, vid, t, endMs, window)) + ChunksFrom(text, vid, t + step, endMs, step, window) == all
  {
    ChunksFromUnfold(text, vid, t, endMs, step, window);
    var head := WindowChunk(text, vid, t, endMs, window);
    var rest := ChunksFrom(text, vid, t + step, endMs, step, window);
    assert chunks + (head + rest) == (chunks + head) + rest;
  }

  /** What a chunk emitted from window start `t` on is: a window start `t`
      plus a whole number of steps and before `endMs`, ending at
      `min(start + window, endMs)`, carrying `vid` and no section, and holding
      the non-empty text of its window. */
  predicate ChunkAt(c: MicroChunk, text: int -> string, vid: string, t: int, endMs: int, step: int, window: int)
    requires step >= 1
  {
    && t <= c.startMs < endMs && OnGrid(c.startMs, t, step)
    && c.endMs == Min(c.startMs + window, endMs)
    && c.videoId == vid && c.sectionId == None
    && c.text == text(c.startMs) && c.text != []
  }

  predicate StartsIncrease(r: seq<MicroChunk>) {
    forall i, j :: 0 <= i < j < |r| ==> r[i].startMs < r[j].startMs
  }

  /** Every chunk from window start `t` on is as `ChunkAt` says, and the
      starts strictly increase. */
  lemma ChunksFromSound(text: int -> string, vid: string, t: int, endMs: int, step: int, window: int)
    requires step >= 1
    ensures forall i :: 0 <= i < |ChunksFrom(text, vid, t, endMs, step, window)| ==>
      ChunkAt(ChunksFrom(text, vid, t, endMs, step, window)[i], text, vid, t, endMs, step, window)
    ensures StartsIncrease(ChunksFrom(text, vid, t, endMs, step, window))
  {
    ChunksFromAt(text, vid, t, endMs, step, window);
    ChunksFromIncrease(text, vid, t, endMs, step, window);
  }

  lemma {:induction false} ChunksFromAt(text: int -> string, vid: string, t: int, endMs: int, step: int, window: int)
    requires step >= 1
    ensures forall i :: 0 <= i < |ChunksFrom(text, vid, t, endMs, step, window)| ==>
      ChunkAt(ChunksFrom(text, vid, t, endMs, step, window)[i], text, vid, t, endMs, step, window)
    decreases endMs - t
  {
    if t < endMs {
      ChunksFromAt(text, vid, t + step, endMs, step, window);
      ChunksFromUnfold(text, vid, t, endMs, step, window);
      var head := WindowChunk(text, vid, t, endMs, window);
      var rest := ChunksFrom(text, vid, t + step, endMs, step, window);
      var r := head + rest;
      forall i | 0 <= i < |r| ensures ChunkAt(r[i], text, vid, t, endMs, step, window) {
        if i >= |head| {
          assert r[i] == rest[i - |head|];
          assert ChunkAt(rest[i - |head|], text, vid, t + step, endMs, step, window);
          OnGridShift(r[i].startMs, t, step);
        }
      }
    }
  }

  lemma {:induction false} ChunksFromIncrease(text: int -> string, vid: string, t: int, endMs: int, step: int, window: int)
    requires step >= 1
    ensures StartsIncrease(ChunksFrom(text, vid, t, endMs, step, window))
    decreases endMs - t
  {
    if t < endMs {
      ChunksFromIncrease(text, vid, t + step, endMs, step, window);
      ChunksFromAt(text, vid, t + step, endMs, step, window);
      ChunksFromUnfold(text, vid, t, endMs, step, window);
      var head := WindowChunk(text, vid, t, endMs, window);
      var rest := ChunksFrom(text, vid, t + step, endMs, step, window);
      var r := head + rest;
      forall i, j | 0 <= i < j < |r| ensures r[i].startMs < r[j].startMs {
        assert r[j] == rest[j - |head|];
        assert ChunkAt(rest[j - |head|], text, vid, t + step, endMs, step, window);
        if i >= |head| {
          assert r[i] == rest[i - |head|];
        }
      }
    }
  }

  /** Every window start the loop visits before `endMs` whose text is not
      empty has its chunk. */
  lemma {:induction false} ChunksFromComplete(text: int -> string, vid: string, t: int, endMs: int, step: int, window: int, w: int)
    requires step >= 1 && OnGrid(w, t, step) && w < endMs && text(w) != []
    ensures HasStart(ChunksFrom(text, vid, t, endMs, step, window), w)
    decreases w - t
  {
    ChunksFromUnfold(text, vid, t, endMs, step, window);
    var head := WindowChunk(text, vid, t, endMs, window);
    var rest := ChunksFrom(text, vid, t + step, endMs, step, window);
    var r := head + rest;
    if w == t {
      assert r[0].startMs == w;
    } else {
      OnGridUnshift(w, t, step);
      ChunksFromComplete(text, vid, t + step, endMs, step, window, w);
      var j :| 0 <= j < |rest| && rest[j].startMs == w;
      assert r[j + |head|] == rest[j];
    }
  }

  /** The chunks from window start `t` on start exactly at the visited window
      starts before `endMs` whose text is not empty. */
  lemma ChunksFromStartsIff(text: int -> string, vid: string, t: int, endMs: int, step: int, window: int, w: int)
    requires step >= 1
    ensures HasStart(ChunksFrom(text, vid, t, endMs, step, window), w)
        <==> OnGrid(w, t, step) && w < endMs && text(w) != []
  {
    var r := ChunksFrom(text, vid, t, endMs, step, window);
    if HasStart(r, w) {
      ChunksFromSound(text, vid, t, endMs, step, window);
      var i :| 0 <= i < |r| && r[i].startMs == w;
      assert ChunkAt(r[i], text, vid, t, endMs, step, window);
    } else if OnGrid(w, t, step) && w < endMs && text(w) != [] {
      ChunksFromComplete(text, vid, t, endMs, step, window, w);
    }
  }

  /** No segment of a list sorted by start overlaps a window that ends at or
      before the first start. */
  lemma {:induction false} OverlapNone(segs: seq<Segment>, wStart: int, wEnd: int)
    requires StartSorted(segs)
    requires segs != [] ==> segs[0].startMs >= wEnd
    ensures OverlapTexts(segs, wStart, wEnd) == []
  {
    if segs != [] {
      var tail := segs[1..];
      if tail != [] {
        assert segs[0].startMs <= segs[1].startMs;
      }
      OverlapNone(tail, wStart, wEnd);
    }
  }

  /** On segments sorted by start, the early `break` loses nothing: the
      collected texts are those of every segment overlapping the window. */
  lemma {:induction false} WindowTextsOverlap(segs: seq<Segment>, wStart: int, wEnd: int)
    requires StartSorted(segs)
    ensures WindowTexts(segs, wStart, wEnd) == OverlapTexts(segs, wStart, wEnd)
  {
    if segs != [] {
      WindowTextsOverlap(segs[1..], wStart, wEnd);
      if segs[0].endMs > wStart && segs[0].startMs >= wEnd {
        OverlapNone(segs, wStart, wEnd);
      }
    }
  }

  /** On sorted segments, a window's text is the stripped join of the texts
      of the segments overlapping it, and stripping it again changes nothing. */
  lemma WindowTextOverlap(segs: seq<Segment>, window: int, w: int)
    requires StartSorted(segs)
    ensures WindowText(segs, w, w + window) == OverlapText(segs, w, w + window)
    ensures Strip(WindowText(segs, w, w + window)) == WindowText(segs, w, w + window)
  {
    WindowTextsOverlap(segs, w, w + window);
    StripOfTrimmed(WindowText(segs, w, w + window));
  }


  /** What a chunk of `build_micro_chunks` over the sorted segments `segs`
      is: it starts at the first start plus a whole number of steps and
      before the end of the last segment, ends at `min(start + window, end)`,
      carries the first segment's video id and no section, and holds the
      non-empty, stripped join of the texts of the segments overlapping its
      window. */
  predicate IsMicroChunk(c: MicroChunk, segs: seq<Segment>, step: int, window: int)
    requires segs != [] && step >= 1
  {
    var startMs, endMs := segs[0].startMs, segs[|segs| - 1].endMs;
    && startMs <= c.startMs < endMs && OnGrid(c.startMs, startMs, step)
    && c.endMs == Min(c.startMs + window, endMs)
    && c.videoId == segs[0].videoId && c.sectionId == None
    && c.text == OverlapText(segs, c.startMs, c.startMs + window)
    && c.text != [] && Strip(c.text) == c.text
  }

  /** The stripped join of the texts of the segments overlapping a window. */
  function OverlapText(segs: seq<Segment>, wStart: int, wEnd: int): string {
    Strip(Join(OverlapTexts(segs, wStart, wEnd), " "))
  }

  lemma MicroChunksUnfold(segments: seq<Segment>, chunkSec: int, overlapSec: int)
    requires segments != []
    ensures MicroChunks(segments, chunkSec, overlapSec)
         == SortedChunks(SortedSegments(segments), StepMs(chunkSec, overlapSec), chunkSec * 1000)
  {
  }

  /** The window loop over the sorted segments `segs`. */
  function SortedChunks(segs: seq<Segment>, step: int, window: int): seq<MicroChunk>
    requires segs != [] && step >= 1
  {
    ChunksFrom(TextAt(segs, window), segs[0].videoId, segs[0].startMs, segs[|segs| - 1].endMs, step, window)
  }

  lemma SortedChunksSound(segs: seq<Segment>, step: int, window: int)
    requires segs != [] && step >= 1 && StartSorted(segs)
    ensures forall i :: 0 <= i < |SortedChunks(segs, step, window)| ==>
      IsMicroChunk(SortedChunks(segs, step, window)[i], segs, step, window)
    ensures StartsIncrease(SortedChunks(segs, step, window))
  {
    var text := TextAt(segs, window);
    var r := SortedChunks(segs, step, window);
    ChunksFromSound(text, segs[0].videoId, segs[0].startMs, segs[|segs| - 1].endMs, step, window);
    forall i | 0 <= i < |r| ensures IsMicroChunk(r[i], segs, step, window) {
      ChunkAtIsMicro(r[i], segs, step, window);
    }
  }

  /** A chunk the window loop emits over sorted segments is a micro chunk. */
  lemma ChunkAtIsMicro(c: MicroChunk, segs: seq<Segment>, step: int, window: int)
    requires segs != [] && step >= 1 && StartSorted(segs)
    requires ChunkAt(c, TextAt(segs, window), segs[0].videoId, segs[0].startMs, segs[|segs| - 1].endMs, step, window)
    ensures IsMicroChunk(c, segs, step, window)
  {
    var w := c.startMs;
    assert c.text == TextAt(segs, window)(w);
    assert c.text == WindowText(segs, w, w + window);
    WindowTextOverlap(segs, window, w);
    assert c.text == OverlapText(segs, w, w + window);
    MicroOfText(c, segs, step, window, OverlapText(segs, w, w + window));
  }

  lemma MicroOfText(c: MicroChunk, segs: seq<Segment>, step: int, window: int, text: string)
    requires segs != [] && step >= 1
    requires segs[0].startMs <= c.startMs < segs[|segs| - 1].endMs && OnGrid(c.startMs, segs[0].startMs, step)
    requires c.endMs == Min(c.startMs + window, segs[|segs| - 1].endMs)
    requires c.videoId == segs[0].videoId && c.sectionId == None
    requires text == OverlapText(segs, c.startMs, c.startMs + window) && Strip(text) == text
    requires c.text == text && c.text != []
    ensures IsMicroChunk(c, segs, step, window)
  {
  }

  lemma SortedChunksStarts(segs: seq<Segment>, step: int, window: int, w: int)
    requires segs != [] && step >= 1 && StartSorted(segs)
    ensures HasStart(SortedChunks(segs, step, window), w)
        <==> OnGrid(w, segs[0].startMs, step) && w < segs[|segs| - 1].endMs && OverlapText(segs, w, w + window) != []
  {
    var text := TextAt(segs, window);
    WindowTextOverlap(segs, window, w);
    assert text(w) == OverlapText(segs, w, w + window);
    ChunksFromStartsIff(text, segs[0].videoId, segs[0].startMs, segs[|segs| - 1].endMs, step, window, w);
  }

  /** `build_micro_chunks` returns nothing for no segments; otherwise every
      chunk is as `IsMicroChunk` says and the starts strictly increase. */
  lemma MicroChunksSound(segments: seq<Segment>, chunkSec: int, overlapSec: int)
    ensures segments == [] ==> MicroChunks(segments, chunkSec, overlapSec) == []
    ensures segments != [] ==>
      forall i :: 0 <= i < |MicroChunks(segments, chunkSec, overlapSec)| ==>
        IsMicroChunk(MicroChunks(segments, chunkSec, overlapSec)[i], SortedSegments(segments),
                     StepMs(chunkSec, overlapSec), chunkSec * 1000)
    ensures StartsIncrease(MicroChunks(segments, chunkSec, overlapSec))
  {
    if segments != [] {
      MicroChunksUnfold(segments, chunkSec, overlapSec);
      SortedChunksSound(SortedSegments(segments), StepMs(chunkSec, overlapSec), chunkSec * 1000);
    }
  }

  /** A chunk starts at `w` exactly when `w` is a window start the loop
      visits before the end of the last sorted segment and the window has
      overlapping text. */
  lemma MicroChunksStarts(segments: seq<Segment>, chunkSec: int, overlapSec: int, w: int)
    requires segments != []
    ensures HasStart(MicroChunks(segments, chunkSec, overlapSec), w)
        <==> && OnGrid(w, SortedSegments(segments)[0].startMs, StepMs(chunkSec, overlapSec))
             && w < SortedSegments(segments)[|segments| - 1].endMs
             && OverlapText(SortedSegments(segments), w, w + chunkSec * 1000) != []
  {
    var segs, step := SortedSegments(segments), StepMs(chunkSec, overlapSec);
    MicroChunksUnfold(segments, chunkSec, overlapSec);
    SortedChunksStarts(segs, step, chunkSec * 1000, w);
    assert HasStart(MicroChunks(segments, chunkSec, overlapSec), w)
        == HasStart(SortedChunks(segs, step, chunkSec * 1000), w);
  }

  /** When the first window has text, the first chunk is that window's. */
  lemma SortedChunksFirst(segs: seq<Segment>, step: int, window: int)
    requires segs != [] && step >= 1 && StartSorted(segs)
    requires HasStart(SortedChunks(segs, step, window), segs[0].startMs)
    ensures SortedChunks(segs, step, window)[0].startMs == segs[0].startMs
  {
    var r := SortedChunks(segs, step, window);
    SortedChunksSound(segs, step, window);
    var i :| 0 <= i < |r| && r[i].startMs == segs[0].startMs;
    assert IsMicroChunk(r[0], segs, step, window);
  }

  lemma OverlapTextsCons(s: Segment, rest: seq<Segment>, wStart: int, wEnd: int)
    ensures OverlapTexts([s] + rest, wStart, wEnd)
         == (if Overlaps(s, wStart, wEnd) then [s.text] else []) + OverlapTexts(rest, wStart, wEnd)
  {
    assert ([s] + rest)[1..] == rest;
  }

  lemma ExampleOverlaps(s0: Segment, s1: Segment, s2: Segment, segs: seq<Segment>)
    requires segs == [s0, s1, s2]
    requires s0.startMs == 0 && s0.endMs == 10000 && s1.startMs == 10000 && s1.endMs == 20000
    requires s2.startMs == 20000 && s2.endMs == 30000
    ensures OverlapTexts(segs, 0, 15000) == [s0.text, s1.text]
    ensures OverlapTexts(segs, 10000, 25000) == [s1.text, s2.text]
  {
    assert segs == [s0] + ([s1] + ([s2] + []));
    OverlapTextsCons(s2, [], 0, 15000);
    OverlapTextsCons(s1, [s2], 0, 15000);
    OverlapTextsCons(s0, [s1, s2], 0, 15000);
    OverlapTextsCons(s2, [], 10000, 25000);
    OverlapTextsCons(s1, [s2], 10000, 25000);
    OverlapTextsCons(s0, [s1, s2], 10000, 25000);
  }

  /** Two texts joined by a space are blank only when both are. */
  lemma PairText(a: string, b: string)
    requires !AllSpace(a)
    ensures Strip(Join([a, b], " ")) != []
  {
    assert Join([a, b], " ") == a + (" " + b) by {
      assert [a, b][..1] == [a];
    }
    AllSpaceConcat(a, " " + b);
    StripEmptyIffAllSpace(a + (" " + b));
  }

  /** Three consecutive ten-second segments of one video. */
  function ThreeSegments(v: string, a: string, b: string, c: string): seq<Segment> {
    [Segment(v, 0, 10000, a, None), Segment(v, 10000, 20000, b, None), Segment(v, 20000, 30000, c, None)]
  }

  /** The windows at 0 and 10 s of three consecutive ten-second segments
      whose first two are not blank have text. */
  lemma ThreeSegmentsTexts(v: string, a: string, b: string, c: string)
    requires !AllSpace(a) && !AllSpace(b)
    ensures StartSorted(ThreeSegments(v, a, b, c))
    ensures OverlapText(ThreeSegments(v, a, b, c), 0, 15000) != []
    ensures OverlapText(ThreeSegments(v, a, b, c), 10000, 25000) != []
  {
    var segs := ThreeSegments(v, a, b, c);
    ExampleOverlaps(segs[0], segs[1], segs[2], segs);
    PairText(a, b);
    PairText(b, c);
  }

  lemma ThreeSegmentsStarts(v: string, a: string, b: string, c: string)
    requires !AllSpace(a) && !AllSpace(b)
    ensures HasStart(SortedChunks(ThreeSegments(v, a, b, c), 10000, 15000), 0)
    ensures HasStart(SortedChunks(ThreeSegments(v, a, b, c), 10000, 15000), 10000)
  {
    var segs := ThreeSegments(v, a, b, c);
    ThreeSegmentsTexts(v, a, b, c);
    assert OnGrid(10000, 0, 10000);
    SortedChunksStarts(segs, 10000, 15000, 0);
    SortedChunksStarts(segs, 10000, 15000, 10000);
  }

  /** Three consecutive ten-second segments, the first two not blank, with
      15-second windows overlapping by 5 seconds (the case in
      `tests/test_chunking.py`): at least two chunks, the first starting at 0. */
  lemma ThreeSegmentsExample(v: string, a: string, b: string, c: string)
    requires !AllSpace(a) && !AllSpace(b)
    ensures |MicroChunks(ThreeSegments(v, a, b, c), 15, 5)| >= 2
    ensures MicroChunks(ThreeSegments(v, a, b, c), 15, 5)[0].startMs == 0
  {
    var segs := ThreeSegments(v, a, b, c);
    ThreeSegmentsTexts(v, a, b, c);
    ThreeSegmentsStarts(v, a, b, c);
    SortedSegmentsOfSorted(segs);
    MicroChunksUnfold(segs, 15, 5);
    assert StepMs(15, 5) == 10000;
    var r := SortedChunks(segs, 10000, 15000);
    SortedChunksFirst(segs, 10000, 15000);
    var j :| 0 <= j < |r| && r[j].startMs == 10000;
    assert j != 0;
  }
}
