/** Reading transcripts from files: the SRT cue parser, the millisecond value
    of an SRT clock, and the dispatch on the file suffix that also turns a
    minimal WebVTT file into SRT. */
module Transcripts {
  import opened Wrappers
  import opened Text
  import opened Types

  /** `_ts_to_ms`: the four clock fields as milliseconds. */
  function TsToMs(hh: nat, mm: nat, ss: nat, ms: nat): nat {
    (hh * 3600 + mm * 60 + ss) * 1000 + ms
  }

  /** In the ranges the SRT clock allows, the milliseconds determine every
      field: the clock value is one-to-one. */
  lemma TsToMsFields(hh: nat, mm: nat, ss: nat, ms: nat)
    requires mm < 60 && ss < 60 && ms < 1000
    ensures TsToMs(hh, mm, ss, ms) % 1000 == ms
    ensures TsToMs(hh, mm, ss, ms) / 1000 % 60 == ss
    ensures TsToMs(hh, mm, ss, ms) / 1000 / 60 % 60 == mm
    ensures TsToMs(hh, mm, ss, ms) / 1000 / 3600 == hh
  {
    var t := hh * 3600 + mm * 60 + ss;
    assert TsToMs(hh, mm, ss, ms) / 1000 == t;
    assert t / 60 == hh * 60 + mm;
    assert t / 3600 == hh;
  }

  predicate ThreeDigitsAt(s: string, i: nat) {
    i + 3 <= |s| && IsDigit(s[i]) && IsDigit(s[i + 1]) && IsDigit(s[i + 2])
  }

  function ThreeDigitValue(s: string, i: nat): nat
    requires ThreeDigitsAt(s, i)
  {
    DigitValue(s[i]) * 100 + DigitValue(s[i + 1]) * 10 + DigitValue(s[i + 2])
  }

  /** `(\d\d):(\d\d):(\d\d),(\d\d\d)` at `i`: its end and its value in
      milliseconds. */
  function SrtClockAt(s: string, i: nat): (r: Option<(nat, nat)>)
    ensures r.Some? ==> r.value.0 == i + 12 <= |s|
  {
    if TwoDigitsAt(s, i) && i + 2 < |s| && s[i + 2] == ':' && TwoDigitsAt(s, i + 3)
       && i + 5 < |s| && s[i + 5] == ':' && TwoDigitsAt(s, i + 6)
       && i + 8 < |s| && s[i + 8] == ',' && ThreeDigitsAt(s, i + 9)
    then Some((i + 12, TsToMs(TwoDigitValue(s, i), TwoDigitValue(s, i + 3), TwoDigitValue(s, i + 6), ThreeDigitValue(s, i + 9))))
    else None
  }

  /** The end of the run of whitespace that starts at `i` (`\s*`). */
  function SkipSpace(s: string, i: nat): (j: nat)
    requires i <= |s|
    ensures i <= j <= |s| && (j < |s| ==> !IsSpace(s[j]))
    ensures AllSpace(s[i..j])
    decreases |s| - i
  {
    if i < |s| && IsSpace(s[i]) then
      var j := SkipSpace(s, i + 1);
      assert s[i..j] == [s[i]] + s[i + 1..j];
      j
    else i
  }

  /** `_SRT_TS.match(l)`: the start and end of a timing at the start of `l`;
      whatever follows the second clock is ignored. Each `\s*` takes the
      whole run of whitespace, since neither `-` nor a digit is
      whitespace, so the match needs no backtracking. */
  function MatchTiming(l: string): Option<(nat, nat)> {
    match SrtClockAt(l, 0)
    case None => None
    case Some((e, startMs)) =>
      var j := SkipSpace(l, e);
      if j + 3 <= |l| && l[j] == '-' && l[j + 1] == '-' && l[j + 2] == '>' then
        match SrtClockAt(l, SkipSpace(l, j + 3))
        case None => None
        case Some((_, endMs)) => Some((startMs, endMs))
      else None
  }

  /** `l.strip().isdigit()`: false for a blank line. */
  predicate IsIndexLine(l: string) {
    var t := Strip(l);
    t != [] && forall k :: 0 <= k < |t| ==> IsDigit(t[k])
  }

  /** What `parse_srt` looks at in a line: the line stripped, whether it is
      an index line, and the timing it starts with. Every test the loop
      makes on a line is a test on these. */
  datatype LineInfo = LineInfo(stripped: string, index: bool, timing: Option<(nat, nat)>)

  function InfoOf(l: string): LineInfo {
    LineInfo(Strip(l), IsIndexLine(l), MatchTiming(Strip(l)))
  }

  function Infos(lines: seq<string>): (info: seq<LineInfo>)
    ensures |info| == |lines|
  {
    seq(|lines|, k requires 0 <= k < |lines| => InfoOf(lines[k]))
  }

  predicate Blank(x: LineInfo) {
    x.stripped == []
  }

  /** `s.rstrip("\n")`. */
  function RStripNewline(s: string): (r: string)
    ensures |r| <= |s| && r == s[..|r|]
  {
    if s != [] && s[|s| - 1] == '\n' then RStripNewline(s[..|s| - 1]) else s
  }

  /** `[ln.rstrip("\n") for ln in content.splitlines()]`. */
  function SrtLines(content: string): seq<string> {
    var split := SplitLines(content);
    seq(|split|, k requires 0 <= k < |split| => RStripNewline(split[k]))
  }

  /** The lines of `splitlines` hold no line break, so the `rstrip("\n")`
      changes none of them. */
  lemma SrtLinesAreSplitLines(content: string)
    ensures SrtLines(content) == SplitLines(content)
  {
    var split := SplitLines(content);
    SplitLinesNoBreaks(content);
    forall k | 0 <= k < |split| ensures RStripNewline(split[k]) == split[k] {
      assert split[k] in split;
      if split[k] != [] {
        assert !IsLineBreak(split[k][|split[k]| - 1]);
      }
    }
  }

  /** The first blank line at or after `i`, or the end. */
  function TextEnd(info: seq<LineInfo>, i: nat): (j: nat)
    requires i <= |info|
    ensures i <= j <= |info| && (j < |info| ==> Blank(info[j]))
    decreases |info| - i
  {
    if i < |info| && !Blank(info[i]) then TextEnd(info, i + 1) else i
  }

  /** The first non-blank line at or after `i`, or the end. */
  function BlankEnd(info: seq<LineInfo>, i: nat): (j: nat)
    requires i <= |info|
    ensures i <= j <= |info| && (j < |info| ==> !Blank(info[j]))
    decreases |info| - i
  {
    if i < |info| && Blank(info[i]) then BlankEnd(info, i + 1) else i
  }

  /** The stripped lines. */
  function Texts(xs: seq<LineInfo>): (r: seq<string>)
    ensures |r| == |xs|
  {
    seq(|xs|, k requires 0 <= k < |xs| => xs[k].stripped)
  }

  /** `" ".join(buf).strip()` for the cue lines `a` to `b`. */
  function CueText(info: seq<LineInfo>, a: nat, b: nat): string
    requires a <= b <= |info|
  {
    Strip(Join(Texts(info[a..b]), " "))
  }

  /** The text of the cue a timing on each line would start: the lines
      after it up to the next blank line. */
  function CueTexts(info: seq<LineInfo>): (texts: seq<string>)
    ensures |texts| == |info|
  {
    seq(|info|, t requires 0 <= t < |info| => CueText(info, t + 1, TextEnd(info, t + 1)))
  }

  /** The segment of a cue, if its text is not empty. */
  function Cue(videoId: string, speaker: Option<string>, text: string, startMs: nat, endMs: nat): seq<Segment> {
    if text != [] then [Segment(videoId, startMs, endMs, text, speaker)] else []
  }

  /** Where `parse_srt` goes on after the cue whose timing is on line `t`:
      past its text and the blank lines that follow it. */
  function AfterCue(info: seq<LineInfo>, t: nat): (j: nat)
    requires t < |info|
    ensures t < j <= |info|
  {
    BlankEnd(info, TextEnd(info, t + 1))
  }

  /** The line `parse_srt` looks for a timing on, when it starts at line `i`. */
  function TimingLine(info: seq<LineInfo>, i: nat): (t: nat)
    requires i < |info|
    ensures i <= t <= |info|
  {
    if info[i].index then i + 1 else i
  }

  /** The segments `parse_srt` finds from line `i` on, where `texts[t]` is
      the text of a cue timed on line `t`: an index line is skipped, a line
      that is not a timing is skipped, and after a timing the text runs to
      the next blank line; the cue gives a segment only when its text is
      not empty, and the blank lines after it are consumed. */
  function SrtFrom(videoId: string, speaker: Option<string>, info: seq<LineInfo>, texts: seq<string>, i: nat): seq<Segment>
    requires i <= |info| == |texts|
    decreases |info| - i
  {
    if i == |info| then []
    else
      var t := TimingLine(info, i);
      if t == |info| then []
      else
        match info[t].timing
        case None => SrtFrom(videoId, speaker, info, texts, t + 1)
        case Some((startMs, endMs)) =>
          Cue(videoId, speaker, texts[t], startMs, endMs) + SrtFrom(videoId, speaker, info, texts, AfterCue(info, t))
  }

  /** What `parse_srt` returns. */
  function SrtSegments(videoId: string, content: string, speaker: Option<string>): seq<Segment> {
    var info := Infos(SrtLines(content));
    SrtFrom(videoId, speaker, info, CueTexts(info), 0)
  }

  method ParseSrt(videoId: string, content: string, speaker: Option<string>) returns (segments: seq<Segment>)
    ensures segments == SrtSegments(videoId, content, speaker)
  {
    var lines := SrtLines(content);
    ghost var info := Infos(lines);
    ghost var texts := CueTexts(info);
    InfosDescribe(lines);
    segments := [];
    var i := 0;
    while i < |lines|
      invariant i <= |lines|
      invariant segments + SrtFrom(videoId, speaker, info, texts, i) == SrtFrom(videoId, speaker, info, texts, 0)
      decreases |lines| - i
    {
      ghost var before := segments;
      var cue;
      cue, i := SrtTurn(videoId, speaker, lines, info, texts, i);
      segments := segments + cue;
      AppendAssoc(before, cue, SrtFrom(videoId, speaker, info, texts, i));
    }
  }

  /** One turn of the `parse_srt` loop from line `i`: an index line is
      skipped, the loop ends at the end of the lines, a line without a
      timing is skipped, and otherwise the cue is read. */
  method SrtTurn(videoId: string, speaker: Option<string>, lines: seq<string>, ghost info: seq<LineInfo>,
                 ghost texts: seq<string>, i: nat)
    returns (cue: seq<Segment>, j: nat)
    requires Describes(info, lines) && texts == CueTexts(info) && i < |lines|
    ensures i < j <= |lines|
    ensures SrtFrom(videoId, speaker, info, texts, i) == cue + SrtFrom(videoId, speaker, info, texts, j)
  {
    DescribesAt(info, lines, i);
    j := i;
    if IsIndexLine(lines[j]) {
      j := j + 1;
    }
    assert j == TimingLine(info, i);
    if j >= |lines| {
      SrtEnd(videoId, speaker, info, texts, i);
      return [], |lines|;
    }
    DescribesAt(info, lines, j);
    var m := MatchTiming(Strip(lines[j]));
    assert m == info[j].timing;
    if m.None? {
      SrtSkip(videoId, speaker, info, texts, i);
      return [], j + 1;
    }
    var startMs, endMs := m.value.0, m.value.1;
    SrtCue(videoId, speaker, info, texts, i);
    DescribesStrips(info, lines);
    cue, j := ReadCue(videoId, speaker, lines, info, j, startMs, endMs);
  }

  /** The three ways a turn of the loop can go, one lemma each. */
  lemma SrtEnd(videoId: string, speaker: Option<string>, info: seq<LineInfo>, texts: seq<string>, i: nat)
    requires i < |info| == |texts| && TimingLine(info, i) == |info|
    ensures SrtFrom(videoId, speaker, info, texts, i) == [] + SrtFrom(videoId, speaker, info, texts, |info|)
  {
  }

  lemma SrtSkip(videoId: string, speaker: Option<string>, info: seq<LineInfo>, texts: seq<string>, i: nat)
    requires i < |info| == |texts| && TimingLine(info, i) < |info| && info[TimingLine(info, i)].timing.None?
    ensures SrtFrom(videoId, speaker, info, texts, i) == [] + SrtFrom(videoId, speaker, info, texts, TimingLine(info, i) + 1)
  {
  }

  lemma SrtCue(videoId: string, speaker: Option<string>, info: seq<LineInfo>, texts: seq<string>, i: nat)
    requires i < |info| == |texts| && TimingLine(info, i) < |info| && info[TimingLine(info, i)].timing.Some?
    ensures var t := TimingLine(info, i);
      SrtFrom(videoId, speaker, info, texts, i)
      == Cue(videoId, speaker, texts[t], info[t].timing.value.0, info[t].timing.value.1)
         + SrtFrom(videoId, speaker, info, texts, AfterCue(info, t))
  {
  }

  /** `info` describes `lines`, line by line. */
  predicate Describes(info: seq<LineInfo>, lines: seq<string>)
    decreases |lines|
  {
    |info| == |lines| && (lines != [] ==> info[0] == InfoOf(lines[0]) && Describes(info[1..], lines[1..]))
  }

  lemma {:induction false} DescribesAt(info: seq<LineInfo>, lines: seq<string>, k: nat)
    requires Describes(info, lines) && k < |lines|
    ensures info[k] == InfoOf(lines[k])
    decreases k
  {
    if k > 0 {
      DescribesAt(info[1..], lines[1..], k - 1);
    }
  }

  /** `info` holds the stripped `lines`, line by line: the part of
      `Describes` that the inner loops need. */
  predicate Strips(info: seq<LineInfo>, lines: seq<string>)
    decreases |lines|
  {
    |info| == |lines| && (lines != [] ==> info[0].stripped == Strip(lines[0]) && Strips(info[1..], lines[1..]))
  }

  lemma {:induction false} DescribesStrips(info: seq<LineInfo>, lines: seq<string>)
    requires Describes(info, lines)
    ensures Strips(info, lines)
    decreases |lines|
  {
    if lines != [] {
      DescribesStrips(info[1..], lines[1..]);
    }
  }

  lemma {:induction false} StrippedAt(info: seq<LineInfo>, lines: seq<string>, k: nat)
    requires Strips(info, lines) && k < |lines|
    ensures info[k].stripped == Strip(lines[k])
    decreases k
  {
    if k > 0 {
      StrippedAt(info[1..], lines[1..], k - 1);
    }
  }

  lemma {:induction false} InfosDescribe(lines: seq<string>)
    ensures Describes(Infos(lines), lines)
    decreases |lines|
  {
    if lines != [] {
      InfosDescribe(lines[1..]);
      assert Infos(lines)[1..] == Infos(lines[1..]);
    }
  }

  /** The part of the `parse_srt` loop after a timing on line `t`: the cue's
      text lines are joined, the cue gives a segment when that text is not
      empty, and the blank lines that follow are consumed. */
  method ReadCue(videoId: string, speaker: Option<string>, lines: seq<string>, ghost info: seq<LineInfo>,
                 t: nat, startMs: nat, endMs: nat)
    returns (cue: seq<Segment>, i: nat)
    requires Strips(info, lines) && t < |lines|
    ensures cue == Cue(videoId, speaker, CueTexts(info)[t], startMs, endMs) && i == AfterCue(info, t)
  {
    i := t + 1;
    var buf;
    buf, i := ReadCueLines(lines, info, i);
    var text := Strip(Join(buf, " "));
    cue := [];
    if text != [] {
      cue := [Segment(videoId, startMs, endMs, text, speaker)];
    }
    i := SkipBlankLines(lines, info, i);
  }

  lemma AppendAssoc(a: seq<Segment>, b: seq<Segment>, c: seq<Segment>)
    ensures (a + b) + c == a + (b + c)
  {
  }

  /** The inner loop of `parse_srt` that collects the stripped text lines of
      a cue, up to the first blank line. */
  method ReadCueLines(lines: seq<string>, ghost info: seq<LineInfo>, a: nat) returns (buf: seq<string>, i: nat)
    requires Strips(info, lines) && a <= |lines|
    ensures i == TextEnd(info, a) && buf == Texts(info[a..i])
  {
    i := a;
    buf := [];
    while i < |lines| && Strip(lines[i]) != ""
      invariant a <= i <= |lines|
      invariant |buf| == i - a && forall k :: 0 <= k < |buf| ==> buf[k] == info[a + k].stripped
      invariant TextEnd(info, i) == TextEnd(info, a)
      decreases |lines| - i
    {
      StrippedAt(info, lines, i);
      buf := buf + [Strip(lines[i])];
      i := i + 1;
    }
    if i < |lines| {
      StrippedAt(info, lines, i);
    }
    assert buf == Texts(info[a..i]);
  }

  /** The loop of `parse_srt` that consumes the blank lines after a cue. */
  method SkipBlankLines(lines: seq<string>, ghost info: seq<LineInfo>, b: nat) returns (i: nat)
    requires Strips(info, lines) && b <= |lines|
    ensures i == BlankEnd(info, b)
  {
    i := b;
    while i < |lines| && Strip(lines[i]) == ""
      invariant b <= i <= |lines|
      invariant BlankEnd(info, i) == BlankEnd(info, b)
      decreases |lines| - i
    {
      StrippedAt(info, lines, i);
      i := i + 1;
    }
    if i < |lines| {
      StrippedAt(info, lines, i);
    }
  }

  // ---------------------------------------------------------------------
  // The segments and the cues they come from

  /** The segment of a cue with a timing on line `t`. */
  function CueSegment(videoId: string, speaker: Option<string>, info: seq<LineInfo>, texts: seq<string>, t: nat): Segment
    requires t < |info| == |texts| && info[t].timing.Some?
  {
    Segment(videoId, info[t].timing.value.0, info[t].timing.value.1, texts[t], speaker)
  }

  /** Line `t` holds a timing and starts a cue with non-empty text. */
  predicate StartsCue(info: seq<LineInfo>, texts: seq<string>, t: nat) {
    t < |info| == |texts| && info[t].timing.Some? && texts[t] != []
  }

  /** The timing line of a cue, if it gives a segment. */
  function CueLine(info: seq<LineInfo>, texts: seq<string>, t: nat): (r: seq<nat>)
    ensures r == [] || (r == [t] && StartsCue(info, texts, t))
  {
    if StartsCue(info, texts, t) then [t] else []
  }

  /** The timing lines, from line `i` on, of the cues that give a segment. */
  function SegmentLines(info: seq<LineInfo>, texts: seq<string>, i: nat): seq<nat>
    requires i <= |info| == |texts|
    decreases |info| - i
  {
    if i == |info| then []
    else
      var t := TimingLine(info, i);
      if t == |info| then []
      else if info[t].timing.None? then SegmentLines(info, texts, t + 1)
      else CueLine(info, texts, t) + SegmentLines(info, texts, AfterCue(info, t))
  }

  /** `ts` increases strictly, lies within `[lo, |info|)`, and each of its
      lines starts a cue with text. */
  predicate IncreasingCues(info: seq<LineInfo>, texts: seq<string>, ts: seq<nat>, lo: nat) {
    (forall k :: 0 <= k < |ts| ==> lo <= ts[k] && StartsCue(info, texts, ts[k]))
    && (forall k1, k2 :: 0 <= k1 < k2 < |ts| ==> ts[k1] < ts[k2])
  }

  /** `segs[k]` is the segment of the cue timed on line `ts[k]`. */
  predicate SegmentsOf(videoId: string, speaker: Option<string>, info: seq<LineInfo>, texts: seq<string>,
                       segs: seq<Segment>, ts: seq<nat>) {
    |segs| == |ts|
    && forall k :: 0 <= k < |ts| ==>
      ts[k] < |info| == |texts| && info[ts[k]].timing.Some? && segs[k] == CueSegment(videoId, speaker, info, texts, ts[k])
  }

  lemma IncreasingCons(info: seq<LineInfo>, texts: seq<string>, head: seq<nat>, ts: seq<nat>, lo: nat, t: nat, j: nat)
    requires lo <= t < j && (head == [] || (head == [t] && StartsCue(info, texts, t)))
    requires IncreasingCues(info, texts, ts, j)
    ensures IncreasingCues(info, texts, head + ts, lo)
  {
  }

  lemma SegmentsCons(videoId: string, speaker: Option<string>, info: seq<LineInfo>, texts: seq<string>,
                     x: seq<Segment>, head: seq<nat>, xs: seq<Segment>, ts: seq<nat>)
    requires SegmentsOf(videoId, speaker, info, texts, x, head) && SegmentsOf(videoId, speaker, info, texts, xs, ts)
    ensures SegmentsOf(videoId, speaker, info, texts, x + xs, head + ts)
  {
    var all, lines := x + xs, head + ts;
    forall k | 0 <= k < |lines|
      ensures lines[k] < |info| == |texts| && info[lines[k]].timing.Some?
      ensures all[k] == CueSegment(videoId, speaker, info, texts, lines[k])
    {
      if k < |head| {
        assert all[k] == x[k] && lines[k] == head[k];
      } else {
        assert all[k] == xs[k - |head|] && lines[k] == ts[k - |head|];
      }
    }
  }

  /** The segments from line `i` on are those of the cues timed on the
      lines `SegmentLines(info, texts, i)`, which increase strictly from `i`. */
  predicate CueOrder(videoId: string, speaker: Option<string>, info: seq<LineInfo>, texts: seq<string>, i: nat)
    requires i <= |info| == |texts|
  {
    IncreasingCues(info, texts, SegmentLines(info, texts, i), i)
    && SegmentsOf(videoId, speaker, info, texts, SrtFrom(videoId, speaker, info, texts, i), SegmentLines(info, texts, i))
  }

  /** Segments appear in the order of their cues: the `k`-th segment is the
      segment of the cue timed on line `SegmentLines(info, texts, i)[k]`,
      those lines increase strictly, and each starts a cue with text. */
  lemma {:induction false} SrtFromCueOrder(videoId: string, speaker: Option<string>, info: seq<LineInfo>, texts: seq<string>, i: nat)
    requires i <= |info| == |texts|
    ensures CueOrder(videoId, speaker, info, texts, i)
    decreases |info| - i
  {
    if i < |info| {
      var t := TimingLine(info, i);
      if t < |info| {
        if info[t].timing.None? {
          SrtFromCueOrder(videoId, speaker, info, texts, t + 1);
          CueOrderSkip(videoId, speaker, info, texts, i);
        } else {
          SrtFromCueOrder(videoId, speaker, info, texts, AfterCue(info, t));
          CueOrderCue(videoId, speaker, info, texts, i);
        }
      }
    }
  }

  lemma CueOrderSkip(videoId: string, speaker: Option<string>, info: seq<LineInfo>, texts: seq<string>, i: nat)
    requires i < |info| == |texts| && TimingLine(info, i) < |info| && info[TimingLine(info, i)].timing.None?
    requires CueOrder(videoId, speaker, info, texts, TimingLine(info, i) + 1)
    ensures CueOrder(videoId, speaker, info, texts, i)
  {
    var t := TimingLine(info, i);
    SrtSkip(videoId, speaker, info, texts, i);
    assert SrtFrom(videoId, speaker, info, texts, i) == SrtFrom(videoId, speaker, info, texts, t + 1);
    assert SegmentLines(info, texts, i) == SegmentLines(info, texts, t + 1);
  }

  lemma CueOrderCue(videoId: string, speaker: Option<string>, info: seq<LineInfo>, texts: seq<string>, i: nat)
    requires i < |info| == |texts| && TimingLine(info, i) < |info| && info[TimingLine(info, i)].timing.Some?
    requires CueOrder(videoId, speaker, info, texts, AfterCue(info, TimingLine(info, i)))
    ensures CueOrder(videoId, speaker, info, texts, i)
  {
    var t := TimingLine(info, i);
    var j := AfterCue(info, t);
    SrtCue(videoId, speaker, info, texts, i);
    var head := CueLine(info, texts, t);
    var m := info[t].timing.value;
    var cue := Cue(videoId, speaker, texts[t], m.0, m.1);
    assert SegmentsOf(videoId, speaker, info, texts, cue, head);
    assert SegmentLines(info, texts, i) == head + SegmentLines(info, texts, j);
    IncreasingCons(info, texts, head, SegmentLines(info, texts, j), i, t, j);
    SegmentsCons(videoId, speaker, info, texts, cue, head, SrtFrom(videoId, speaker, info, texts, j), SegmentLines(info, texts, j));
  }

  /** Every segment carries the given video id and speaker, and its text is
      not empty and has no surrounding whitespace. */
  lemma SrtFromFields(videoId: string, speaker: Option<string>, info: seq<LineInfo>, i: nat)
    requires i <= |info|
    ensures forall s <- SrtFrom(videoId, speaker, info, CueTexts(info), i) ::
      s.videoId == videoId && s.speaker == speaker && s.text != [] && Strip(s.text) == s.text
  {
    var texts := CueTexts(info);
    var segs := SrtFrom(videoId, speaker, info, texts, i);
    var ts := SegmentLines(info, texts, i);
    SrtFromCueOrder(videoId, speaker, info, texts, i);
    forall s <- segs ensures s.videoId == videoId && s.speaker == speaker && s.text != [] && Strip(s.text) == s.text {
      var k :| 0 <= k < |segs| && segs[k] == s;
      CueTextTrimmed(info, ts[k]);
    }
  }

  /** The text of a cue has no surrounding whitespace. */
  lemma CueTextTrimmed(info: seq<LineInfo>, t: nat)
    requires t < |info|
    ensures Strip(CueTexts(info)[t]) == CueTexts(info)[t]
  {
    StripOfTrimmed(CueText(info, t + 1, TextEnd(info, t + 1)));
  }

  /** The properties of `parse_srt`: the `k`-th segment is the segment of
      the cue timed on line `SegmentLines(info, texts, 0)[k]` of the
      content, and those lines increase strictly, so segments come in cue
      order; every segment has the given video id and speaker and a
      stripped, non-empty text; a content none of whose lines holds a
      timing gives no segment. */
  lemma ParseSrtProperties(videoId: string, content: string, speaker: Option<string>)
    ensures var info := Infos(SrtLines(content)); var texts := CueTexts(info);
      IncreasingCues(info, texts, SegmentLines(info, texts, 0), 0)
      && SegmentsOf(videoId, speaker, info, texts, SrtSegments(videoId, content, speaker), SegmentLines(info, texts, 0))
    ensures forall s <- SrtSegments(videoId, content, speaker) ::
      s.videoId == videoId && s.speaker == speaker && s.text != [] && Strip(s.text) == s.text
    ensures (forall l <- SrtLines(content) :: MatchTiming(Strip(l)).None?) ==> SrtSegments(videoId, content, speaker) == []
  {
    var lines := SrtLines(content);
    var info := Infos(lines);
    var texts := CueTexts(info);
    var ts := SegmentLines(info, texts, 0);
    SrtFromCueOrder(videoId, speaker, info, texts, 0);
    SrtFromFields(videoId, speaker, info, 0);
    assert ts != [] ==> lines[ts[0]] in lines && info[ts[0]] == InfoOf(lines[ts[0]]);
  }

  // ---------------------------------------------------------------------
  // Timings written out

  function Pad3(n: nat): string
    requires n < 1000
  {
    [DigitChar(n / 100), DigitChar(n / 10 % 10), DigitChar(n % 10)]
  }

  lemma Pad3Value(n: nat)
    requires n < 1000
    ensures |Pad3(n)| == 3 && ThreeDigitsAt(Pad3(n), 0) && ThreeDigitValue(Pad3(n), 0) == n
  {
  }

  /** The SRT clock `hh:mm:ss,mmm`. */
  function SrtTime(hh: nat, mm: nat, ss: nat, ms: nat): string
    requires hh < 100 && mm < 100 && ss < 100 && ms < 1000
  {
    Pad2(hh) + ":" + Pad2(mm) + ":" + Pad2(ss) + "," + Pad3(ms)
  }

  lemma SrtClockOfTime(hh: nat, mm: nat, ss: nat, ms: nat, rest: string)
    requires hh < 100 && mm < 100 && ss < 100 && ms < 1000
    ensures SrtClockAt(SrtTime(hh, mm, ss, ms) + rest, 0) == Some((12, TsToMs(hh, mm, ss, ms)))
  {
    Pad2Value(hh);
    Pad2Value(mm);
    Pad2Value(ss);
    Pad3Value(ms);
    var t := SrtTime(hh, mm, ss, ms) + rest;
    assert t[0] == Pad2(hh)[0] && t[1] == Pad2(hh)[1] && t[2] == ':';
    assert TwoDigitsAt(t, 0) && TwoDigitValue(t, 0) == hh;
    assert t[3] == Pad2(mm)[0] && t[4] == Pad2(mm)[1] && t[5] == ':';
    assert TwoDigitsAt(t, 3) && TwoDigitValue(t, 3) == mm;
    assert t[6] == Pad2(ss)[0] && t[7] == Pad2(ss)[1] && t[8] == ',';
    assert TwoDigitsAt(t, 6) && TwoDigitValue(t, 6) == ss;
    assert t[9] == Pad3(ms)[0] && t[10] == Pad3(ms)[1] && t[11] == Pad3(ms)[2];
    assert ThreeDigitsAt(t, 9) && ThreeDigitValue(t, 9) == ms;
  }

  lemma SrtClockShift(a: string, b: string)
    requires SrtClockAt(b, 0).Some?
    ensures SrtClockAt(a + b, |a|) == Some((|a| + 12, SrtClockAt(b, 0).value.1))
  {
    assert forall k :: 0 <= k < 12 ==> (a + b)[|a| + k] == b[k];
  }

  /** A timing line written with two SRT clocks reads back as their
      milliseconds, whatever follows it on the line. */
  lemma TimingRoundTrip(h1: nat, m1: nat, s1: nat, f1: nat, h2: nat, m2: nat, s2: nat, f2: nat, rest: string)
    requires h1 < 100 && m1 < 100 && s1 < 100 && f1 < 1000
    requires h2 < 100 && m2 < 100 && s2 < 100 && f2 < 1000
    ensures MatchTiming(SrtTime(h1, m1, s1, f1) + " --> " + SrtTime(h2, m2, s2, f2) + rest)
         == Some((TsToMs(h1, m1, s1, f1), TsToMs(h2, m2, s2, f2)))
  {
    var x, y := SrtTime(h1, m1, s1, f1), SrtTime(h2, m2, s2, f2);
    SrtTimeChars(h1, m1, s1, f1);
    SrtClockOfTime(h1, m1, s1, f1, " --> " + y + rest);
    SrtClockOfTime(h2, m2, s2, f2, rest);
    TimingOfClocks(x, y, rest, TsToMs(h1, m1, s1, f1), TsToMs(h2, m2, s2, f2));
  }

  /** Two clocks read at the start of `x + rest'` and of `y + rest` make a
      timing line when ` --> ` joins them. */
  lemma TimingOfClocks(x: string, y: string, rest: string, v1: int, v2: int)
    requires |x| == 12
    requires SrtClockAt(x + (" --> " + y + rest), 0) == Some((12, v1))
    requires SrtClockAt(y + rest, 0) == Some((12, v2))
    ensures MatchTiming(x + " --> " + y + rest) == Some((v1, v2))
  {
    ClocksAroundArrow(x, y, rest, v1, v2);
    ArrowAt(x + " --> " + y + rest, 12);
  }

  /** The two clocks and the arrow of a joined timing line, position by
      position. */
  lemma ClocksAroundArrow(x: string, y: string, rest: string, v1: int, v2: int)
    requires |x| == 12
    requires SrtClockAt(x + (" --> " + y + rest), 0) == Some((12, v1))
    requires SrtClockAt(y + rest, 0) == Some((12, v2))
    ensures var l := x + " --> " + y + rest;
      SrtClockAt(l, 0) == Some((12, v1)) && SrtClockAt(l, 17) == Some((29, v2))
      && 17 <= |l| && l[12] == ' ' && l[13] == '-' && l[14] == '-' && l[15] == '>' && l[16] == ' '
  {
    Regroup(x, y, rest);
    SrtClockShift(x + " --> ", y + rest);
    ArrowFollows(x, y + rest);
  }

  lemma Regroup(x: string, y: string, rest: string)
    ensures x + " --> " + y + rest == x + (" --> " + y + rest)
    ensures x + " --> " + y + rest == (x + " --> ") + (y + rest)
  {
  }

  /** After a twelve-character clock, ` --> ` fills positions 12 to 16. */
  lemma ArrowFollows(x: string, tail: string)
    requires |x| == 12
    ensures var l := (x + " --> ") + tail;
      17 <= |l| && l[12] == ' ' && l[13] == '-' && l[14] == '-' && l[15] == '>' && l[16] == ' '
  {
    var a := x + " --> ";
    assert a[12] == ' ' && a[13] == '-' && a[14] == '-' && a[15] == '>' && a[16] == ' ';
    assert forall k :: 0 <= k < |a| ==> (a + tail)[k] == a[k];
  }

  /** The characters of an SRT clock: digits, `:` and `,`, with a digit at
      both ends. */
  lemma SrtTimeChars(hh: nat, mm: nat, ss: nat, ms: nat)
    requires hh < 100 && mm < 100 && ss < 100 && ms < 1000
    ensures var t := SrtTime(hh, mm, ss, ms);
      |t| == 12 && IsDigit(t[0]) && IsDigit(t[11])
      && forall i :: 0 <= i < 12 ==> IsDigit(t[i]) || t[i] == ':' || t[i] == ','
  {
    Pad2Value(hh);
    Pad2Value(mm);
    Pad2Value(ss);
    Pad3Value(ms);
    var t := SrtTime(hh, mm, ss, ms);
    assert t[0] == Pad2(hh)[0] && t[1] == Pad2(hh)[1] && t[2] == ':';
    assert t[3] == Pad2(mm)[0] && t[4] == Pad2(mm)[1] && t[5] == ':';
    assert t[6] == Pad2(ss)[0] && t[7] == Pad2(ss)[1] && t[8] == ',';
    assert t[9] == Pad3(ms)[0] && t[10] == Pad3(ms)[1] && t[11] == Pad3(ms)[2];
  }

  /** The timing line `hh:mm:ss,mmm --> hh:mm:ss,mmm`. */
  function TimingText(h1: nat, m1: nat, s1: nat, f1: nat, h2: nat, m2: nat, s2: nat, f2: nat): string
    requires h1 < 100 && m1 < 100 && s1 < 100 && f1 < 1000
    requires h2 < 100 && m2 < 100 && s2 < 100 && f2 < 1000
  {
    SrtTime(h1, m1, s1, f1) + " --> " + SrtTime(h2, m2, s2, f2)
  }

  /** A timing line holds no line break and no surrounding whitespace. */
  lemma TimingTextChars(h1: nat, m1: nat, s1: nat, f1: nat, h2: nat, m2: nat, s2: nat, f2: nat)
    requires h1 < 100 && m1 < 100 && s1 < 100 && f1 < 1000
    requires h2 < 100 && m2 < 100 && s2 < 100 && f2 < 1000
    ensures var l := TimingText(h1, m1, s1, f1, h2, m2, s2, f2);
      |l| == 29 && !IsSpace(l[0]) && !IsSpace(l[28]) && forall i :: 0 <= i < |l| ==> !IsLineBreak(l[i])
  {
    SrtTimeChars(h1, m1, s1, f1);
    SrtTimeChars(h2, m2, s2, f2);
    ArrowJoinChars(SrtTime(h1, m1, s1, f1), SrtTime(h2, m2, s2, f2));
  }

  /** Two clocks joined by ` --> `. */
  lemma ArrowJoinChars(x: string, y: string)
    requires |x| == 12 && IsDigit(x[0]) && forall i :: 0 <= i < 12 ==> IsDigit(x[i]) || x[i] == ':' || x[i] == ','
    requires |y| == 12 && IsDigit(y[11]) && forall i :: 0 <= i < 12 ==> IsDigit(y[i]) || y[i] == ':' || y[i] == ','
    ensures var l := x + " --> " + y;
      |l| == 29 && !IsSpace(l[0]) && !IsSpace(l[28]) && forall i :: 0 <= i < |l| ==> !IsLineBreak(l[i])
  {
    var l := x + " --> " + y;
    forall i | 0 <= i < |l| ensures !IsLineBreak(l[i]) {
      if i < 12 {
        assert l[i] == x[i];
      } else if i < 17 {
        assert l[i] == " --> "[i - 12];
      } else {
        assert l[i] == y[i - 17];
      }
    }
    assert l[0] == x[0] && l[28] == y[11];
  }

  /** A file holding one cue, written as an index, a timing line and one
      line of text, reads back as that one segment: the start and end are
      the clocks' milliseconds and the text is the line. The test suite's
      example is the index 1, the clocks 0 and 1000 ms and `Hello world`. */
  lemma SingleCueRoundTrip(videoId: string, speaker: Option<string>, n: nat,
                           h1: nat, m1: nat, s1: nat, f1: nat, h2: nat, m2: nat, s2: nat, f2: nat, text: string)
    requires h1 < 100 && m1 < 100 && s1 < 100 && f1 < 1000
    requires h2 < 100 && m2 < 100 && s2 < 100 && f2 < 1000
    requires text != [] && !IsSpace(text[0]) && !IsSpace(text[|text| - 1])
    requires forall i :: 0 <= i < |text| ==> !IsLineBreak(text[i])
    ensures SrtSegments(videoId, Decimal(n) + "\n" + TimingText(h1, m1, s1, f1, h2, m2, s2, f2) + "\n" + text + "\n", speaker)
         == [Segment(videoId, TsToMs(h1, m1, s1, f1), TsToMs(h2, m2, s2, f2), text, speaker)]
  {
    var d := Decimal(n);
    var timing := TimingText(h1, m1, s1, f1, h2, m2, s2, f2);
    TimingTextChars(h1, m1, s1, f1, h2, m2, s2, f2);
    IndexLineOf(n);
    OneCueLines(d, timing, text);
    TimingLineOf(h1, m1, s1, f1, h2, m2, s2, f2);
    OneCueSegments(videoId, speaker, d, timing, text, TsToMs(h1, m1, s1, f1), TsToMs(h2, m2, s2, f2));
  }

  /** `str(n)` is an index line without line breaks. */
  lemma IndexLineOf(n: nat)
    ensures IsIndexLine(Decimal(n)) && forall i :: 0 <= i < |Decimal(n)| ==> !IsLineBreak(Decimal(n)[i])
  {
    DecimalDigits(n);
    StripOfTrimmed(Decimal(n));
  }

  /** A timing line, stripped, matches with the clocks' milliseconds. */
  lemma TimingLineOf(h1: nat, m1: nat, s1: nat, f1: nat, h2: nat, m2: nat, s2: nat, f2: nat)
    requires h1 < 100 && m1 < 100 && s1 < 100 && f1 < 1000
    requires h2 < 100 && m2 < 100 && s2 < 100 && f2 < 1000
    ensures MatchTiming(Strip(TimingText(h1, m1, s1, f1, h2, m2, s2, f2)))
         == Some((TsToMs(h1, m1, s1, f1), TsToMs(h2, m2, s2, f2)))
  {
    var timing := TimingText(h1, m1, s1, f1, h2, m2, s2, f2);
    TimingTextChars(h1, m1, s1, f1, h2, m2, s2, f2);
    StripOfTrimmed(timing);
    TimingRoundTrip(h1, m1, s1, f1, h2, m2, s2, f2, "");
    assert timing + "" == timing;
  }

  /** An index line, a timing line and a line of text. */
  lemma OneCueSegments(videoId: string, speaker: Option<string>, index: string, timing: string, text: string,
                        startMs: nat, endMs: nat)
    requires IsIndexLine(index) && MatchTiming(Strip(timing)) == Some((startMs, endMs))
    requires text != [] && !IsSpace(text[0]) && !IsSpace(text[|text| - 1])
    ensures var info := Infos([index, timing, text]);
      SrtFrom(videoId, speaker, info, CueTexts(info), 0) == [Segment(videoId, startMs, endMs, text, speaker)]
  {
    var info := Infos([index, timing, text]);
    var texts := CueTexts(info);
    StripOfTrimmed(text);
    assert info[0].index && info[1].timing == Some((startMs, endMs)) && info[2].stripped == text;
    OneLineCue(info);
    SrtCue(videoId, speaker, info, texts, 0);
  }

  /** Three lines, each ended by `\n`, split into those three lines. */
  lemma OneCueLines(a: string, b: string, c: string)
    requires forall i :: 0 <= i < |a| ==> !IsLineBreak(a[i])
    requires forall i :: 0 <= i < |b| ==> !IsLineBreak(b[i])
    requires forall i :: 0 <= i < |c| ==> !IsLineBreak(c[i])
    ensures SrtLines(a + "\n" + b + "\n" + c + "\n") == [a, b, c]
  {
    var content := a + "\n" + b + "\n" + c + "\n";
    SrtLinesAreSplitLines(content);
    ThreeLines(a, b, c);
  }

  lemma ThreeLines(a: string, b: string, c: string)
    requires forall i :: 0 <= i < |a| ==> !IsLineBreak(a[i])
    requires forall i :: 0 <= i < |b| ==> !IsLineBreak(b[i])
    requires forall i :: 0 <= i < |c| ==> !IsLineBreak(c[i])
    ensures SplitLines(a + "\n" + b + "\n" + c + "\n") == [a, b, c]
  {
    var rest := b + "\n" + c + "\n";
    assert a + "\n" + b + "\n" + c + "\n" == a + "\n" + rest;
    TwoLines(b, c);
    SplitLinesCons(a, rest);
  }

  lemma TwoLines(b: string, c: string)
    requires forall i :: 0 <= i < |b| ==> !IsLineBreak(b[i])
    requires forall i :: 0 <= i < |c| ==> !IsLineBreak(c[i])
    ensures SplitLines(b + "\n" + c + "\n") == [b, c]
  {
    var rest := c + "\n";
    assert b + "\n" + c + "\n" == b + "\n" + rest;
    SplitLinesCons(b, rest);
    SplitLinesLast(c);
  }

  /** A timing on line 1 and one non-blank line after it: the cue's text
      is that line, and the lines end after it. */
  lemma OneLineCue(info: seq<LineInfo>)
    requires |info| == 3 && info[2].stripped != [] && Strip(info[2].stripped) == info[2].stripped
    ensures TextEnd(info, 2) == 3 && AfterCue(info, 1) == 3
    ensures CueTexts(info)[1] == info[2].stripped
  {
    assert Texts(info[2..3]) == [info[2].stripped];
  }

  /** After a clock that ends at `e`, the separator ` --> ` and a second
      clock make a timing. */
  lemma ArrowAt(l: string, e: nat)
    requires SrtClockAt(l, 0).Some? && SrtClockAt(l, 0).value.0 == e
    requires e + 5 <= |l| && l[e] == ' ' && l[e + 1] == '-' && l[e + 2] == '-' && l[e + 3] == '>' && l[e + 4] == ' '
    requires SrtClockAt(l, e + 5).Some?
    ensures MatchTiming(l) == Some((SrtClockAt(l, 0).value.1, SrtClockAt(l, e + 5).value.1))
  {
    assert SkipSpace(l, e + 1) == e + 1;
    assert SkipSpace(l, e) == e + 1;
    assert SkipSpace(l, e + 5) == e + 5;
    assert SkipSpace(l, e + 4) == e + 5;
  }

  // ---------------------------------------------------------------------
  // Loading a transcript file

  /** The minimal WebVTT support of `load_transcript_file`: every `WEBVTT`
      is removed, the rest is stripped, and every `.` becomes `,`, so that
      the SRT timing pattern matches the VTT clocks. */
  function VttToSrt(content: string): string {
    Replace(Strip(Replace(content, "WEBVTT", "")), ".", ",")
  }

  /** `load_transcript_file` on a file with suffix `suffix` and text
      `content`; `parseJson` stands for `parse_json_segments`. */
  function LoadTranscript(suffix: string, content: string, videoId: string,
                          parseJson: (string, string) -> Result<seq<Segment>>): Result<seq<Segment>> {
    var ext := Lower(suffix);
    if ext == ".srt" then Ok(SrtSegments(videoId, content, None))
    else if ext == ".json" then parseJson(videoId, content)
    else if ext == ".vtt" then Ok(SrtSegments(videoId, VttToSrt(content), None))
    else Err(ValueError("Unsupported transcript format: " + ext))
  }

  /** The suffix is compared without regard to case. */
  lemma LoadCaseInsensitive(suffix: string, content: string, videoId: string,
                            parseJson: (string, string) -> Result<seq<Segment>>)
    ensures LoadTranscript(suffix, content, videoId, parseJson) == LoadTranscript(Lower(suffix), content, videoId, parseJson)
  {
    LowerIdempotent(suffix);
  }

  /** Loading fails exactly for an unsupported suffix, whose error names
      the lowered suffix, or when the JSON reader fails; SRT and VTT files
      always load. */
  lemma LoadErrors(suffix: string, content: string, videoId: string,
                   parseJson: (string, string) -> Result<seq<Segment>>)
    ensures var ext := Lower(suffix);
      LoadTranscript(suffix, content, videoId, parseJson).Err?
      <==> (ext == ".json" && parseJson(videoId, content).Err?) || (ext != ".srt" && ext != ".json" && ext != ".vtt")
    ensures var ext := Lower(suffix);
      ext != ".srt" && ext != ".json" && ext != ".vtt" ==>
      LoadTranscript(suffix, content, videoId, parseJson) == Err(ValueError("Unsupported transcript format: " + ext))
  {
  }

  /** A VTT file that is already SRT text (stripped, without `WEBVTT` and
      without `.`) loads as the SRT file would. */
  lemma VttOfPlainSrt(content: string, videoId: string, parseJson: (string, string) -> Result<seq<Segment>>)
    requires Strip(content) == content && Absent(content, "WEBVTT") && Absent(content, ".")
    ensures LoadTranscript(".vtt", content, videoId, parseJson) == LoadTranscript(".srt", content, videoId, parseJson)
  {
    ReplaceAbsent(content, "WEBVTT", "");
    ReplaceAbsent(content, ".", ",");
    assert Lower(".vtt") == ".vtt" && Lower(".srt") == ".srt";
  }

  /** The VTT clock `hh:mm:ss.mmm`. */
  function VttTime(hh: nat, mm: nat, ss: nat, ms: nat): string
    requires hh < 100 && mm < 100 && ss < 100 && ms < 1000
  {
    Pad2(hh) + ":" + Pad2(mm) + ":" + Pad2(ss) + "." + Pad3(ms)
  }

  /** The rewrite of `.` to `,` turns a VTT clock into the SRT clock. */
  lemma VttTimeToSrt(hh: nat, mm: nat, ss: nat, ms: nat)
    requires hh < 100 && mm < 100 && ss < 100 && ms < 1000
    ensures Replace(VttTime(hh, mm, ss, ms), ".", ",") == SrtTime(hh, mm, ss, ms)
  {
    var u := Pad2(hh) + ":" + Pad2(mm) + ":" + Pad2(ss);
    SrtTimeChars(hh, mm, ss, ms);
    assert SrtTime(hh, mm, ss, ms) == u + "," + Pad3(ms);
    assert forall i :: 0 <= i < |u| ==> u[i] == SrtTime(hh, mm, ss, ms)[i];
    NoDot(u);
    NoDot(Pad3(ms));
    ReplaceCharAppend(u + ".", Pad3(ms), '.', ',');
    ReplaceCharAppend(u, ".", '.', ',');
    assert Replace(".", ".", ",") == ",";
  }

  /** Text of digits, `:` and `,` is unchanged by the rewrite. */
  lemma NoDot(u: string)
    requires forall i :: 0 <= i < |u| ==> IsDigit(u[i]) || u[i] == ':' || u[i] == ','
    ensures Replace(u, ".", ",") == u
  {
    ReplaceChar(u, '.', ',');
  }

  /** A VTT timing line reads, after the rewrite, as the SRT timing of the
      same clocks. */
  lemma VttTimingReadsAsSrt(h1: nat, m1: nat, s1: nat, f1: nat, h2: nat, m2: nat, s2: nat, f2: nat, rest: string)
    requires h1 < 100 && m1 < 100 && s1 < 100 && f1 < 1000
    requires h2 < 100 && m2 < 100 && s2 < 100 && f2 < 1000
    ensures MatchTiming(Replace(VttTime(h1, m1, s1, f1) + " --> " + VttTime(h2, m2, s2, f2) + rest, ".", ","))
         == Some((TsToMs(h1, m1, s1, f1), TsToMs(h2, m2, s2, f2)))
  {
    VttTimingRewrite(h1, m1, s1, f1, h2, m2, s2, f2, rest);
    TimingRoundTrip(h1, m1, s1, f1, h2, m2, s2, f2, Replace(rest, ".", ","));
  }

  lemma VttTimingRewrite(h1: nat, m1: nat, s1: nat, f1: nat, h2: nat, m2: nat, s2: nat, f2: nat, rest: string)
    requires h1 < 100 && m1 < 100 && s1 < 100 && f1 < 1000
    requires h2 < 100 && m2 < 100 && s2 < 100 && f2 < 1000
    ensures Replace(VttTime(h1, m1, s1, f1) + " --> " + VttTime(h2, m2, s2, f2) + rest, ".", ",")
         == SrtTime(h1, m1, s1, f1) + " --> " + SrtTime(h2, m2, s2, f2) + Replace(rest, ".", ",")
  {
    VttTimeToSrt(h1, m1, s1, f1);
    VttTimeToSrt(h2, m2, s2, f2);
    RewriteArrow(VttTime(h1, m1, s1, f1), VttTime(h2, m2, s2, f2), rest);
  }

  lemma RewriteArrow(x: string, y: string, rest: string)
    ensures Replace(x + " --> " + y + rest, ".", ",")
         == Replace(x, ".", ",") + " --> " + Replace(y, ".", ",") + Replace(rest, ".", ",")
  {
    ReplaceCharAppend(x + " --> " + y, rest, '.', ',');
    ReplaceCharAppend(x + " --> ", y, '.', ',');
    ReplaceCharAppend(x, " --> ", '.', ',');
    ReplaceAbsent(" --> ", ".", ",");
  }

  /** A VTT clock without hours, `mm:ss.mmm`, is not an SRT clock after
      the rewrite either, so a cue timed that way is skipped. */
  lemma ShortVttTimingSkipped(mm: nat, ss: nat, ms: nat, rest: string)
    requires mm < 100 && ss < 100 && ms < 1000
    ensures MatchTiming(Replace(Pad2(mm) + ":" + Pad2(ss) + "." + Pad3(ms) + rest, ".", ",")) == None
  {
    Pad2Value(mm);
    Pad2Value(ss);
    var l := Replace(Pad2(mm) + ":" + Pad2(ss) + "." + Pad3(ms) + rest, ".", ",");
    ReplaceChar(Pad2(mm) + ":" + Pad2(ss) + "." + Pad3(ms) + rest, '.', ',');
    assert (Pad2(mm) + ":" + Pad2(ss) + "." + Pad3(ms) + rest)[5] == '.';
    assert l[5] == ',';
  }
}
