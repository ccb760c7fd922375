/** `parse_chapters_from_description`: the lines of a video description that
    start with a chapter timestamp, as `(start_ms, title)` pairs sorted by
    time. */
module Chapters {
  import opened Wrappers
  import opened Text
  import opened Types
  import opened Sorting

  /** `(start_ms, title)`. */
  type Chapter = (int, string)

  function StartOf(): Chapter -> int { (c: Chapter) => c.0 }

  predicate SpaceAt(l: string, i: nat) {
    i < |l| && IsSpace(l[i])
  }

  /** The `ts` group of `^(?:\d\d:)?\d\d:\d\d\s` at the start of `l`: the
      long alternative is tried first and the short one on backtracking.
      The end of the group and its value in seconds. */
  function ChapterClock(l: string): (r: Option<(nat, nat)>)
    ensures r.Some? ==> r.value.0 < |l| && IsSpace(l[r.value.0])
  {
    var long := ClockLongAt(l, 0);
    var short := ClockShortAt(l, 0);
    if long.Some? && SpaceAt(l, long.value.0) then long
    else if short.Some? && SpaceAt(l, short.value.0) then short
    else None
  }

  /** The match of the chapter pattern against one stripped line: after the
      timestamp, `\s+` takes the whole run of whitespace and the lazy title
      `.+?` followed by `\s*$` is the rest without its trailing whitespace,
      which may not hold a `\n`. The title is stripped again, and the
      start is the timestamp's seconds times 1000. */
  function ParseLine(line: string): Option<Chapter> {
    var l := Strip(line);
    match ChapterClock(l)
    case None => None
    case Some((e, secs)) =>
      var group := RStrip(LStrip(l[e..]));
      if group == [] || '\n' in group then None
      else Some((secs * 1000, Strip(group)))
  }

  /** The chapters of `lines` in line order, before the sort. */
  function Candidates(lines: seq<string>): seq<Chapter> {
    if lines == [] then []
    else
      var last := lines[|lines| - 1];
      Candidates(lines[..|lines| - 1]) + (if ParseLine(last).Some? then [ParseLine(last).value] else [])
  }

  /** What `parse_chapters_from_description` returns. */
  function ParseChapters(description: string): seq<Chapter> {
    IntAscendingTotal();
    SortBy(Candidates(SplitLines(description)), StartOf(), IntAscending())
  }

  method ParseChaptersFromDescription(description: string) returns (chapters: seq<Chapter>)
    ensures chapters == ParseChapters(description)
  {
    var lines := SplitLines(description);
    chapters := [];
    for i := 0 to |lines|
      invariant chapters == Candidates(lines[..i])
    {
      CandidatesPrefix(lines, i);
      var m := ParseLine(lines[i]);
      if m.None? {
        continue;
      }
      chapters := chapters + [m.value];
    }
    assert lines[..|lines|] == lines;
    IntAscendingTotal();
    chapters := SortBy(chapters, StartOf(), IntAscending());
  }

  lemma CandidatesPrefix(lines: seq<string>, i: nat)
    requires i < |lines|
    ensures Candidates(lines[..i + 1])
         == Candidates(lines[..i]) + (if ParseLine(lines[i]).Some? then [ParseLine(lines[i]).value] else [])
  {
    assert lines[..i + 1][..i] == lines[..i];
  }

  /** A parsed chapter has a non-empty title without surrounding
      whitespace, and starts at a whole number of seconds. */
  lemma ParseLineTitle(line: string)
    requires ParseLine(line).Some?
    ensures ParseLine(line).value.1 != [] && Strip(ParseLine(line).value.1) == ParseLine(line).value.1
    ensures ParseLine(line).value.0 >= 0 && ParseLine(line).value.0 % 1000 == 0
  {
    var l := Strip(line);
    var e := ChapterClock(l).value.0;
    var group := RStrip(LStrip(l[e..]));
    var t := Strip(group);
    StripEmptyIffAllSpace(group);
    assert !AllSpace(group) by {
      assert !IsSpace(group[0]);
    }
    StripOfTrimmed(t);
  }

  /** Every field of the timestamp must have two digits: the example
      `1:02:03 Something` in the source's comment is not a chapter line. */
  lemma OneDigitHourRejected()
    ensures ParseLine("1:02:03 Something") == None
  {
    var l := "1:02:03 Something";
    StripOfTrimmed(l);
    assert !IsDigit(l[1]);
    assert ChapterClock(l) == None;
  }

  lemma IntroAccepted()
    ensures ParseLine("00:00 Intro") == Some((0, "Intro"))
  {
    ZeroTimestamp();
    TimestampLineRoundTrip(0, "Intro");
    assert MsToTimestamp(0) + " " + "Intro" == "00:00 Intro";
  }

  lemma ZeroTimestamp()
    ensures MsToTimestamp(0) == "00:00"
  {
    assert Pad2(0) == "00";
  }

  /** A line written as `ms_to_timestamp(ms) + " " + title`, below 100 hours
      and with a stripped one-line title, reads back as the chapter at the
      whole second of `ms` with that title. */
  lemma TimestampLineRoundTrip(ms: int, title: string)
    requires 0 <= ms < 100 * 3600 * 1000
    requires title != [] && !IsSpace(title[0]) && !IsSpace(title[|title| - 1])
    requires '\n' !in title
    ensures ParseLine(MsToTimestamp(ms) + " " + title) == Some((ms / 1000 * 1000, title))
  {
    var ts := MsToTimestamp(ms);
    var l := ts + " " + title;
    TimestampRoundTrip(ms);
    TimestampDigits(ms);
    StripOfTrimmed(l);
    ChapterClockOfTimestamp(ts, l, ms);
    TitleAfterSpace(ts, title);
  }

  lemma TitleAfterSpace(ts: string, title: string)
    requires title != [] && !IsSpace(title[0]) && !IsSpace(title[|title| - 1])
    ensures (ts + " " + title)[|ts|..] == " " + title
    ensures RStrip(LStrip(" " + title)) == title && Strip(title) == title
  {
    assert LStrip(" " + title) == title by {
      assert (" " + title)[1..] == title;
    }
    StripOfTrimmed(title);
  }

  /** The rendering starts with two digits: it is not blank at either end. */
  lemma TimestampDigits(ms: int)
    requires 0 <= ms
    ensures |MsToTimestamp(ms)| >= 5 && IsDigit(MsToTimestamp(ms)[0])
  {
    var s := ms / 1000;
    var hh, mm, ss := s / 3600, (s % 3600) / 60, s % 60;
    Pad2Spec(hh);
    Pad2Spec(mm);
    Pad2Spec(ss);
    if hh > 0 {
      assert MsToTimestamp(ms)[0] == Pad2(hh)[0];
    } else {
      assert MsToTimestamp(ms)[0] == Pad2(mm)[0];
    }
  }

  /** A clock prefix of length 8 or 5 followed by a space is what
      `ChapterClock` finds. */
  lemma ChapterClockOfTimestamp(ts: string, l: string, ms: int)
    requires 0 <= ms < 100 * 3600 * 1000
    requires ts == MsToTimestamp(ms) && |l| > |ts| && l[..|ts|] == ts && l[|ts|] == ' '
    ensures ChapterClock(l) == Some((|ts|, ms / 1000))
  {
    TimestampRoundTrip(ms);
    ClockPrefix(ts, l);
    if |ts| == 8 {
      assert ClockLongAt(ts, 0).Some?;
    } else {
      assert ClockLongAt(l, 0) == None by {
        assert l[5] == ' ';
      }
    }
  }

  /** The clock alternatives read only the first eight characters. */
  lemma ClockPrefix(ts: string, l: string)
    requires |ts| <= |l| && l[..|ts|] == ts
    ensures ClockShortAt(ts, 0).Some? ==> ClockShortAt(l, 0) == ClockShortAt(ts, 0)
    ensures ClockLongAt(ts, 0).Some? ==> ClockLongAt(l, 0) == ClockLongAt(ts, 0)
  {
    if ClockShortAt(ts, 0).Some? {
      assert forall i :: 0 <= i < 5 ==> l[i] == ts[i];
    }
    if ClockLongAt(ts, 0).Some? {
      assert forall i :: 0 <= i < 8 ==> l[i] == ts[i];
    }
  }

  /** Every candidate comes from a line that parses to it, and every line
      that parses contributes its chapter; there are at most as many
      candidates as lines. */
  lemma {:induction false} CandidatesShape(lines: seq<string>)
    ensures |Candidates(lines)| <= |lines|
    ensures forall c <- Candidates(lines) :: exists l <- lines :: ParseLine(l) == Some(c)
    ensures forall l <- lines :: ParseLine(l).Some? ==> ParseLine(l).value in Candidates(lines)
  {
    if lines != [] {
      var init := lines[..|lines| - 1];
      var last := lines[|lines| - 1];
      CandidatesShape(init);
      assert lines == init + [last];
      forall c <- Candidates(lines) ensures exists l <- lines :: ParseLine(l) == Some(c) {
        if c in Candidates(init) {
          var l :| l in init && ParseLine(l) == Some(c);
          assert l in lines;
        } else {
          assert ParseLine(last) == Some(c);
        }
      }
    }
  }

  /** The properties of `parse_chapters_from_description`: no more chapters
      than lines and none for an empty description; each chapter is what
      some line parses to, with a stripped, non-empty title, and each line
      that parses gives a chapter; the chapters are in non-decreasing time
      order, and chapters at the same time keep their line order. */
  lemma ParseChaptersProperties(description: string)
    ensures |ParseChapters(description)| <= |SplitLines(description)|
    ensures description == [] ==> ParseChapters(description) == []
    ensures forall c <- ParseChapters(description) ::
      (exists l <- SplitLines(description) :: ParseLine(l) == Some(c)) && c.1 != [] && Strip(c.1) == c.1
    ensures forall l <- SplitLines(description) :: ParseLine(l).Some? ==> ParseLine(l).value in ParseChapters(description)
    ensures forall i, j :: 0 <= i < j < |ParseChapters(description)| ==>
      ParseChapters(description)[i].0 <= ParseChapters(description)[j].0
    ensures forall t :: WithKey(ParseChapters(description), StartOf(), t)
                     == WithKey(Candidates(SplitLines(description)), StartOf(), t)
  {
    var lines := SplitLines(description);
    var cands := Candidates(lines);
    var r := ParseChapters(description);
    IntAscendingTotal();
    CandidatesShape(lines);
    assert multiset(r) == multiset(cands);
    forall c <- r ensures (exists l <- lines :: ParseLine(l) == Some(c)) && c.1 != [] && Strip(c.1) == c.1 {
      assert c in multiset(cands);
      var l :| l in lines && ParseLine(l) == Some(c);
      ParseLineTitle(l);
    }
    forall l <- lines | ParseLine(l).Some? ensures ParseLine(l).value in r {
      assert ParseLine(l).value in multiset(cands);
    }
    assert SortedBy(r, StartOf(), IntAscending());
    forall i, j | 0 <= i < j < |r| ensures r[i].0 <= r[j].0 {
      assert !IntAscending()(StartOf()(r[j]), StartOf()(r[i]));
    }
  }
}
