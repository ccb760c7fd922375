/** The record types shared by the pipeline (frozen dataclasses in the source),
    the `hh:mm:ss` / `mm:ss` rendering of milliseconds, and the clock pattern
    `(?:\d\d:)?\d\d:\d\d` that chapter markers and citations are written in. */
module Types {
  import opened Wrappers
  import opened Text

  datatype Channel = Channel(channelId: string, title: string, description: string, source: string)

  datatype Video = Video(
    videoId: string, channelId: string, title: string, description: string,
    publishedAt: string, durationSec: int, url: string)

  datatype Segment = Segment(videoId: string, startMs: int, endMs: int, text: string, speaker: Option<string>)

  datatype MicroChunk = MicroChunk(videoId: string, startMs: int, endMs: int, text: string, sectionId: Option<int>)

  datatype Section = Section(videoId: string, startMs: int, endMs: int, title: string, summary: string)

  datatype RetrievedChunk = RetrievedChunk(
    videoId: string, title: string, url: string, startMs: int, endMs: int, text: string, score: real)

  /** `ms_to_timestamp`: whole seconds (floor division), then `hh:mm:ss` when
      the hour count is positive and `mm:ss` otherwise. */
  function MsToTimestamp(ms: int): string {
    var s := ms / 1000;
    var hh := s / 3600;
    var mm := (s % 3600) / 60;
    var ss := s % 60;
    if hh > 0 then Pad2(hh) + ":" + Pad2(mm) + ":" + Pad2(ss)
    else Pad2(mm) + ":" + Pad2(ss)
  }

  predicate TwoDigitsAt(s: string, i: nat) {
    i + 2 <= |s| && IsDigit(s[i]) && IsDigit(s[i + 1])
  }

  function TwoDigitValue(s: string, i: nat): nat
    requires TwoDigitsAt(s, i)
  {
    DigitValue(s[i]) * 10 + DigitValue(s[i + 1])
  }

  /** The `\d\d:\d\d:\d\d` alternative at `i`: its end and its value in seconds. */
  function ClockLongAt(s: string, i: nat): (r: Option<(nat, nat)>)
    ensures r.Some? ==> r.value.0 == i + 8 <= |s|
  {
    if TwoDigitsAt(s, i) && i + 2 < |s| && s[i + 2] == ':' && TwoDigitsAt(s, i + 3)
       && i + 5 < |s| && s[i + 5] == ':' && TwoDigitsAt(s, i + 6)
    then Some((i + 8, TwoDigitValue(s, i) * 3600 + TwoDigitValue(s, i + 3) * 60 + TwoDigitValue(s, i + 6)))
    else None
  }

  /** The `\d\d:\d\d` alternative at `i`: its end and its value in seconds. */
  function ClockShortAt(s: string, i: nat): (r: Option<(nat, nat)>)
    ensures r.Some? ==> r.value.0 == i + 5 <= |s|
  {
    if TwoDigitsAt(s, i) && i + 2 < |s| && s[i + 2] == ':' && TwoDigitsAt(s, i + 3)
    then Some((i + 5, TwoDigitValue(s, i) * 60 + TwoDigitValue(s, i + 3)))
    else None
  }

  /** The seconds a whole string in the clock pattern stands for. */
  function ParseClock(t: string): Option<nat> {
    match ClockLongAt(t, 0)
    case Some((e, v)) => if e == |t| then Some(v) else ParseShort(t)
    case None => ParseShort(t)
  }

  function ParseShort(t: string): Option<nat> {
    match ClockShortAt(t, 0)
    case Some((e, v)) => if e == |t| then Some(v) else None
    case None => None
  }

  lemma Pad2Value(n: nat)
    requires n < 100
    ensures |Pad2(n)| == 2 && TwoDigitsAt(Pad2(n), 0) && TwoDigitValue(Pad2(n), 0) == n
  {
    Pad2Spec(n);
    var p := Pad2(n);
    assert p[..1][..0] == [];
    assert DigitsValue(p[..1]) == DigitValue(p[0]);
    assert p[..|p| - 1] == p[..1];
    assert DigitsValue(p) == DigitValue(p[0]) * 10 + DigitValue(p[1]);
  }

  lemma TwoDigitsShift(a: string, b: string, i: nat)
    requires TwoDigitsAt(b, 0) && i == |a|
    ensures TwoDigitsAt(a + b, i) && TwoDigitValue(a + b, i) == TwoDigitValue(b, 0)
  {
    assert (a + b)[i] == b[0] && (a + b)[i + 1] == b[1];
  }

  /** The long rendering `hh:mm:ss` of two-digit fields reads back as their seconds. */
  lemma ClockLongOfFields(hh: nat, mm: nat, ss: nat)
    requires hh < 100 && mm < 100 && ss < 100
    ensures ClockLongAt(Pad2(hh) + ":" + Pad2(mm) + ":" + Pad2(ss), 0) == Some((8, hh * 3600 + mm * 60 + ss))
  {
    Pad2Value(hh);
    Pad2Value(mm);
    Pad2Value(ss);
    var t := Pad2(hh) + ":" + Pad2(mm) + ":" + Pad2(ss);
    assert t[0] == Pad2(hh)[0] && t[1] == Pad2(hh)[1];
    assert t[3] == Pad2(mm)[0] && t[4] == Pad2(mm)[1];
    assert t[6] == Pad2(ss)[0] && t[7] == Pad2(ss)[1];
    assert t[2] == ':' && t[5] == ':';
  }

  /** The short rendering `mm:ss` of two-digit fields reads back as their
      seconds, and is too short for the long form. */
  lemma ClockShortOfFields(mm: nat, ss: nat)
    requires mm < 100 && ss < 100
    ensures ClockShortAt(Pad2(mm) + ":" + Pad2(ss), 0) == Some((5, mm * 60 + ss))
    ensures ClockLongAt(Pad2(mm) + ":" + Pad2(ss), 0) == None
  {
    Pad2Value(mm);
    Pad2Value(ss);
    var t := Pad2(mm) + ":" + Pad2(ss);
    assert t[0] == Pad2(mm)[0] && t[1] == Pad2(mm)[1];
    assert t[3] == Pad2(ss)[0] && t[4] == Pad2(ss)[1];
    assert t[2] == ':';
  }

  /** Below 100 hours, the rendering is in the clock pattern and reads back
      as the whole number of seconds: the rendering loses exactly the
      milliseconds. */
  lemma TimestampRoundTrip(ms: int)
    requires 0 <= ms < 100 * 3600 * 1000
    ensures ParseClock(MsToTimestamp(ms)) == Some(ms / 1000)
    ensures |MsToTimestamp(ms)| == if ms / 1000 >= 3600 then 8 else 5
  {
    var s := ms / 1000;
    var hh, mm, ss := s / 3600, (s % 3600) / 60, s % 60;
    assert s == hh * 3600 + mm * 60 + ss;
    Pad2Value(mm);
    Pad2Value(ss);
    if hh > 0 {
      Pad2Value(hh);
      ClockLongOfFields(hh, mm, ss);
    } else {
      ClockShortOfFields(mm, ss);
    }
  }

  /** Below 100 hours, two times render alike exactly when they fall in the
      same whole second. */
  lemma TimestampSameSecond(a: int, b: int)
    requires 0 <= a < 100 * 3600 * 1000 && 0 <= b < 100 * 3600 * 1000
    ensures MsToTimestamp(a) == MsToTimestamp(b) <==> a / 1000 == b / 1000
  {
    TimestampRoundTrip(a);
    TimestampRoundTrip(b);
  }

  /** From 100 hours on, the hour field has more than two digits. */
  lemma TimestampLongHours(ms: int)
    requires ms >= 100 * 3600 * 1000
    ensures |MsToTimestamp(ms)| > 8
  {
    var s := ms / 1000;
    Pad2Spec(s / 3600);
    Pad2Spec((s % 3600) / 60);
    Pad2Spec(s % 60);
  }
}
