/** The citation pattern `[<id> @ <time>-<time>]` and the two queries on it:
    `has_citations` (a match anywhere) and `count_citations` (the number of
    non-overlapping matches `findall` reports). The regular expression is
    written out as a scanner, one stage per piece of the pattern; its greedy
    runs never need to give anything back, because what follows each run
    cannot start with a character of the run. */
module Citations {
  import opened Wrappers
  import opened Text
  import opened Types

  /** The class `[A-Za-z0-9_-]` of citation ids. */
  predicate IsIdChar(c: char) {
    IsWordChar(c) || c == '-'
  }

  /** `n` more characters in front of a match length. */
  function Shift(n: nat, r: Option<nat>): (r': Option<nat>)
    ensures r'.Some? <==> r.Some?
    ensures r'.Some? ==> r'.value == n + r.value
  {
    match r
    case None => None
    case Some(v) => Some(n + v)
  }

  /** `(?:\d\d:)?\d\d:\d\d` at the start of `s` followed by `d`: the length
      through `d`. The optional hour field is tried first, as the greedy
      `?` does, and dropped when `d` does not follow. */
  function ClockLen(s: string, d: char): (r: Option<nat>)
    ensures r.Some? ==> 6 <= r.value <= |s|
  {
    match ClockLongAt(s, 0)
    case Some((e, _)) => if e < |s| && s[e] == d then Some(e + 1) else ShortLen(s, d)
    case None => ShortLen(s, d)
  }

  function ShortLen(s: string, d: char): (r: Option<nat>)
    ensures r.Some? ==> r.value == 6 <= |s|
  {
    match ClockShortAt(s, 0)
    case Some((e, _)) => if e < |s| && s[e] == d then Some(e + 1) else None
    case None => None
  }

  /** `<time>-<time>]`. */
  function TimesLen(s: string): (r: Option<nat>)
    ensures r.Some? ==> 12 <= r.value <= |s|
  {
    match ClockLen(s, '-')
    case None => None
    case Some(x) => Shift(x, ClockLen(s[x..], ']'))
  }

  /** `\s*<time>-<time>]`, what follows the `@`. */
  function AfterAtLen(s: string): (r: Option<nat>)
    ensures r.Some? ==> 12 <= r.value <= |s|
  {
    if s != [] && IsSpace(s[0]) then Shift(1, AfterAtLen(s[1..])) else TimesLen(s)
  }

  /** `\s*@...`, what follows the id. */
  function AfterIdLen(s: string): (r: Option<nat>)
    ensures r.Some? ==> 13 <= r.value <= |s|
  {
    if s != [] && IsSpace(s[0]) then Shift(1, AfterIdLen(s[1..]))
    else if s != [] && s[0] == '@' then Shift(1, AfterAtLen(s[1..]))
    else None
  }

  /** The rest of the id and what follows it. */
  function IdRestLen(s: string): (r: Option<nat>)
    ensures r.Some? ==> 13 <= r.value <= |s|
  {
    if s != [] && IsIdChar(s[0]) then Shift(1, IdRestLen(s[1..])) else AfterIdLen(s)
  }

  /** The length of the match at the start of `s`, if there is one: `[`,
      at least one id character, and the rest. */
  function MatchLen(s: string): (r: Option<nat>)
    ensures r.Some? ==> s != [] && s[0] == '[' && 15 <= r.value <= |s|
  {
    if |s| >= 2 && s[0] == '[' && IsIdChar(s[1]) then Shift(2, IdRestLen(s[2..])) else None
  }

  /** The end of the match that starts at position `i` of `s`, if one does. */
  function MatchAt(s: string, i: nat): (r: Option<nat>)
    ensures r.Some? ==> i < |s| && s[i] == '[' && i + 15 <= r.value <= |s|
  {
    if i <= |s| then Shift(i, MatchLen(s[i..])) else None
  }

  // ---------------------------------------------------------------------
  // Searching: `search` and `findall` over a matcher of this shape

  /** Where a match starting at `i` ends, if one does. */
  type Matcher = (string, nat) -> Option<nat>

  /** Matches start at a `[` and take at least 15 characters. */
  ghost predicate Anchored(m: Matcher) {
    forall s: string, i: nat :: m(s, i).Some? ==> i < |s| && s[i] == '[' && i + 15 <= m(s, i).value <= |s|
  }

  lemma CitationAnchored()
    ensures Anchored(MatchAt)
  {
  }

  /** `pattern.search(s, i)`: the leftmost match starting at or after `i`,
      as its start and end. */
  function Search(m: Matcher, s: string, i: nat): (r: Option<(nat, nat)>)
    requires Anchored(m) && i <= |s|
    ensures r.Some? ==> i <= r.value.0 < r.value.1 <= |s|
    decreases |s| - i
  {
    if i == |s| then None
    else match m(s, i)
      case Some(e) => Some((i, e))
      case None => Search(m, s, i + 1)
  }

  /** The matches `findall` collects from `i` on: after each match the
      search resumes at its end. */
  function CountFrom(m: Matcher, s: string, i: nat): nat
    requires Anchored(m) && i <= |s|
    decreases |s| - i
  {
    match Search(m, s, i)
    case None => 0
    case Some((_, e)) => 1 + CountFrom(m, s, e)
  }

  /** `has_citations`. */
  function HasCitations(text: string): bool {
    Search(MatchAt, text, 0).Some?
  }

  /** `count_citations`. */
  function CountCitations(text: string): nat {
    CountFrom(MatchAt, text, 0)
  }

  /** The text of the first match (`m.group(1)` of a search). */
  function FirstCitation(text: string): Option<string> {
    match Search(MatchAt, text, 0)
    case None => None
    case Some((a, e)) => Some(text[a..e])
  }

  lemma {:induction false} SearchSpec(m: Matcher, s: string, i: nat)
    requires Anchored(m) && i <= |s|
    ensures Search(m, s, i).Some? ==> m(s, Search(m, s, i).value.0) == Some(Search(m, s, i).value.1)
    ensures Search(m, s, i).Some? ==> forall j :: i <= j < Search(m, s, i).value.0 ==> m(s, j).None?
    ensures Search(m, s, i).None? ==> forall j :: i <= j < |s| ==> m(s, j).None?
    decreases |s| - i
  {
    if i < |s| && m(s, i).None? {
      SearchSpec(m, s, i + 1);
    }
  }

  /** The search finds the leftmost match. */
  lemma SearchFinds(m: Matcher, s: string, i: nat, j: nat)
    requires Anchored(m) && i <= j < |s| && m(s, j).Some?
    ensures Search(m, s, i).Some? && Search(m, s, i).value.0 <= j
  {
    SearchSpec(m, s, i);
  }

  /** The search passes over a stretch without `[`. */
  lemma {:induction false} SearchSkips(m: Matcher, s: string, i: nat, j: nat)
    requires Anchored(m) && i <= j <= |s| && forall k :: i <= k < j ==> s[k] != '['
    ensures Search(m, s, i) == Search(m, s, j)
    decreases j - i
  {
    if i < j {
      SearchSkips(m, s, i + 1, j);
    }
  }

  /** Every match takes at least 15 characters, so the count is at most a
      fifteenth of the length searched. */
  lemma {:induction false} CountBound(m: Matcher, s: string, i: nat)
    requires Anchored(m) && i <= |s|
    ensures CountFrom(m, s, i) * 15 <= |s| - i
    decreases |s| - i
  {
    match Search(m, s, i)
    case None =>
    case Some((a, e)) =>
      SearchSpec(m, s, i);
      CountBound(m, s, e);
  }

  // ---------------------------------------------------------------------
  // The language of the pattern, stated independently of the scanner

  predicate IsId(id: string) {
    id != [] && forall k :: 0 <= k < |id| ==> IsIdChar(id[k])
  }

  /** `\d\d:\d\d` or `\d\d:\d\d:\d\d` as a whole string. */
  predicate IsClock(t: string) {
    (|t| == 5 || |t| == 8) && TwoDigitsAt(t, |t| - 5) && t[|t| - 3] == ':' && TwoDigitsAt(t, |t| - 2)
    && (|t| == 8 ==> TwoDigitsAt(t, 0) && t[2] == ':')
  }

  function TimesText(t1: string, t2: string): string {
    t1 + "-" + t2 + "]"
  }

  function AfterAtText(w2: string, t1: string, t2: string): string {
    w2 + TimesText(t1, t2)
  }

  function AfterIdText(w1: string, w2: string, t1: string, t2: string): string {
    w1 + "@" + AfterAtText(w2, t1, t2)
  }

  /** A citation built from its parts: `[id w1@w2 t1-t2]`. */
  function Citation(id: string, w1: string, w2: string, t1: string, t2: string): string {
    "[" + id + AfterIdText(w1, w2, t1, t2)
  }

  predicate WellFormed(id: string, w1: string, w2: string, t1: string, t2: string) {
    IsId(id) && AllSpace(w1) && AllSpace(w2) && IsClock(t1) && IsClock(t2)
  }

  // ---------------------------------------------------------------------
  // A well-formed citation is matched, whatever follows it

  /** The first character of a concatenation and what follows it. */
  lemma ConsTail(a: string, b: string)
    requires a != []
    ensures (a + b)[0] == a[0] && (a + b)[1..] == a[1..] + b
  {
  }

  lemma EmptyFront(a: string, b: string)
    requires a == []
    ensures a + b == b
  {
  }

  lemma {:induction false} IdRestOf(id: string, rest: string)
    requires forall k :: 0 <= k < |id| ==> IsIdChar(id[k])
    requires rest == [] || !IsIdChar(rest[0])
    ensures IdRestLen(id + rest) == Shift(|id|, AfterIdLen(rest))
    decreases |id|
  {
    if id != [] {
      ConsTail(id, rest);
      IdRestOf(id[1..], rest);
    } else {
      EmptyFront(id, rest);
    }
  }

  lemma {:induction false} AfterIdSpaces(w: string, rest: string)
    requires AllSpace(w)
    requires rest == [] || !IsSpace(rest[0])
    ensures AfterIdLen(w + rest) == Shift(|w|, AfterIdLen(rest))
    decreases |w|
  {
    if w != [] {
      ConsTail(w, rest);
      AfterIdSpaces(w[1..], rest);
    } else {
      EmptyFront(w, rest);
    }
  }

  lemma {:induction false} AfterAtSpaces(w: string, rest: string)
    requires AllSpace(w)
    requires rest == [] || !IsSpace(rest[0])
    ensures AfterAtLen(w + rest) == Shift(|w|, AfterAtLen(rest))
    decreases |w|
  {
    if w != [] {
      ConsTail(w, rest);
      AfterAtSpaces(w[1..], rest);
    } else {
      EmptyFront(w, rest);
    }
  }

  lemma ClockLenOf(t: string, d: char, rest: string)
    requires IsClock(t) && d != ':' && !IsDigit(d)
    ensures ClockLen(t + [d] + rest, d) == Some(|t| + 1)
  {
    var s := t + [d] + rest;
    assert forall k :: 0 <= k < |t| ==> s[k] == t[k];
    assert s[|t|] == d;
    if |t| == 5 {
      assert ClockShortAt(s, 0).Some?;
    }
  }

  lemma TimesLenOf(t1: string, t2: string, rest: string)
    requires IsClock(t1) && IsClock(t2)
    ensures TimesLen(TimesText(t1, t2) + rest) == Some(|TimesText(t1, t2)|)
  {
    var tail := t2 + "]" + rest;
    assert TimesText(t1, t2) + rest == t1 + "-" + tail;
    ClockLenOf(t1, '-', tail);
    assert (t1 + "-" + tail)[|t1| + 1..] == t2 + "]" + rest;
    ClockLenOf(t2, ']', rest);
  }

  lemma AfterAtLenOf(w2: string, t1: string, t2: string, rest: string)
    requires AllSpace(w2) && IsClock(t1) && IsClock(t2)
    ensures AfterAtLen(AfterAtText(w2, t1, t2) + rest) == Some(|AfterAtText(w2, t1, t2)|)
  {
    var tail := TimesText(t1, t2) + rest;
    AppendAssoc(w2, TimesText(t1, t2), rest);
    assert tail[0] == t1[0];
    AfterAtSpaces(w2, tail);
    TimesLenOf(t1, t2, rest);
  }

  lemma AfterIdLenOf(w1: string, w2: string, t1: string, t2: string, rest: string)
    requires AllSpace(w1) && AllSpace(w2) && IsClock(t1) && IsClock(t2)
    ensures AfterIdLen(AfterIdText(w1, w2, t1, t2) + rest) == Some(|AfterIdText(w1, w2, t1, t2)|)
  {
    var tail := AfterAtText(w2, t1, t2) + rest;
    AfterIdRegroup(w1, AfterAtText(w2, t1, t2), rest);
    var n := |AfterAtText(w2, t1, t2)|;
    AfterAtLenOf(w2, t1, t2, rest);
    AfterIdAt(tail);
    assert AfterIdLen("@" + tail) == Some(1 + n);
    AfterIdSpaces(w1, "@" + tail);
    assert AfterIdLen(w1 + ("@" + tail)) == Some(|w1| + 1 + n);
  }

  lemma AppendAssoc(a: string, b: string, c: string)
    ensures a + b + c == a + (b + c)
  {
  }

  lemma AfterIdRegroup(w1: string, a: string, rest: string)
    ensures w1 + "@" + a + rest == w1 + ("@" + (a + rest))
  {
  }

  /** The `@` is matched, then what follows it. */
  lemma AfterIdAt(tail: string)
    ensures !IsSpace(("@" + tail)[0])
    ensures AfterIdLen("@" + tail) == Shift(1, AfterAtLen(tail))
  {
    assert ("@" + tail)[0] == '@' && ("@" + tail)[1..] == tail;
  }

  /** A well-formed citation at the start of `s` is matched, and the match
      ends where the citation does. */
  lemma MatchLenOf(id: string, w1: string, w2: string, t1: string, t2: string, rest: string)
    requires WellFormed(id, w1, w2, t1, t2)
    ensures MatchLen(Citation(id, w1, w2, t1, t2) + rest) == Some(|Citation(id, w1, w2, t1, t2)|)
  {
    var tail := AfterIdText(w1, w2, t1, t2) + rest;
    var s := Citation(id, w1, w2, t1, t2) + rest;
    assert s == "[" + id + tail;
    assert s[2..] == id[1..] + tail;
    assert tail[0] == if w1 == [] then '@' else w1[0];
    IdRestOf(id[1..], tail);
    AfterIdLenOf(w1, w2, t1, t2, rest);
  }

  /** A well-formed citation at position `i` is matched there. */
  lemma CitationMatches(s: string, i: nat, id: string, w1: string, w2: string, t1: string, t2: string)
    requires WellFormed(id, w1, w2, t1, t2)
    requires i + |Citation(id, w1, w2, t1, t2)| <= |s|
    requires s[i..i + |Citation(id, w1, w2, t1, t2)|] == Citation(id, w1, w2, t1, t2)
    ensures MatchAt(s, i) == Some(i + |Citation(id, w1, w2, t1, t2)|)
  {
    var c := Citation(id, w1, w2, t1, t2);
    assert s[i..] == c + s[i + |c|..];
    MatchLenOf(id, w1, w2, t1, t2, s[i + |c|..]);
  }

  // ---------------------------------------------------------------------
  // Every match is a well-formed citation

  lemma PrefixSplit(s: string, n: nat, m: nat)
    requires n + m <= |s|
    ensures s[..n + m] == s[..n] + s[n..][..m]
  {
  }

  lemma ClockLenShape(s: string, d: char)
    requires ClockLen(s, d).Some?
    ensures IsClock(s[..ClockLen(s, d).value - 1])
    ensures s[..ClockLen(s, d).value] == s[..ClockLen(s, d).value - 1] + [d]
  {
    var n := ClockLen(s, d).value;
    var t := s[..n - 1];
    assert forall k :: 0 <= k < |t| ==> t[k] == s[k];
  }

  lemma TimesShape(s: string) returns (t1: string, t2: string)
    requires TimesLen(s).Some?
    ensures IsClock(t1) && IsClock(t2) && s[..TimesLen(s).value] == TimesText(t1, t2)
  {
    var x := ClockLen(s, '-').value;
    var rest := s[x..];
    var y := ClockLen(rest, ']').value;
    ClockLenShape(s, '-');
    ClockLenShape(rest, ']');
    t1, t2 := s[..x - 1], rest[..y - 1];
    PrefixSplit(s, x, y);
  }

  /** A prefix of `s` one character longer than a prefix of `s[1..]`. */
  lemma ConsPrefix(s: string, m: nat, u: string)
    requires 1 + m <= |s| && s[1..][..m] == u
    ensures s[..1 + m] == [s[0]] + u
  {
    assert s[..1 + m] == s[..1] + s[1..][..m];
  }

  lemma AfterAtTextCons(c: char, w: string, t1: string, t2: string)
    ensures AfterAtText([c] + w, t1, t2) == [c] + AfterAtText(w, t1, t2)
  {
  }

  lemma AfterIdTextCons(c: char, w: string, w2: string, t1: string, t2: string)
    ensures AfterIdText([c] + w, w2, t1, t2) == [c] + AfterIdText(w, w2, t1, t2)
  {
  }

  lemma AfterIdTextAt(w2: string, t1: string, t2: string)
    ensures AfterIdText([], w2, t1, t2) == "@" + AfterAtText(w2, t1, t2)
  {
  }

  lemma IdTextCons(c: char, id: string, after: string)
    ensures ([c] + id) + after == [c] + (id + after)
  {
  }

  lemma AllSpaceCons(c: char, w: string)
    requires IsSpace(c) && AllSpace(w)
    ensures AllSpace([c] + w)
  {
    assert forall k :: 1 <= k < |[c] + w| ==> ([c] + w)[k] == w[k - 1];
  }

  lemma {:induction false} AfterAtShape(s: string) returns (w2: string, t1: string, t2: string)
    requires AfterAtLen(s).Some?
    ensures AllSpace(w2) && IsClock(t1) && IsClock(t2) && s[..AfterAtLen(s).value] == AfterAtText(w2, t1, t2)
  {
    if s != [] && IsSpace(s[0]) {
      var w;
      w, t1, t2 := AfterAtShape(s[1..]);
      w2 := [s[0]] + w;
      AllSpaceCons(s[0], w);
      ConsPrefix(s, AfterAtLen(s[1..]).value, AfterAtText(w, t1, t2));
      AfterAtTextCons(s[0], w, t1, t2);
    } else {
      w2 := [];
      t1, t2 := TimesShape(s);
    }
  }

  lemma {:induction false} AfterIdShape(s: string) returns (w1: string, w2: string, t1: string, t2: string)
    requires AfterIdLen(s).Some?
    ensures AllSpace(w1) && AllSpace(w2) && IsClock(t1) && IsClock(t2)
    ensures s[..AfterIdLen(s).value] == AfterIdText(w1, w2, t1, t2)
  {
    if s != [] && IsSpace(s[0]) {
      var w;
      w, w2, t1, t2 := AfterIdShape(s[1..]);
      w1 := [s[0]] + w;
      AllSpaceCons(s[0], w);
      ConsPrefix(s, AfterIdLen(s[1..]).value, AfterIdText(w, w2, t1, t2));
      AfterIdTextCons(s[0], w, w2, t1, t2);
    } else {
      w1 := [];
      w2, t1, t2 := AfterAtShape(s[1..]);
      ConsPrefix(s, AfterAtLen(s[1..]).value, AfterAtText(w2, t1, t2));
      AfterIdTextAt(w2, t1, t2);
    }
  }

  lemma {:induction false} IdRestShape(s: string) returns (id: string, w1: string, w2: string, t1: string, t2: string)
    requires IdRestLen(s).Some?
    ensures (forall k :: 0 <= k < |id| ==> IsIdChar(id[k])) && AllSpace(w1) && AllSpace(w2) && IsClock(t1) && IsClock(t2)
    ensures s[..IdRestLen(s).value] == id + AfterIdText(w1, w2, t1, t2)
  {
    if s != [] && IsIdChar(s[0]) {
      var i0;
      i0, w1, w2, t1, t2 := IdRestShape(s[1..]);
      id := [s[0]] + i0;
      assert forall k :: 1 <= k < |id| ==> id[k] == i0[k - 1];
      ConsPrefix(s, IdRestLen(s[1..]).value, i0 + AfterIdText(w1, w2, t1, t2));
      IdTextCons(s[0], i0, AfterIdText(w1, w2, t1, t2));
    } else {
      id := [];
      w1, w2, t1, t2 := AfterIdShape(s);
    }
  }

  /** Every match is a well-formed citation: the parts it was read from. */
  lemma MatchShape(s: string, i: nat) returns (id: string, w1: string, w2: string, t1: string, t2: string)
    requires MatchAt(s, i).Some?
    ensures WellFormed(id, w1, w2, t1, t2)
    ensures s[i..MatchAt(s, i).value] == Citation(id, w1, w2, t1, t2)
  {
    var u := s[i..];
    var i0;
    i0, w1, w2, t1, t2 := IdRestShape(u[2..]);
    id := [u[1]] + i0;
    var n := IdRestLen(u[2..]).value;
    PrefixSplit(u, 2, n);
    assert u[..2] == "[" + [u[1]];
    assert s[i..MatchAt(s, i).value] == u[..2 + n];
  }

  // ---------------------------------------------------------------------
  // Properties of `has_citations` and `count_citations`

  /** `has_citations` holds exactly when some position starts a match. */
  lemma HasCitationsIff(text: string)
    ensures HasCitations(text) <==> exists j :: 0 <= j < |text| && MatchAt(text, j).Some?
  {
    CitationAnchored();
    SearchSpec(MatchAt, text, 0);
    if HasCitations(text) {
      var j := Search(MatchAt, text, 0).value.0;
      assert MatchAt(text, j).Some?;
    }
  }

  /** `has_citations(t)` is `count_citations(t) > 0`. */
  lemma HasIffCount(text: string)
    ensures HasCitations(text) <==> CountCitations(text) > 0
  {
  }

  /** A text holding a cited text anywhere has citations itself. */
  lemma ContainsCited(a: string, c: string, b: string)
    requires HasCitations(c)
    ensures HasCitations(a + c + b)
  {
    var x, id, w1, w2, t1, t2 := FirstShape(c);
    var n := |Citation(id, w1, w2, t1, t2)|;
    SliceOfMiddle(a, c, b, x, x + n);
    CitationMatches(a + c + b, |a| + x, id, w1, w2, t1, t2);
    CitationAnchored();
    SearchFinds(MatchAt, a + c + b, 0, |a| + x);
  }

  /** The first match of a text with citations is a well-formed citation. */
  lemma FirstShape(c: string) returns (x: nat, id: string, w1: string, w2: string, t1: string, t2: string)
    requires HasCitations(c)
    ensures WellFormed(id, w1, w2, t1, t2)
    ensures x + |Citation(id, w1, w2, t1, t2)| <= |c| && c[x..x + |Citation(id, w1, w2, t1, t2)|] == Citation(id, w1, w2, t1, t2)
  {
    CitationAnchored();
    var found := Search(MatchAt, c, 0).value;
    x := found.0;
    SearchSpec(MatchAt, c, 0);
    assert MatchAt(c, x) == Some(found.1);
    id, w1, w2, t1, t2 := MatchShape(c, x);
    SliceAt(c, x, found.1, Citation(id, w1, w2, t1, t2));
  }

  lemma SliceAt(c: string, x: nat, e: nat, t: string)
    requires x <= e <= |c| && c[x..e] == t
    ensures x + |t| <= |c| && c[x..x + |t|] == t
  {
  }

  lemma SliceOfMiddle(a: string, c: string, b: string, x: nat, e: nat)
    requires x <= e <= |c|
    ensures (a + c + b)[|a| + x..|a| + e] == c[x..e]
  {
    assert a + c + b == a + (c + b);
    assert (a + (c + b))[|a|..] == c + b;
  }

  /** A citation written out is found by the search, as a whole. */
  lemma CitationFound(id: string, w1: string, w2: string, t1: string, t2: string)
    requires WellFormed(id, w1, w2, t1, t2)
    ensures HasCitations(Citation(id, w1, w2, t1, t2))
    ensures FirstCitation(Citation(id, w1, w2, t1, t2)) == Some(Citation(id, w1, w2, t1, t2))
  {
    var c := Citation(id, w1, w2, t1, t2);
    assert c[0..|c|] == c;
    CitationMatches(c, 0, id, w1, w2, t1, t2);
  }

  /** One citation counts once. */
  lemma SingleCitation(id: string, w1: string, w2: string, t1: string, t2: string)
    requires WellFormed(id, w1, w2, t1, t2)
    ensures CountCitations(Citation(id, w1, w2, t1, t2)) == 1
  {
    var c := Citation(id, w1, w2, t1, t2);
    assert c[0..|c|] == c;
    CitationMatches(c, 0, id, w1, w2, t1, t2);
    assert Search(MatchAt, c, 0) == Some((0, |c|));
    assert CountFrom(MatchAt, c, |c|) == 0;
  }

  /** `[abc123 @ 01:02-01:10]` is a citation. */
  lemma ExampleCitation()
    ensures HasCitations("[abc123 @ 01:02-01:10]")
  {
    assert Citation("abc123", " ", " ", "01:02", "01:10") == "[abc123 @ 01:02-01:10]";
    assert IsId("abc123") && AllSpace(" ") && IsClock("01:02") && IsClock("01:10");
    CitationFound("abc123", " ", " ", "01:02", "01:10");
  }

  predicate NoBracket(s: string) {
    forall k :: 0 <= k < |s| ==> s[k] != '['
  }

  /** A text without `[` holds no citation. */
  lemma NoBracketNoCitation(text: string)
    requires NoBracket(text)
    ensures !HasCitations(text) && CountCitations(text) == 0
  {
    CitationAnchored();
    SearchSkips(MatchAt, text, 0, |text|);
  }

  /** A text holds at most a fifteenth of its length in citations. */
  lemma CitationCountBound(text: string)
    ensures CountCitations(text) * 15 <= |text|
  {
    CitationAnchored();
    CountBound(MatchAt, text, 0);
  }

  /** A citation after a stretch without `[` is the first match of the
      text, whatever follows it. */
  lemma CitedAfter(a: string, b: string, id: string, w1: string, w2: string, t1: string, t2: string)
    requires WellFormed(id, w1, w2, t1, t2) && NoBracket(a)
    ensures Search(MatchAt, a + Citation(id, w1, w2, t1, t2) + b, 0) == Some((|a|, |a| + |Citation(id, w1, w2, t1, t2)|))
    ensures FirstCitation(a + Citation(id, w1, w2, t1, t2) + b) == Some(Citation(id, w1, w2, t1, t2))
  {
    var c := Citation(id, w1, w2, t1, t2);
    var s := a + c + b;
    SliceOfMiddle(a, c, b, 0, |c|);
    assert c[0..|c|] == c;
    CitationMatches(s, |a|, id, w1, w2, t1, t2);
    FirstAfter(s, a, |a| + |c|);
    assert s[|a|..|a| + |c|] == c;
  }

  lemma FirstAfter(s: string, a: string, e: nat)
    requires NoBracket(a) && |a| <= |s| && s[..|a|] == a && MatchAt(s, |a|) == Some(e)
    ensures Search(MatchAt, s, 0) == Some((|a|, e))
  {
    CitationAnchored();
    assert forall k :: 0 <= k < |a| ==> s[k] == a[k];
    SearchSkips(MatchAt, s, 0, |a|);
  }

  /** After a stretch without `[`, a match at `j` counts once and the
      count resumes at its end. */
  lemma CountStep(s: string, i: nat, j: nat)
    requires i <= j < |s| && MatchAt(s, j).Some?
    requires forall k :: i <= k < j ==> s[k] != '['
    ensures CountFrom(MatchAt, s, i) == 1 + CountFrom(MatchAt, s, MatchAt(s, j).value)
  {
    CitationAnchored();
    SearchSkips(MatchAt, s, i, j);
  }
}
