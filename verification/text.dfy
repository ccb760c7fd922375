/** Character classes and the string operations of Python's `str` and `re`
    that the transcript pipeline relies on, written out over `seq<char>`. */
module Text {

  /** `str.isspace()`; the regex class `\s` of a `str` pattern and the
      argument-less `str.strip()` use the same set. */
  predicate IsSpace(c: char) {
    c == ' ' || c == '\t' || c == '\n' || c == '\r' || c == '\U{0b}' || c == '\U{0c}'
    || ('\U{1c}' <= c <= '\U{1f}') || c == '\U{85}' || c == '\U{a0}' || c == '\U{1680}'
    || ('\U{2000}' <= c <= '\U{200a}') || c == '\U{2028}' || c == '\U{2029}'
    || c == '\U{202f}' || c == '\U{205f}' || c == '\U{3000}'
  }

  /** The line boundaries of `str.splitlines()` (`\r\n` counts as one). */
  predicate IsLineBreak(c: char) {
    c == '\n' || c == '\r' || c == '\U{0b}' || c == '\U{0c}' || ('\U{1c}' <= c <= '\U{1e}')
    || c == '\U{85}' || c == '\U{2028}' || c == '\U{2029}'
  }

  predicate IsDigit(c: char) { '0' <= c <= '9' }

  /** The regex class `[A-Za-z0-9_]`. */
  predicate IsWordChar(c: char) {
    ('A' <= c <= 'Z') || ('a' <= c <= 'z') || IsDigit(c) || c == '_'
  }

  predicate NoSpace(s: string) {
    forall i :: 0 <= i < |s| ==> !IsSpace(s[i])
  }

  predicate AllSpace(s: string) {
    forall i :: 0 <= i < |s| ==> IsSpace(s[i])
  }

  /** `s.lstrip()`: the suffix left after the leading whitespace. */
  function LStrip(s: string): (r: string)
    ensures |r| <= |s|
    ensures AllSpace(s[..|s| - |r|])
    ensures r == [] || !IsSpace(r[0])
  {
    if s == [] || !IsSpace(s[0]) then s else LStrip(s[1..])
  }

  /** What `lstrip` leaves is a suffix of its input. */
  lemma {:induction false} LStripSuffix(s: string)
    ensures LStrip(s) == s[|s| - |LStrip(s)|..]
  {
    if s != [] && IsSpace(s[0]) {
      LStripSuffix(s[1..]);
      assert s[1..][|s| - 1 - |LStrip(s[1..])|..] == s[|s| - |LStrip(s)|..];
    }
  }

  /** `s.rstrip()`: the prefix left before the trailing whitespace. */
  function RStrip(s: string): (r: string)
    ensures |r| <= |s| && r == s[..|r|]
    ensures AllSpace(s[|r|..])
    ensures r == [] || !IsSpace(r[|r| - 1])
  {
    if s == [] || !IsSpace(s[|s| - 1]) then s else RStrip(s[..|s| - 1])
  }

  /** `s.rstrip(c)` for a single character `c`: the prefix left before
      the trailing run of `c`. */
  function RStripChar(s: string, c: char): (r: string)
    ensures |r| <= |s| && r == s[..|r|]
    ensures forall i :: |r| <= i < |s| ==> s[i] == c
    ensures r == [] || r[|r| - 1] != c
  {
    if s == [] || s[|s| - 1] != c then s else RStripChar(s[..|s| - 1], c)
  }

  /** `s.strip()`. */
  function Strip(s: string): (r: string)
    ensures r == [] || (!IsSpace(r[0]) && !IsSpace(r[|r| - 1]))
  {
    RStrip(LStrip(s))
  }

  /** Strip keeps a contiguous block of `s` and drops only whitespace around it. */
  lemma StripIsSlice(s: string) returns (a: nat, b: nat)
    ensures a <= b <= |s| && Strip(s) == s[a..b]
    ensures AllSpace(s[..a]) && AllSpace(s[b..])
  {
    var l := LStrip(s);
    LStripSuffix(s);
    a := |s| - |l|;
    b := a + |RStrip(l)|;
    assert s[a..][..b - a] == s[a..b];
    assert s[b..] == l[b - a..];
  }

  lemma StripOfTrimmed(s: string)
    requires s == [] || (!IsSpace(s[0]) && !IsSpace(s[|s| - 1]))
    ensures Strip(s) == s
  {
  }

  /** Strip of text whose characters are all whitespace is empty, and conversely. */
  lemma {:induction false} StripEmptyIffAllSpace(s: string)
    ensures Strip(s) == [] <==> AllSpace(s)
  {
    var a, b := StripIsSlice(s);
    if Strip(s) == [] {
      assert s == s[..a] + s[b..];
    } else {
      assert s[a] == Strip(s)[0];
      assert !IsSpace(s[a]);
    }
  }

  /** Every whitespace character is a single ' ' that no whitespace follows. */
  predicate SingleSpaced(s: string) {
    forall i :: 0 <= i < |s| && IsSpace(s[i]) ==> s[i] == ' ' && (i + 1 < |s| ==> !IsSpace(s[i + 1]))
  }

  /** Text in the canonical form that normalisation produces: no leading or
      trailing whitespace, and only single spaces between other characters. */
  predicate Canonical(s: string) {
    SingleSpaced(s) && (s == [] || (!IsSpace(s[0]) && !IsSpace(s[|s| - 1])))
  }

  /** `re.sub(r"\s+", " ", s)`: every maximal whitespace run becomes one space. */
  function Collapse(s: string): (r: string)
    ensures |r| <= |s|
    ensures SingleSpaced(r)
    ensures s == [] <==> r == []
    ensures s != [] ==> if IsSpace(s[0]) then r[0] == ' ' else r[0] == s[0]
    decreases |s|
  {
    if s == [] then []
    else if IsSpace(s[0]) then
      var rest := LStrip(s);
      assert |rest| < |s| by { LStripSuffix(s); }
      [' '] + Collapse(rest)
    else [s[0]] + Collapse(s[1..])
  }

  lemma SingleSpacedSlice(s: string, a: nat, b: nat)
    requires a <= b <= |s| && SingleSpaced(s)
    ensures SingleSpaced(s[a..b])
  {
    var t := s[a..b];
    forall i | 0 <= i < |t| && IsSpace(t[i])
      ensures t[i] == ' ' && (i + 1 < |t| ==> !IsSpace(t[i + 1]))
    {
      assert t[i] == s[a + i];
      if i + 1 < |t| { assert t[i + 1] == s[a + i + 1]; }
    }
  }

  lemma CollapseLoneSpace(s: string)
    requires s != [] && IsSpace(s[0]) && (|s| == 1 || !IsSpace(s[1]))
    ensures Collapse(s) == [' '] + Collapse(s[1..])
  {
    var tail := s[1..];
    assert tail == [] || !IsSpace(tail[0]);
    assert LStrip(s) == LStrip(tail) == tail;
  }

  lemma {:induction false} CollapseOfSingleSpaced(s: string)
    requires SingleSpaced(s)
    ensures Collapse(s) == s
    decreases |s|
  {
    if s != [] {
      SingleSpacedSlice(s, 1, |s|);
      CollapseOfSingleSpaced(s[1..]);
      if IsSpace(s[0]) {
        CollapseLoneSpace(s);
      }
    }
  }

  /** Strip keeps text single spaced. */
  lemma StripSingleSpaced(s: string)
    requires SingleSpaced(s)
    ensures SingleSpaced(Strip(s))
  {
    var a, b := StripIsSlice(s);
    SingleSpacedSlice(s, a, b);
  }

  /** The whitespace normalisation `re.sub(r"\s+", " ", s).strip()`. */
  function NormalizeText(s: string): (r: string)
    ensures Canonical(r)
  {
    StripSingleSpaced(Collapse(s));
    Strip(Collapse(s))
  }

  /** Normalising canonical text changes nothing. */
  lemma NormalizeCanonical(s: string)
    requires Canonical(s)
    ensures NormalizeText(s) == s
  {
    CollapseOfSingleSpaced(s);
    StripOfTrimmed(s);
  }

  /** Normalisation is idempotent. */
  lemma NormalizeIdempotent(s: string)
    ensures NormalizeText(NormalizeText(s)) == NormalizeText(s)
  {
    NormalizeCanonical(NormalizeText(s));
  }

  /** Normalised text is empty exactly when the input is all whitespace. */
  lemma {:induction false} NormalizeEmptyIffAllSpace(s: string)
    ensures NormalizeText(s) == [] <==> AllSpace(s)
  {
    CollapseAllSpace(s);
    StripEmptyIffAllSpace(Collapse(s));
  }

  lemma AllSpaceConcat(a: string, b: string)
    ensures AllSpace(a + b) <==> AllSpace(a) && AllSpace(b)
  {
    if AllSpace(a) && AllSpace(b) {
      forall i | 0 <= i < |a + b| ensures IsSpace((a + b)[i]) {
        if i < |a| { assert (a + b)[i] == a[i]; } else { assert (a + b)[i] == b[i - |a|]; }
      }
    }
    if AllSpace(a + b) {
      forall i | 0 <= i < |a| ensures IsSpace(a[i]) { assert (a + b)[i] == a[i]; }
      forall i | 0 <= i < |b| ensures IsSpace(b[i]) { assert (a + b)[|a| + i] == b[i]; }
    }
  }

  lemma {:induction false} CollapseAllSpace(s: string)
    ensures AllSpace(Collapse(s)) <==> AllSpace(s)
    decreases |s|
  {
    if s != [] {
      if IsSpace(s[0]) {
        var rest := LStrip(s);
        LStripSuffix(s);
        CollapseAllSpace(rest);
        assert s == s[..|s| - |rest|] + rest;
        AllSpaceConcat(s[..|s| - |rest|], rest);
        assert Collapse(s) == [' '] + Collapse(rest);
        AllSpaceConcat([' '], Collapse(rest));
      } else {
        assert !AllSpace(s);
        assert !IsSpace(Collapse(s)[0]);
      }
    }
  }

  function Min(a: int, b: int): int { if a <= b then a else b }

  /** `sep.join(parts)`. */
  function Join(parts: seq<string>, sep: string): string {
    if |parts| == 0 then ""
    else if |parts| == 1 then parts[0]
    else Join(parts[..|parts| - 1], sep) + sep + parts[|parts| - 1]
  }

  lemma {:induction false} JoinCons(p: string, parts: seq<string>, sep: string)
    requires parts != []
    ensures Join([p] + parts, sep) == p + sep + Join(parts, sep)
    decreases |parts|
  {
    if |parts| == 1 {
      assert ([p] + parts)[..1] == [p];
    } else {
      var init := parts[..|parts| - 1];
      assert ([p] + parts)[..|parts|] == [p] + init;
      JoinCons(p, init, sep);
    }
  }

  lemma {:induction false} JoinAppend(a: seq<string>, b: seq<string>, sep: string)
    requires a != [] && b != []
    ensures Join(a + b, sep) == Join(a, sep) + sep + Join(b, sep)
    decreases |b|
  {
    if |b| == 1 {
      assert (a + b)[..|a + b| - 1] == a;
    } else {
      var init := b[..|b| - 1];
      assert (a + b)[..|a + b| - 1] == a + init;
      JoinAppend(a, init, sep);
    }
  }

  /** Every part of a join stands in it between a prefix and a suffix. */
  lemma {:induction false} JoinSplit(parts: seq<string>, sep: string, k: nat) returns (a: string, b: string)
    requires k < |parts|
    ensures Join(parts, sep) == a + parts[k] + b
    decreases |parts|
  {
    var init := parts[..|parts| - 1];
    if k == |parts| - 1 {
      a, b := if |parts| == 1 then "" else Join(init, sep) + sep, "";
    } else {
      var b0;
      a, b0 := JoinSplit(init, sep, k);
      b := b0 + sep + parts[|parts| - 1];
    }
  }

  predicate EndsWith(s: string, suffix: string) {
    |suffix| <= |s| && s[|s| - |suffix|..] == suffix
  }

  /** Position of the first line boundary of `s`, or `|s|`. */
  function LineEnd(s: string): (k: nat)
    ensures k <= |s| && (k < |s| ==> IsLineBreak(s[k]))
    ensures forall i :: 0 <= i < k ==> !IsLineBreak(s[i])
  {
    if s == [] || IsLineBreak(s[0]) then 0 else 1 + LineEnd(s[1..])
  }

  /** `s.splitlines()`: the lines of `s` without their boundaries; a final
      boundary does not start an extra empty line. */
  function SplitLines(s: string): (lines: seq<string>)
    ensures |lines| <= |s|
    decreases |s|
  {
    if s == [] then []
    else
      var k := LineEnd(s);
      if k == |s| then [s]
      else
        var next := if s[k] == '\r' && k + 1 < |s| && s[k + 1] == '\n' then k + 2 else k + 1;
        [s[..k]] + SplitLines(s[next..])
  }

  /** No line holds a line boundary. */
  lemma {:induction false} SplitLinesNoBreaks(s: string)
    ensures forall l <- SplitLines(s) :: forall i :: 0 <= i < |l| ==> !IsLineBreak(l[i])
    decreases |s|
  {
    if s != [] {
      var k := LineEnd(s);
      if k < |s| {
        var next := if s[k] == '\r' && k + 1 < |s| && s[k + 1] == '\n' then k + 2 else k + 1;
        SplitLinesNoBreaks(s[next..]);
      }
    }
  }

  /** A line without a boundary, then `\n`, splits off as the first line. */
  lemma SplitLinesCons(l: string, rest: string)
    requires forall i :: 0 <= i < |l| ==> !IsLineBreak(l[i])
    ensures SplitLines(l + "\n" + rest) == [l] + SplitLines(rest)
  {
    var s := l + ("\n" + rest);
    assert s == l + "\n" + rest;
    LineEndOf(l, "\n" + rest);
    assert s[|l|] == '\n' && s[..|l|] == l && s[|l| + 1..] == rest;
  }

  /** A line without a boundary, then `\n`, is the only line. */
  lemma SplitLinesLast(l: string)
    requires forall i :: 0 <= i < |l| ==> !IsLineBreak(l[i])
    ensures SplitLines(l + "\n") == [l]
  {
    var s := l + "\n";
    LineEndOf(l, "\n");
    assert s[|l|] == '\n' && s[..|l|] == l && s[|l| + 1..] == [];
  }

  lemma {:induction false} LineEndOf(l: string, rest: string)
    requires forall i :: 0 <= i < |l| ==> !IsLineBreak(l[i])
    requires rest != [] && IsLineBreak(rest[0])
    ensures LineEnd(l + rest) == |l|
    decreases |l|
  {
    if l != [] {
      LineEndOf(l[1..], rest);
      assert (l + rest)[1..] == l[1..] + rest;
    }
  }

  /** `s.replace(pat, rep)`: non-overlapping occurrences, left to right. */
  function Replace(s: string, pat: string, rep: string): string
    requires pat != []
    decreases |s|
  {
    if |s| < |pat| then s
    else if s[..|pat|] == pat then rep + Replace(s[|pat|..], pat, rep)
    else [s[0]] + Replace(s[1..], pat, rep)
  }

  /** Replacing one character by another keeps the length and every other
      character, and leaves no occurrence of the replaced one. */
  lemma {:induction false} ReplaceChar(s: string, c: char, d: char)
    requires c != d
    ensures |Replace(s, [c], [d])| == |s|
    ensures forall i :: 0 <= i < |s| ==> Replace(s, [c], [d])[i] == if s[i] == c then d else s[i]
    decreases |s|
  {
    if |s| >= 1 {
      ReplaceChar(s[1..], c, d);
      assert s[..1] == [s[0]];
      var r := Replace(s, [c], [d]);
      assert r == (if s[0] == c then [d] else [s[0]]) + Replace(s[1..], [c], [d]);
    }
  }

  /** `pat` does not occur anywhere in `s`: no suffix of `s` starts with it. */
  predicate Absent(s: string, pat: string)
    decreases |s|
  {
    |s| < |pat| || (s[..|pat|] != pat && Absent(s[1..], pat))
  }

  /** Replacing a pattern that does not occur changes nothing. */
  lemma {:induction false} ReplaceAbsent(s: string, pat: string, rep: string)
    requires pat != [] && Absent(s, pat)
    ensures Replace(s, pat, rep) == s
    decreases |s|
  {
    if |s| >= |pat| {
      ReplaceAbsent(s[1..], pat, rep);
      assert [s[0]] + s[1..] == s;
    }
  }

  /** Replacing one character by another works piece by piece. */
  lemma ReplaceCharAppend(a: string, b: string, c: char, d: char)
    requires c != d
    ensures Replace(a + b, [c], [d]) == Replace(a, [c], [d]) + Replace(b, [c], [d])
  {
    ReplaceChar(a, c, d);
    ReplaceChar(b, c, d);
    ReplaceChar(a + b, c, d);
    var l, r := Replace(a + b, [c], [d]), Replace(a, [c], [d]) + Replace(b, [c], [d]);
    forall i | 0 <= i < |l| ensures l[i] == r[i] {
      if i < |a| {
        assert (a + b)[i] == a[i];
      } else {
        assert (a + b)[i] == b[i - |a|];
      }
    }
  }

  function LowerChar(c: char): char {
    if 'A' <= c <= 'Z' then (c as int + 32) as char else c
  }

  function UpperChar(c: char): char {
    if 'a' <= c <= 'z' then (c as int - 32) as char else c
  }

  /** `s.lower()` on ASCII letters. */
  function Lower(s: string): (r: string)
    ensures |r| == |s| && forall i :: 0 <= i < |s| ==> r[i] == LowerChar(s[i])
  {
    if s == [] then [] else [LowerChar(s[0])] + Lower(s[1..])
  }

  /** Lowering twice is lowering once. */
  lemma LowerIdempotent(s: string)
    ensures Lower(Lower(s)) == Lower(s)
  {
    assert forall i :: 0 <= i < |s| ==> LowerChar(LowerChar(s[i])) == LowerChar(s[i]);
  }

  /** `s.upper()` on ASCII letters. */
  function Upper(s: string): (r: string)
    ensures |r| == |s| && forall i :: 0 <= i < |s| ==> r[i] == UpperChar(s[i])
  {
    if s == [] then [] else [UpperChar(s[0])] + Upper(s[1..])
  }

  predicate StartsWith(s: string, prefix: string) {
    |prefix| <= |s| && s[..|prefix|] == prefix
  }

  function DigitChar(d: nat): char
    requires d < 10
  {
    ('0' as int + d) as char
  }

  function DigitValue(c: char): nat
    requires IsDigit(c)
  {
    c as int - '0' as int
  }

  /** `str(n)` for a natural number (`DecimalDigits`). */
  function Decimal(n: nat): string {
    if n < 10 then [DigitChar(n)] else Decimal(n / 10) + [DigitChar(n % 10)]
  }

  /** `str(n)` is a non-empty string of digits, a single one below 10. */
  lemma {:induction false} DecimalDigits(n: nat)
    ensures |Decimal(n)| >= 1 && forall i :: 0 <= i < |Decimal(n)| ==> IsDigit(Decimal(n)[i])
    ensures n < 10 <==> |Decimal(n)| == 1
  {
    if n >= 10 {
      DecimalDigits(n / 10);
      var d := Decimal(n);
      assert forall i :: 0 <= i < |d| - 1 ==> d[i] == Decimal(n / 10)[i];
    }
  }

  /** The value of a string of decimal digits, as `int(s)` reads it. */
  function DigitsValue(s: string): nat
    requires forall i :: 0 <= i < |s| ==> IsDigit(s[i])
  {
    if s == [] then 0 else DigitsValue(s[..|s| - 1]) * 10 + DigitValue(s[|s| - 1])
  }

  lemma {:induction false} DecimalRoundTrip(n: nat)
    ensures forall i :: 0 <= i < |Decimal(n)| ==> IsDigit(Decimal(n)[i])
    ensures DigitsValue(Decimal(n)) == n
  {
    DecimalDigits(n);
    if n >= 10 {
      DecimalRoundTrip(n / 10);
      var d := Decimal(n);
      assert d[..|d| - 1] == Decimal(n / 10);
    }
  }

  /** `f"{n:02d}"` for a natural number: at least two digits, zero padded
      (`Pad2Spec`). */
  function Pad2(n: nat): string {
    if n < 10 then "0" + Decimal(n) else Decimal(n)
  }

  lemma Pad2Spec(n: nat)
    ensures |Pad2(n)| >= 2 && forall i :: 0 <= i < |Pad2(n)| ==> IsDigit(Pad2(n)[i])
    ensures |Pad2(n)| == 2 <==> n < 100
    ensures DigitsValue(Pad2(n)) == n
  {
    DecimalRoundTrip(n);
    DecimalDigits(n);
    if n < 10 {
      assert ("0" + Decimal(n))[..1] == "0";
    } else {
      DecimalDigits(n / 10);
      if n >= 100 { DecimalDigits(n / 100); assert |Decimal(n / 10)| >= 2; }
    }
  }
}
