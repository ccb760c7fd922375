/** `normalize_segments`: collapse whitespace in each segment's text, trim it,
    and drop the segments left empty. */
module Normalize {
  import opened Text
  import opened Types

  /** The segment with its text normalised and every other field kept. */
  function NormalizeSegment(s: Segment): Segment {
    s.(text := NormalizeText(s.text))
  }

  predicate Keeps(s: Segment) {
    NormalizeText(s.text) != []
  }

  /** A segment as normalisation leaves it: non-empty canonical text. */
  predicate Clean(s: Segment) {
    s.text != [] && Canonical(s.text)
  }

  /** What the loop produces from `segs`: the kept segments, normalised, in order. */
  function Normalized(segs: seq<Segment>): seq<Segment> {
    if segs == [] then []
    else
      var last := segs[|segs| - 1];
      Normalized(segs[..|segs| - 1]) + (if Keeps(last) then [NormalizeSegment(last)] else [])
  }

  method NormalizeSegments(segments: seq<Segment>) returns (out: seq<Segment>)
    ensures out == Normalized(segments)
  {
    out := [];
    for i := 0 to |segments|
      invariant out == Normalized(segments[..i])
    {
      var s := segments[i];
      NormalizedPrefix(segments, i);
      var txt := NormalizeText(s.text);
      if txt == [] {
        continue;
      }
      out := out + [s.(text := txt)];
    }
    assert segments[..|segments|] == segments;
  }

  lemma NormalizedPrefix(segs: seq<Segment>, i: nat)
    requires i < |segs|
    ensures Normalized(segs[..i + 1])
         == Normalized(segs[..i]) + (if Keeps(segs[i]) then [NormalizeSegment(segs[i])] else [])
  {
    assert segs[..i + 1][..i] == segs[..i];
  }

  /** A normalised list is no longer than its input; every element has
      non-empty canonical text and is some input segment with only its text
      normalised. */
  lemma {:induction false} NormalizedShape(segs: seq<Segment>)
    ensures |Normalized(segs)| <= |segs|
    ensures forall o <- Normalized(segs) :: Clean(o)
    ensures forall o <- Normalized(segs) :: exists s <- segs :: Keeps(s) && o == NormalizeSegment(s)
  {
    if segs != [] {
      var init := segs[..|segs| - 1];
      NormalizedShape(init);
      forall o <- Normalized(segs) ensures exists s <- segs :: Keeps(s) && o == NormalizeSegment(s) {
        if o in Normalized(init) {
          var s :| s in init && Keeps(s) && o == NormalizeSegment(s);
          assert s in segs;
        } else {
          assert segs[|segs| - 1] in segs;
        }
      }
    }
  }

  /** Normalising twice is normalising once. */
  lemma {:induction false} NormalizedIdempotent(segs: seq<Segment>)
    ensures Normalized(Normalized(segs)) == Normalized(segs)
  {
    NormalizedShape(segs);
    NormalizedFixed(Normalized(segs));
  }

  /** Segments whose texts are already canonical and non-empty are left as they are. */
  lemma {:induction false} NormalizedFixed(segs: seq<Segment>)
    requires forall o <- segs :: Clean(o)
    ensures Normalized(segs) == segs
  {
    if segs != [] {
      var init := segs[..|segs| - 1];
      var last := segs[|segs| - 1];
      assert segs == init + [last];
      assert Clean(last);
      NormalizedFixed(init);
      NormalizeCanonical(last.text);
    }
  }

  /** Input whose texts are all whitespace normalises to nothing. */
  lemma {:induction false} NormalizedAllBlank(segs: seq<Segment>)
    requires forall s <- segs :: AllSpace(s.text)
    ensures Normalized(segs) == []
  {
    if segs != [] {
      NormalizedAllBlank(segs[..|segs| - 1]);
      NormalizeEmptyIffAllSpace(segs[|segs| - 1].text);
    }
  }

  /** A segment is kept exactly when its text is not all whitespace. */
  lemma KeepsIffNotBlank(s: Segment)
    ensures Keeps(s) <==> !AllSpace(s.text)
  {
    NormalizeEmptyIffAllSpace(s.text);
  }
}
