/** Prompt assembly: `build_messages` turns the question, the channel title,
    the section summaries and the retrieved chunks into a system message
    (the grounding rules) and a user message, and
    `messages_to_debug_prompt` flattens a message list into one text, as
    the mock model reads it. */
module Prompts {
  import opened Wrappers
  import opened Text
  import opened Types
  import opened Citations

  /** A content part `{"type": ..., "text": ...}`; a missing key is `None`. */
  datatype Part = Part(kind: Option<string>, text: Option<string>)

  /** A chat message `{"role": ..., "content": [...]}`; a missing content
      list is `None`. */
  datatype Message = Message(role: string, content: Option<seq<Part>>)

  /** `SYSTEM_RULES_TEXT`. */
  const SystemRulesText: string :=
    "You are a channel-specific expert assistant.\n"
    + "Only answer using the provided evidence snippets from the channel pack.\n"
    + "If evidence is insufficient, say so and suggest what to add (which video/transcript is missing).\n"
    + "\n"
    + "For every non-trivial claim, include a citation in the format:\n"
    + "  [video_id @ mm:ss-mm:ss]\n"
    + "\n"
    + "Do not invent citations.\n"

  // Each header is a short literal and the rest, so that the proofs that
  // read a header's first character see it without unfolding a long literal.
  const SectionsHeader: string := "Relevant " + "sections (summaries):"
  const EvidenceHeader: string := "Evidence " + "snippets (verbatim transcript excerpts):"
  const Closing: string := "Write " + "the best possible answer. Use citations inline."

  /** `_text_message`: one message holding one text part. */
  function TextMessage(role: string, text: string): Message {
    Message(role, Some([Part(Some("text"), Some(text))]))
  }

  // ---------------------------------------------------------------------
  // The user message, line by line

  /** One line per element, in order (`MapLinesAt`). */
  function MapLines<T>(xs: seq<T>, line: T -> string): (r: seq<string>)
    ensures |r| == |xs|
  {
    if xs == [] then [] else MapLines(xs[..|xs| - 1], line) + [line(xs[|xs| - 1])]
  }

  lemma {:induction false} MapLinesAt<T>(xs: seq<T>, line: T -> string)
    ensures forall k :: 0 <= k < |xs| ==> MapLines(xs, line)[k] == line(xs[k])
  {
    if xs != [] {
      var init := xs[..|xs| - 1];
      MapLinesAt(init, line);
      assert forall k :: 0 <= k < |init| ==> xs[k] == init[k];
    }
  }

  function SectionLine(s: string): string {
    "- " + s
  }

  /** `[video_id @ start-end]` for a chunk. */
  function EvidenceTag(c: RetrievedChunk): string {
    "[" + c.videoId + " @ " + MsToTimestamp(c.startMs) + "-" + MsToTimestamp(c.endMs) + "]"
  }

  function EvidenceLine(c: RetrievedChunk): string {
    EvidenceTag(c) + " " + c.text
  }

  lemma EvidenceLineStart(c: RetrievedChunk)
    ensures |EvidenceLine(c)| > 0 && EvidenceLine(c)[0] == '['
  {
  }

  /** The line `build_messages` writes is the tag, a space and the text. */
  lemma TagLine(id: string, a: string, b: string, text: string)
    ensures "[" + id + " @ " + a + "-" + b + "] " + text == "[" + id + " @ " + a + "-" + b + "]" + " " + text
  {
  }

  /** A list holding `line` of each element, in order, is `MapLines`. */
  lemma MapLinesOf<T>(xs: seq<T>, line: T -> string, lines: seq<string>)
    requires |lines| == |xs| && forall k :: 0 <= k < |xs| ==> lines[k] == line(xs[k])
    ensures lines == MapLines(xs, line)
  {
    MapLinesAt(xs, line);
  }

  /** `MapLines` over a prefix one element longer. */
  lemma MapLinesSnoc<T>(xs: seq<T>, i: nat, line: T -> string)
    requires i < |xs|
    ensures MapLines(xs[..i + 1], line) == MapLines(xs[..i], line) + [line(xs[i])]
  {
    assert xs[..i + 1][..i] == xs[..i];
  }

  /** The evidence lines of the retrieved chunks, one per chunk. */
  function EvidenceLines(chunks: seq<RetrievedChunk>): seq<string> {
    MapLines(chunks, EvidenceLine)
  }

  function Head(question: string, channelTitle: string): seq<string> {
    ["Channel: " + channelTitle, "Question: " + question]
  }

  function SectionBlock(sections: seq<string>): seq<string> {
    if sections == [] then [] else ["", SectionsHeader] + MapLines(sections, SectionLine)
  }

  function EvidenceBlock(evidence: seq<string>): seq<string> {
    if evidence == [] then [] else ["", EvidenceHeader] + evidence
  }

  /** The lines of the user message, given the rendered evidence lines. */
  function UserLines(question: string, channelTitle: string, sections: seq<string>, evidence: seq<string>): seq<string> {
    Head(question, channelTitle) + SectionBlock(sections) + EvidenceBlock(evidence) + ["", Closing]
  }

  function UserText(question: string, channelTitle: string, sections: seq<string>, evidence: seq<string>): string {
    Join(UserLines(question, channelTitle, sections, evidence), "\n")
  }

  /** The system message with the rules and the user message with `userText`. */
  function MessagesOf(userText: string): seq<Message> {
    [TextMessage("system", SystemRulesText), TextMessage("user", userText)]
  }

  /** What `build_messages` returns. */
  function Messages(question: string, channelTitle: string, sections: seq<string>, chunks: seq<RetrievedChunk>): seq<Message> {
    MessagesOf(UserText(question, channelTitle, sections, EvidenceLines(chunks)))
  }

  /** `build_messages`: the user lines are appended one by one, each block
      only when its list is non-empty. */
  method BuildMessages(question: string, channelTitle: string, sections: seq<string>, chunks: seq<RetrievedChunk>)
    returns (msgs: seq<Message>)
    ensures msgs == Messages(question, channelTitle, sections, chunks)
  {
    msgs := [TextMessage("system", SystemRulesText)];
    var userLines: seq<string> := [];
    userLines := userLines + ["Channel: " + channelTitle];
    userLines := userLines + ["Question: " + question];
    ListShapes("Channel: " + channelTitle, "Question: " + question, "", SectionsHeader, []);
    if sections != [] {
      userLines := userLines + [""];
      userLines := userLines + [SectionsHeader];
      userLines := AppendSectionLines(userLines, sections);
      ListShapes("Channel: " + channelTitle, "Question: " + question, "", SectionsHeader, MapLines(sections, SectionLine));
    }
    ghost var front := userLines;
    assert front == Head(question, channelTitle) + SectionBlock(sections);
    ghost var evidence := EvidenceLines(chunks);
    if chunks != [] {
      userLines := userLines + [""];
      userLines := userLines + [EvidenceHeader];
      userLines := AppendEvidenceLines(userLines, chunks);
      BlockShape(front, "", EvidenceHeader, evidence);
    } else {
      BlockShape(front, "", EvidenceHeader, []);
    }
    assert userLines == Head(question, channelTitle) + SectionBlock(sections) + EvidenceBlock(evidence);
    userLines := userLines + [""];
    userLines := userLines + [Closing];
    CloseShape(Head(question, channelTitle), SectionBlock(sections), EvidenceBlock(evidence), "", Closing);
    assert userLines == UserLines(question, channelTitle, sections, evidence);
    msgs := msgs + [TextMessage("user", Join(userLines, "\n"))];
  }

  /** How the appends of `build_messages` group into its blocks. */
  lemma ListShapes<T>(x: T, y: T, z: T, w: T, m: seq<T>)
    ensures [] + [x] + [y] == [x, y] + []
    ensures [] + [x] + [y] + [z] + [w] + m == [x, y] + ([z, w] + m)
  {
  }

  lemma BlockShape<T>(front: seq<T>, z: T, w: T, m: seq<T>)
    ensures front + [z] + [w] + m == front + ([z, w] + m)
    ensures front == front + []
  {
  }

  lemma CloseShape<T>(a: seq<T>, b: seq<T>, c: seq<T>, z: T, w: T)
    ensures a + b + c + [z] + [w] == a + b + c + [z, w]
  {
  }

  lemma AppendAssoc<T>(a: seq<T>, b: seq<T>, c: seq<T>)
    ensures a + b + c == a + (b + c)
  {
  }

  lemma SliceSnoc<T>(s: seq<T>, i: nat)
    requires i < |s|
    ensures s[..i + 1] == s[..i] + [s[i]] && s[..|s|] == s
  {
  }

  /** The loop over the sections: one `- s` line each. */
  method AppendSectionLines(lines: seq<string>, sections: seq<string>) returns (r: seq<string>)
    ensures r == lines + MapLines(sections, SectionLine)
  {
    r := lines;
    var i := 0;
    while i < |sections|
      invariant 0 <= i <= |sections|
      invariant r == lines + MapLines(sections[..i], SectionLine)
    {
      MapLinesSnoc(sections, i, SectionLine);
      r := r + ["- " + sections[i]];
      i := i + 1;
    }
    assert sections[..|sections|] == sections;
  }

  /** The loop over the chunks: the two timestamps, then the tagged line. */
  method AppendEvidenceLines(lines: seq<string>, chunks: seq<RetrievedChunk>) returns (r: seq<string>)
    ensures r == lines + EvidenceLines(chunks)
  {
    ghost var evidence := EvidenceLines(chunks);
    MapLinesAt(chunks, EvidenceLine);
    r := lines;
    var i := 0;
    while i < |chunks|
      invariant 0 <= i <= |chunks|
      invariant r == lines + evidence[..i]
    {
      var c := chunks[i];
      var a := MsToTimestamp(c.startMs);
      var b := MsToTimestamp(c.endMs);
      TagLine(c.videoId, a, b, c.text);
      SliceSnoc(evidence, i);
      AppendAssoc(lines, evidence[..i], [evidence[i]]);
      r := r + ["[" + c.videoId + " @ " + a + "-" + b + "] " + c.text];
      i := i + 1;
    }
    if chunks == [] {
      BlockShape(lines, "", "", []);
    } else {
      SliceSnoc(evidence, 0);
    }
  }

  // ---------------------------------------------------------------------
  // Properties of `build_messages`

  /** Two messages, system then user, each with a single text part; the
      system text is the grounding rules and the user text is `userText`. */
  lemma MessagesShape(userText: string)
    ensures |MessagesOf(userText)| == 2
    ensures MessagesOf(userText)[0].role == "system" && MessagesOf(userText)[1].role == "user"
    ensures forall m <- MessagesOf(userText) ::
      m.content.Some? && |m.content.value| == 1 && m.content.value[0].kind == Some("text")
    ensures TextOf(MessagesOf(userText)[0].content.GetOr([])) == SystemRulesText
    ensures TextOf(MessagesOf(userText)[1].content.GetOr([])) == userText
  {
    TextOfSingle(SystemRulesText);
    TextOfSingle(userText);
  }

  /** The section block has two lines more than there are sections. */
  function SectionCount(sections: seq<string>): nat {
    if sections == [] then 0 else 2 + |sections|
  }

  /** No evidence line is a header: each starts with `[`. */
  predicate Tagged(evidence: seq<string>) {
    forall k :: 0 <= k < |evidence| ==> |evidence[k]| > 0 && evidence[k][0] == '['
  }

  /** Every evidence line starts with the `[` of its tag. */
  lemma EvidenceLinesTagged(chunks: seq<RetrievedChunk>)
    ensures |EvidenceLines(chunks)| == |chunks| && Tagged(EvidenceLines(chunks))
  {
    var ev := EvidenceLines(chunks);
    MapLinesAt(chunks, EvidenceLine);
    forall k | 0 <= k < |chunks| ensures |ev[k]| > 0 && ev[k][0] == '[' {
      EvidenceLineStart(chunks[k]);
    }
  }

  /** The layout of the user lines: `Channel:`, `Question:`, then the
      section block (a blank line, its header, one `- s` line per section),
      then the evidence block (a blank line, its header, the evidence
      lines), then a blank line and the closing instruction. When the
      evidence lines are tagged, each header is there exactly when its list
      is non-empty. */
  lemma UserLinesLayout(question: string, channelTitle: string, sections: seq<string>, evidence: seq<string>)
    ensures var lines := UserLines(question, channelTitle, sections, evidence);
      var o := 2 + SectionCount(sections);
      && |lines| == o + (if evidence == [] then 0 else 2 + |evidence|) + 2
      && lines[0] == "Channel: " + channelTitle && lines[1] == "Question: " + question
      && (sections != [] ==>
            lines[2] == "" && lines[3] == SectionsHeader
            && forall k :: 0 <= k < |sections| ==> lines[4 + k] == "- " + sections[k])
      && (evidence != [] ==>
            lines[o] == "" && lines[o + 1] == EvidenceHeader
            && forall k :: 0 <= k < |evidence| ==> lines[o + 2 + k] == evidence[k])
      && lines[|lines| - 2] == "" && lines[|lines| - 1] == Closing
      && (Tagged(evidence) ==> (SectionsHeader in lines <==> sections != []))
      && (Tagged(evidence) ==> (EvidenceHeader in lines <==> evidence != []))
  {
    UserLinesFront(question, channelTitle, sections, evidence);
    UserLinesBack(question, channelTitle, sections, evidence);
    if Tagged(evidence) {
      UserLinesHeaders(question, channelTitle, sections, evidence);
    }
  }

  /** The channel and question lines, then the section block. */
  lemma UserLinesFront(question: string, channelTitle: string, sections: seq<string>, evidence: seq<string>)
    ensures var lines := UserLines(question, channelTitle, sections, evidence);
      && |lines| == 2 + SectionCount(sections) + (if evidence == [] then 0 else 2 + |evidence|) + 2
      && lines[0] == "Channel: " + channelTitle && lines[1] == "Question: " + question
      && (sections != [] ==>
            lines[2] == "" && lines[3] == SectionsHeader
            && forall k :: 0 <= k < |sections| ==> lines[4 + k] == "- " + sections[k])
  {
    var h, sb, eb := Head(question, channelTitle), SectionBlock(sections), EvidenceBlock(evidence);
    var lines := h + sb + (eb + ["", Closing]);
    assert lines == UserLines(question, channelTitle, sections, evidence);
    assert |sb| == SectionCount(sections);
    MapLinesAt(sections, SectionLine);
    forall k | 0 <= k < |sb| ensures lines[2 + k] == sb[k] {
    }
  }

  /** The evidence block, then the blank line and the closing instruction. */
  lemma UserLinesBack(question: string, channelTitle: string, sections: seq<string>, evidence: seq<string>)
    ensures var lines := UserLines(question, channelTitle, sections, evidence);
      var o := 2 + SectionCount(sections);
      && |lines| == o + |EvidenceBlock(evidence)| + 2
      && (evidence != [] ==>
            lines[o] == "" && lines[o + 1] == EvidenceHeader
            && forall k :: 0 <= k < |evidence| ==> lines[o + 2 + k] == evidence[k])
      && lines[|lines| - 2] == "" && lines[|lines| - 1] == Closing
  {
    var hs, eb := Head(question, channelTitle) + SectionBlock(sections), EvidenceBlock(evidence);
    var lines := hs + eb + ["", Closing];
    assert lines == UserLines(question, channelTitle, sections, evidence);
    assert |hs| == 2 + SectionCount(sections);
    forall k | 0 <= k < |eb| ensures lines[|hs| + k] == eb[k] {
    }
  }

  /** With tagged evidence lines, a header is among the user lines exactly
      when its list is non-empty. */
  lemma UserLinesHeaders(question: string, channelTitle: string, sections: seq<string>, evidence: seq<string>)
    requires Tagged(evidence)
    ensures SectionsHeader in UserLines(question, channelTitle, sections, evidence) <==> sections != []
    ensures EvidenceHeader in UserLines(question, channelTitle, sections, evidence) <==> evidence != []
  {
    var lines := UserLines(question, channelTitle, sections, evidence);
    UserLinesFront(question, channelTitle, sections, evidence);
    UserLinesBack(question, channelTitle, sections, evidence);
    if SectionsHeader in lines {
      var p :| 0 <= p < |lines| && lines[p] == SectionsHeader;
      HeaderPlace(question, channelTitle, sections, evidence, p);
    }
    if EvidenceHeader in lines {
      var p :| 0 <= p < |lines| && lines[p] == EvidenceHeader;
      HeaderPlace(question, channelTitle, sections, evidence, p);
    }
    if sections != [] {
      assert lines[3] == SectionsHeader;
    }
    if evidence != [] {
      assert lines[2 + SectionCount(sections) + 1] == EvidenceHeader;
    }
  }

  /** Where a header can stand: every other line starts differently. */
  lemma HeaderPlace(question: string, channelTitle: string, sections: seq<string>, evidence: seq<string>, p: nat)
    requires Tagged(evidence)
    requires p < |UserLines(question, channelTitle, sections, evidence)|
    requires UserLines(question, channelTitle, sections, evidence)[p] in {SectionsHeader, EvidenceHeader}
    ensures UserLines(question, channelTitle, sections, evidence)[p] == SectionsHeader ==> sections != []
    ensures UserLines(question, channelTitle, sections, evidence)[p] == EvidenceHeader ==> evidence != []
  {
    var h, sb, eb := Head(question, channelTitle), SectionBlock(sections), EvidenceBlock(evidence);
    var lines := h + sb + eb + ["", Closing];
    assert lines == UserLines(question, channelTitle, sections, evidence);
    var x := lines[p];
    assert x == SectionsHeader || x == EvidenceHeader;
    assert SectionsHeader[0] == 'R' && EvidenceHeader[0] == 'E';
    assert x[0] == 'R' || x[0] == 'E';
    if p < 2 {
      assert x == h[p] && x[0] == h[p][0] == if p == 0 then 'C' else 'Q';
    } else if p < 2 + |sb| {
      assert x == sb[p - 2];
      if p >= 4 {
        MapLinesAt(sections, SectionLine);
        assert x == "- " + sections[p - 4] && x[0] == '-';
      }
      assert x == SectionsHeader;
    } else if p < 2 + |sb| + |eb| {
      var q := p - 2 - |sb|;
      assert x == eb[q];
      if q >= 2 {
        assert x == evidence[q - 2] && x[0] == '[';
      }
      assert x == EvidenceHeader;
    } else {
      assert false;
    }
  }

  /** The user text opens with the channel and question lines and ends
      with a blank line and the closing instruction. */
  lemma UserTextEnds(question: string, channelTitle: string, sections: seq<string>, evidence: seq<string>)
    ensures StartsWith(UserText(question, channelTitle, sections, evidence),
                       "Channel: " + channelTitle + "\n" + "Question: " + question + "\n")
    ensures EndsWith(UserText(question, channelTitle, sections, evidence), "\n\n" + Closing)
  {
    UserTextStart(question, channelTitle, sections, evidence);
    UserTextEnd(question, channelTitle, sections, evidence);
  }

  lemma UserTextStart(question: string, channelTitle: string, sections: seq<string>, evidence: seq<string>)
    ensures StartsWith(UserText(question, channelTitle, sections, evidence),
                       "Channel: " + channelTitle + "\n" + "Question: " + question + "\n")
  {
    var h := Head(question, channelTitle);
    var rest := SectionBlock(sections) + EvidenceBlock(evidence) + ["", Closing];
    RegroupFront(h, SectionBlock(sections), EvidenceBlock(evidence), ["", Closing]);
    JoinStart(h[0], h[1], rest, "\n");
  }

  lemma UserTextEnd(question: string, channelTitle: string, sections: seq<string>, evidence: seq<string>)
    ensures EndsWith(UserText(question, channelTitle, sections, evidence), "\n\n" + Closing)
  {
    JoinEnd(Head(question, channelTitle) + SectionBlock(sections) + EvidenceBlock(evidence), Closing, "\n");
    assert "\n" + "\n" == "\n\n";
  }

  lemma RegroupFront<T>(h: seq<T>, b: seq<T>, c: seq<T>, d: seq<T>)
    requires |h| == 2
    ensures h + b + c + d == [h[0], h[1]] + (b + c + d)
  {
  }

  /** Lines `x`, `y`, then more: the text opens with `x`, `y` and their
      separators. */
  lemma JoinStart(x: string, y: string, rest: seq<string>, sep: string)
    requires rest != []
    ensures StartsWith(Join([x, y] + rest, sep), x + sep + y + sep)
  {
    assert [x, y] + rest == [x] + ([y] + rest);
    JoinCons(x, [y] + rest, sep);
    JoinCons(y, rest, sep);
    TwoLinesStart(x, y, sep, Join(rest, sep));
  }

  lemma TwoLinesStart(x: string, y: string, sep: string, tail: string)
    ensures StartsWith(x + sep + (y + sep + tail), x + sep + y + sep)
  {
    assert x + sep + (y + sep + tail) == (x + sep + y + sep) + tail;
  }

  /** Lines ending with a blank line and `last`: the text ends with two
      separators and `last`. */
  lemma JoinEnd(init: seq<string>, last: string, sep: string)
    requires init != []
    ensures EndsWith(Join(init + ["", last], sep), sep + sep + last)
  {
    assert init + ["", last] == (init + [""]) + [last];
    JoinAppend(init + [""], [last], sep);
    JoinAppend(init, [""], sep);
    var j := Join(init, sep);
    BlankThenLast(j, sep, last);
    SuffixEnds(j, sep + sep + last);
  }

  lemma BlankThenLast(j: string, sep: string, last: string)
    ensures j + sep + "" + sep + last == j + (sep + sep + last)
  {
  }

  lemma SuffixEnds(a: string, b: string)
    ensures EndsWith(a + b, b)
  {
    assert (a + b)[|a|..] == b;
  }

  /** The timestamps of a chunk under 100 hours are in the clock pattern. */
  lemma TimestampIsClock(ms: int)
    requires 0 <= ms < 100 * 3600 * 1000
    ensures IsClock(MsToTimestamp(ms))
  {
    TimestampRoundTrip(ms);
    var t := MsToTimestamp(ms);
    if ClockLongAt(t, 0).Some? && ClockLongAt(t, 0).value.0 == |t| {
      assert |t| == 8;
    } else {
      assert ClockShortAt(t, 0).Some?;
    }
  }

  /** An evidence tag whose id is over `[A-Za-z0-9_-]` and whose times are
      under 100 hours is a citation, and it is the first citation of its
      evidence line. */
  lemma EvidenceTagCites(c: RetrievedChunk)
    requires IsId(c.videoId)
    requires 0 <= c.startMs < 100 * 3600 * 1000 && 0 <= c.endMs < 100 * 3600 * 1000
    ensures HasCitations(EvidenceTag(c))
    ensures FirstCitation(EvidenceLine(c)) == Some(EvidenceTag(c))
  {
    TimestampIsClock(c.startMs);
    TimestampIsClock(c.endMs);
    TagCites(c.videoId, MsToTimestamp(c.startMs), MsToTimestamp(c.endMs), c.text);
  }

  /** `[id @ t1-t2]` with a well-formed id and two clock times is a
      citation, and the first one of the line it opens. */
  lemma TagCites(id: string, t1: string, t2: string, text: string)
    requires IsId(id) && IsClock(t1) && IsClock(t2)
    ensures HasCitations("[" + id + " @ " + t1 + "-" + t2 + "]")
    ensures FirstCitation("[" + id + " @ " + t1 + "-" + t2 + "]" + " " + text)
      == Some("[" + id + " @ " + t1 + "-" + t2 + "]")
  {
    var tag := "[" + id + " @ " + t1 + "-" + t2 + "]";
    assert AllSpace(" ");
    assert tag == Citation(id, " ", " ", t1, t2);
    CitationFound(id, " ", " ", t1, t2);
    CitedAfter("", " " + text, id, " ", " ", t1, t2);
    assert tag + " " + text == "" + tag + (" " + text);
  }

  // ---------------------------------------------------------------------
  // `messages_to_debug_prompt`

  /** `"".join(p.get("text", "") for p in content if p.get("type") == "text")`. */
  function TextOf(content: seq<Part>): string {
    if content == [] then ""
    else
      var p := content[|content| - 1];
      TextOf(content[..|content| - 1]) + (if p.kind == Some("text") then p.text.GetOr("") else "")
  }

  /** The text of a content list is the text of its pieces, in order. */
  lemma {:induction false} TextOfAppend(a: seq<Part>, b: seq<Part>)
    ensures TextOf(a + b) == TextOf(a) + TextOf(b)
    decreases |b|
  {
    if b != [] {
      assert (a + b)[..|a + b| - 1] == a + b[..|b| - 1];
      TextOfAppend(a, b[..|b| - 1]);
    } else {
      assert a + b == a;
    }
  }

  /** Parts of another type add nothing; a text part adds its text, or
      nothing without one. */
  lemma TextOfPart(p: Part)
    ensures TextOf([p]) == if p.kind == Some("text") then p.text.GetOr("") else ""
  {
    assert [p][..0] == [];
  }

  lemma TextOfSingle(text: string)
    ensures TextOf(Some([Part(Some("text"), Some(text))]).GetOr([])) == text
  {
    TextOfPart(Part(Some("text"), Some(text)));
  }

  /** `f"{m['role'].upper()}:\n{text}"`. */
  function Block(m: Message): string {
    Upper(m.role) + ":\n" + TextOf(m.content.GetOr([]))
  }

  function Blocks(ms: seq<Message>): (r: seq<string>)
    ensures |r| == |ms| && forall k :: 0 <= k < |ms| ==> r[k] == Block(ms[k])
  {
    if ms == [] then [] else Blocks(ms[..|ms| - 1]) + [Block(ms[|ms| - 1])]
  }

  /** What `messages_to_debug_prompt` returns. */
  function DebugPromptOf(ms: seq<Message>): string {
    Join(Blocks(ms) + ["ASSISTANT:"], "\n\n")
  }

  /** `messages_to_debug_prompt`: one block per message, appended in a
      loop, then `ASSISTANT:`, joined by blank lines. */
  method MessagesToDebugPrompt(messages: seq<Message>) returns (prompt: string)
    ensures prompt == DebugPromptOf(messages)
  {
    var parts: seq<string> := [];
    var i := 0;
    while i < |messages|
      invariant 0 <= i <= |messages|
      invariant parts == Blocks(messages[..i])
    {
      var m := messages[i];
      var text := TextOf(m.content.GetOr([]));
      assert messages[..i + 1][..i] == messages[..i];
      parts := parts + [Upper(m.role) + ":\n" + text];
      i := i + 1;
    }
    assert messages[..|messages|] == messages;
    parts := parts + ["ASSISTANT:"];
    prompt := Join(parts, "\n\n");
  }

  /** The prompt is the blocks joined by blank lines, then a blank line and
      `ASSISTANT:`; with no messages it is `ASSISTANT:` alone. */
  lemma DebugPromptShape(ms: seq<Message>)
    ensures ms == [] ==> DebugPromptOf(ms) == "ASSISTANT:"
    ensures ms != [] ==> DebugPromptOf(ms) == Join(Blocks(ms), "\n\n") + "\n\n" + "ASSISTANT:"
    ensures EndsWith(DebugPromptOf(ms), "ASSISTANT:")
  {
    var p := DebugPromptOf(ms);
    if ms == [] {
      assert Blocks(ms) + ["ASSISTANT:"] == ["ASSISTANT:"];
    } else {
      JoinAppend(Blocks(ms), ["ASSISTANT:"], "\n\n");
    }
    assert p[|p| - 10..] == "ASSISTANT:";
  }

  lemma UpperRoles()
    ensures Upper("system") == "SYSTEM" && Upper("user") == "USER"
  {
    assert Upper("system")[0] == 'S';
    assert Upper("user")[0] == 'U';
  }

  /** The debug prompt of the built messages: the rules under `SYSTEM:`,
      the user text under `USER:`, then `ASSISTANT:`. */
  lemma BuiltPrompt(userText: string)
    ensures DebugPromptOf(MessagesOf(userText))
      == "SYSTEM:\n" + SystemRulesText + "\n\n" + "USER:\n" + userText + "\n\n" + "ASSISTANT:"
  {
    SystemUserPrompt(SystemRulesText, userText);
  }

  /** The debug prompt of a system message and a user message. */
  lemma SystemUserPrompt(systemText: string, userText: string)
    ensures DebugPromptOf([TextMessage("system", systemText), TextMessage("user", userText)])
      == "SYSTEM:\n" + systemText + "\n\n" + "USER:\n" + userText + "\n\n" + "ASSISTANT:"
  {
    var ms := [TextMessage("system", systemText), TextMessage("user", userText)];
    UpperRoles();
    BlockOf("system", systemText);
    BlockOf("user", userText);
    assert "SYSTEM" + ":\n" == "SYSTEM:\n" && "USER" + ":\n" == "USER:\n";
    assert Blocks(ms) == [Block(ms[0])] + [Block(ms[1])];
    DebugPromptShape(ms);
    JoinCons("SYSTEM:\n" + systemText, ["USER:\n" + userText], "\n\n");
  }

  /** The block of a one-part text message. */
  lemma BlockOf(role: string, text: string)
    ensures Block(TextMessage(role, text)) == Upper(role) + ":\n" + text
  {
    TextOfSingle(text);
  }

  /** A cited line among the user lines leaves a citation in the user
      text. */
  lemma CitedLineText(question: string, channelTitle: string, sections: seq<string>, evidence: seq<string>, k: nat)
    requires k < |evidence| && HasCitations(evidence[k])
    ensures HasCitations(UserText(question, channelTitle, sections, evidence))
  {
    UserLinesBack(question, channelTitle, sections, evidence);
    CitedJoin(UserLines(question, channelTitle, sections, evidence), 2 + SectionCount(sections) + 2 + k, "\n");
  }

  /** A cited line leaves a citation in the joined text. */
  lemma CitedJoin(lines: seq<string>, k: nat, sep: string)
    requires k < |lines| && HasCitations(lines[k])
    ensures HasCitations(Join(lines, sep))
  {
    var a, b := JoinSplit(lines, sep, k);
    ContainsCited(a, lines[k], b);
  }

  /** A cited user text leaves a citation in the debug prompt. */
  lemma CitedUserPrompt(userText: string)
    requires HasCitations(userText)
    ensures HasCitations(DebugPromptOf(MessagesOf(userText)))
  {
    BuiltPrompt(userText);
    var front := "SYSTEM:\n" + SystemRulesText + "\n\n" + "USER:\n";
    Regroup(front, userText, "\n\n", "ASSISTANT:");
    ContainsCited(front, userText, "\n\n" + "ASSISTANT:");
  }

  lemma Regroup(front: string, u: string, sep: string, last: string)
    ensures front + u + sep + last == front + u + (sep + last)
  {
  }

  /** A cited line among the user lines leaves a citation in the debug
      prompt. */
  lemma CitedLinePrompt(question: string, channelTitle: string, sections: seq<string>, evidence: seq<string>, k: nat)
    requires k < |evidence| && HasCitations(evidence[k])
    ensures HasCitations(DebugPromptOf(MessagesOf(UserText(question, channelTitle, sections, evidence))))
  {
    CitedLineText(question, channelTitle, sections, evidence, k);
    CitedUserPrompt(UserText(question, channelTitle, sections, evidence));
  }

  /** When some chunk's tag is a citation, the debug prompt of the built
      messages has citations. */
  lemma EvidencePromptCites(question: string, channelTitle: string, sections: seq<string>, chunks: seq<RetrievedChunk>, k: nat)
    requires k < |chunks| && IsId(chunks[k].videoId)
    requires 0 <= chunks[k].startMs < 100 * 3600 * 1000 && 0 <= chunks[k].endMs < 100 * 3600 * 1000
    ensures HasCitations(DebugPromptOf(Messages(question, channelTitle, sections, chunks)))
  {
    var c := chunks[k];
    EvidenceTagCites(c);
    assert EvidenceLine(c) == "" + EvidenceTag(c) + (" " + c.text);
    ContainsCited("", EvidenceTag(c), " " + c.text);
    MapLinesAt(chunks, EvidenceLine);
    CitedLinePrompt(question, channelTitle, sections, EvidenceLines(chunks), k);
  }
}
