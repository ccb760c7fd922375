/** `MockLLM`, the deterministic stand-in model: it flattens the messages
    into the debug prompt, takes the first citation found there (or the
    placeholder `[unknown @ 00:00-00:00]`) and returns a fixed
    two-paragraph answer that closes each paragraph with that citation. */
module MockLlm {
  import opened Wrappers
  import opened Text
  import opened Citations
  import opened Prompts
  import opened Json
  import opened Types

  // The fixed texts are joined from short literals: a proof that reads
  // them (`DefaultCiteShape`, `FixedTextsPlain`) then goes piece by piece
  // instead of unfolding one long literal.

  /** The citation used when the prompt has none. */
  const DefaultCite: string := "[unknown @ " + "00:00-00:00]"

  /** The fixed text before the first citation. */
  const Lead: string :=
    "Based on the " + "provided channel " + "evidence, the " + "creator emphasizes "
    + "grounded, " + "checklist-driven " + "workflows and " + "tool simplicity. "

  /** The fixed text between the two citations: a blank line, then the
      second paragraph. */
  const Middle: string :=
    "\n\n" + "If you want " + "a more detailed " + "synthesis, ingest " + "more transcripts "
    + "and enable a " + "real LLM backend. "

  /** `cite`: the first match of the citation pattern, or the placeholder. */
  function CiteOf(prompt: string): string {
    match FirstCitation(prompt)
    case Some(c) => c
    case None => DefaultCite
  }

  /** The answer text around a citation. */
  function Reply(cite: string): string {
    Lead + cite + Middle + cite
  }

  /** `MockLLM.generate`: the reply for the first citation of the debug
      prompt; the tools, the tool choice and the response format are not
      read. */
  function Generate(messages: seq<Message>, tools: Option<seq<Json>>, toolChoice: Option<Json>,
                    responseFormat: Option<Json>): string {
    Reply(CiteOf(DebugPromptOf(messages)))
  }

  // ---------------------------------------------------------------------
  // The fixed texts

  lemma NoBracketAppend(a: string, b: string)
    requires NoBracket(a) && NoBracket(b)
    ensures NoBracket(a + b)
  {
  }

  /** Neither fixed text holds a `[`, so neither holds a citation. */
  lemma FixedTextsPlain()
    ensures NoBracket(Lead) && NoBracket(Middle)
  {
    NoBracketAppend("Based on the ", "provided channel ");
    NoBracketAppend("Based on the " + "provided channel ", "evidence, the ");
    NoBracketAppend("Based on the " + "provided channel " + "evidence, the ", "creator emphasizes ");
    var l4 := "Based on the " + "provided channel " + "evidence, the " + "creator emphasizes ";
    NoBracketAppend(l4, "grounded, ");
    NoBracketAppend(l4 + "grounded, ", "checklist-driven ");
    NoBracketAppend(l4 + "grounded, " + "checklist-driven ", "workflows and ");
    NoBracketAppend(l4 + "grounded, " + "checklist-driven " + "workflows and ", "tool simplicity. ");
    NoBracketAppend("\n\n", "If you want ");
    NoBracketAppend("\n\n" + "If you want ", "a more detailed ");
    NoBracketAppend("\n\n" + "If you want " + "a more detailed ", "synthesis, ingest ");
    var m4 := "\n\n" + "If you want " + "a more detailed " + "synthesis, ingest ";
    NoBracketAppend(m4, "more transcripts ");
    NoBracketAppend(m4 + "more transcripts ", "and enable a ");
    NoBracketAppend(m4 + "more transcripts " + "and enable a ", "real LLM backend. ");
  }

  /** The placeholder is itself a well-formed citation. */
  lemma DefaultCiteShape()
    ensures WellFormed("unknown", " ", " ", "00:00", "00:00")
    ensures DefaultCite == Citation("unknown", " ", " ", "00:00", "00:00")
  {
    assert IsId("unknown") && AllSpace(" ") && IsClock("00:00");
    assert TimesText("00:00", "00:00") == "00:00-00:00]";
    assert AfterAtText(" ", "00:00", "00:00") == " 00:00-00:00]";
    assert AfterIdText(" ", " ", "00:00", "00:00") == " @ 00:00-00:00]";
  }

  // ---------------------------------------------------------------------
  // Properties

  /** The citation chosen is always a well-formed citation: the first match
      of the prompt when there is one, the placeholder otherwise. */
  lemma CiteShape(prompt: string) returns (id: string, w1: string, w2: string, t1: string, t2: string)
    ensures WellFormed(id, w1, w2, t1, t2) && CiteOf(prompt) == Citation(id, w1, w2, t1, t2)
    ensures HasCitations(prompt) ==> FirstCitation(prompt) == Some(CiteOf(prompt))
    ensures !HasCitations(prompt) ==> CiteOf(prompt) == DefaultCite
  {
    if HasCitations(prompt) {
      CitationAnchored();
      SearchSpec(MatchAt, prompt, 0);
      var x := Search(MatchAt, prompt, 0).value.0;
      id, w1, w2, t1, t2 := MatchShape(prompt, x);
    } else {
      DefaultCiteShape();
      id, w1, w2, t1, t2 := "unknown", " ", " ", "00:00", "00:00";
    }
  }

  /** The reply around a well-formed citation has exactly two citations,
      and the first one is that citation. */
  lemma ReplyCites(id: string, w1: string, w2: string, t1: string, t2: string)
    requires WellFormed(id, w1, w2, t1, t2)
    ensures HasCitations(Reply(Citation(id, w1, w2, t1, t2)))
    ensures CountCitations(Reply(Citation(id, w1, w2, t1, t2))) == 2
    ensures FirstCitation(Reply(Citation(id, w1, w2, t1, t2))) == Some(Citation(id, w1, w2, t1, t2))
  {
    var c := Citation(id, w1, w2, t1, t2);
    var out := Reply(c);
    FixedTextsPlain();
    assert out == Lead + c + (Middle + c);
    CitedAfter(Lead, Middle + c, id, w1, w2, t1, t2);
    ReplyCount(c, id, w1, w2, t1, t2);
  }

  lemma ReplyCount(c: string, id: string, w1: string, w2: string, t1: string, t2: string)
    requires WellFormed(id, w1, w2, t1, t2) && c == Citation(id, w1, w2, t1, t2)
    requires NoBracket(Lead) && NoBracket(Middle)
    ensures CountCitations(Reply(c)) == 2
  {
    TwoCitations(Lead, Middle, id, w1, w2, t1, t2);
  }

  /** A citation, plain text, and the citation again: two matches. */
  lemma TwoCitations(a: string, m: string, id: string, w1: string, w2: string, t1: string, t2: string)
    requires WellFormed(id, w1, w2, t1, t2) && NoBracket(a) && NoBracket(m)
    ensures CountCitations(a + Citation(id, w1, w2, t1, t2) + m + Citation(id, w1, w2, t1, t2)) == 2
  {
    var c := Citation(id, w1, w2, t1, t2);
    var out := a + c + m + c;
    var p := |a|;
    assert out[p..p + |c|] == c;
    CitationMatches(out, p, id, w1, w2, t1, t2);
    assert forall k :: 0 <= k < p ==> out[k] == a[k];
    CountStep(out, 0, p);
    LastCitation(a + c, m, id, w1, w2, t1, t2);
  }

  lemma Pieces(front: string, m: string, c: string)
    ensures (front + m + c)[|front| + |m|..|front| + |m| + |c|] == c
    ensures forall k :: |front| <= k < |front| + |m| ==> (front + m + c)[k] == m[k - |front|]
  {
    assert front + m + c == (front + m) + c;
  }

  /** After the first citation only plain text and one more citation are
      left. */
  lemma LastCitation(front: string, m: string, id: string, w1: string, w2: string, t1: string, t2: string)
    requires WellFormed(id, w1, w2, t1, t2) && NoBracket(m)
    ensures CountFrom(MatchAt, front + m + Citation(id, w1, w2, t1, t2), |front|) == 1
  {
    var c := Citation(id, w1, w2, t1, t2);
    var out := front + m + c;
    var q := |front| + |m|;
    Pieces(front, m, c);
    CitationMatches(out, q, id, w1, w2, t1, t2);
    CountStep(out, |front|, q);
    CitationAnchored();
    assert Search(MatchAt, out, |out|) == None;
  }

  /** The mock always answers with citations, exactly two of them, both the
      chosen one; the first citation of the answer is the first citation of
      the prompt whenever the prompt has one. */
  lemma GenerateCites(messages: seq<Message>, tools: Option<seq<Json>>, toolChoice: Option<Json>,
                      responseFormat: Option<Json>)
    ensures HasCitations(Generate(messages, tools, toolChoice, responseFormat))
    ensures CountCitations(Generate(messages, tools, toolChoice, responseFormat)) == 2
    ensures FirstCitation(Generate(messages, tools, toolChoice, responseFormat))
      == Some(CiteOf(DebugPromptOf(messages)))
    ensures HasCitations(DebugPromptOf(messages)) ==>
      FirstCitation(Generate(messages, tools, toolChoice, responseFormat)) == FirstCitation(DebugPromptOf(messages))
  {
    var id, w1, w2, t1, t2 := CiteShape(DebugPromptOf(messages));
    ReplyCites(id, w1, w2, t1, t2);
  }

  /** The answer depends on the messages alone. */
  lemma OptionsIgnored(messages: seq<Message>, tools: Option<seq<Json>>, toolChoice: Option<Json>,
                       responseFormat: Option<Json>)
    ensures Generate(messages, tools, toolChoice, responseFormat) == Generate(messages, None, None, None)
  {
  }

  /** For messages built with a citable evidence chunk, the mock cites the
      first citation of the prompt, not the placeholder. */
  lemma CitesEvidence(question: string, channelTitle: string, sections: seq<string>,
                      chunks: seq<RetrievedChunk>, k: nat)
    requires k < |chunks| && IsId(chunks[k].videoId)
    requires 0 <= chunks[k].startMs < 100 * 3600 * 1000 && 0 <= chunks[k].endMs < 100 * 3600 * 1000
    ensures FirstCitation(Generate(Messages(question, channelTitle, sections, chunks), None, None, None))
      == FirstCitation(DebugPromptOf(Messages(question, channelTitle, sections, chunks)))
  {
    EvidencePromptCites(question, channelTitle, sections, chunks, k);
    GenerateCites(Messages(question, channelTitle, sections, chunks), None, None, None);
  }
}
