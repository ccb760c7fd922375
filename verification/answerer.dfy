/** `Answerer.answer` after retrieval: build the prompt messages, ask the
    model for a draft, and when evidence was retrieved but the draft cites
    none of it, ask once more with a reminder appended. The model is an
    arbitrary function of the messages and the response format; the calls
    made are recorded so that their number and content can be stated. */
module Answering {
  import opened Wrappers
  import opened Types
  import opened Citations
  import opened Prompts
  import opened Json
  import MockLlm

  /** The text of the reminder appended for the second attempt. */
  const ReminderText: string :=
    "REMINDER: Every paragraph must include at least one citation like [video_id @ mm:ss-mm:ss]."

  /** The reminder, a system message with a single text part. */
  function Reminder(): Message {
    TextMessage("system", ReminderText)
  }

  /** The response format passed on every call: `{"type": "text"}`. */
  function TextFormat(): Json {
    JObj(map["type" := JStr("text")])
  }

  /** What `retrieve` hands to the answerer. */
  datatype RetrievalContext = RetrievalContext(sectionSummaries: seq<string>, chunks: seq<RetrievedChunk>)

  /** One entry of `debug["top_chunks"]`. */
  datatype TopChunk = TopChunk(videoId: string, ts: (int, int), score: real)

  /** The `debug` dictionary. */
  datatype Debug = Debug(sections: seq<string>, topChunks: seq<TopChunk>)

  datatype AnswerResult = AnswerResult(answer: string, citationsPresent: bool, debug: Debug)

  /** One call of the model: the messages and the response format. */
  datatype Call = Call(messages: seq<Message>, responseFormat: Json)

  /** The result of answering together with the calls made, in order. */
  datatype Outcome = Outcome(result: AnswerResult, calls: seq<Call>)

  /** `ok = has_citations(draft) if ctx.chunks else False`. */
  function Cited(chunks: seq<RetrievedChunk>, draft: string): bool {
    chunks != [] && HasCitations(draft)
  }

  /** `debug["top_chunks"]`: one entry per retrieved chunk, in order, with
      its video, its time span and its score. */
  function TopChunks(chunks: seq<RetrievedChunk>): (r: seq<TopChunk>)
    ensures |r| == |chunks|
    ensures forall i :: 0 <= i < |chunks| ==>
      r[i].videoId == chunks[i].videoId && r[i].ts == (chunks[i].startMs, chunks[i].endMs)
      && r[i].score == chunks[i].score
  {
    seq(|chunks|, i requires 0 <= i < |chunks| => TopChunk(chunks[i].videoId, (chunks[i].startMs, chunks[i].endMs), chunks[i].score))
  }

  /** The outcome of answering from `ctx` with the model `generate`. */
  function Run(question: string, channelTitle: string, ctx: RetrievalContext,
               generate: (seq<Message>, Json) -> string): Outcome {
    var messages := Messages(question, channelTitle, ctx.sectionSummaries, ctx.chunks);
    var draft := generate(messages, TextFormat());
    var debug := Debug(ctx.sectionSummaries, TopChunks(ctx.chunks));
    if ctx.chunks != [] && !Cited(ctx.chunks, draft) then
      var messages2 := messages + [Reminder()];
      var draft2 := generate(messages2, TextFormat());
      Outcome(AnswerResult(draft2, HasCitations(draft2), debug),
              [Call(messages, TextFormat()), Call(messages2, TextFormat())])
    else
      Outcome(AnswerResult(draft, Cited(ctx.chunks, draft), debug), [Call(messages, TextFormat())])
  }

  /** `answer`, from the built messages on; `calls` records the model calls. */
  method Answer(question: string, channelTitle: string, ctx: RetrievalContext,
                generate: (seq<Message>, Json) -> string) returns (result: AnswerResult, ghost calls: seq<Call>)
    ensures Outcome(result, calls) == Run(question, channelTitle, ctx, generate)
    ensures result.citationsPresent == (ctx.chunks != [] && HasCitations(result.answer))
    ensures |result.debug.topChunks| == |ctx.chunks|
  {
    var messages := BuildMessages(question, channelTitle, ctx.sectionSummaries, ctx.chunks);
    var responseFormat := TextFormat();
    var draft := generate(messages, responseFormat);
    calls := [Call(messages, responseFormat)];
    var ok := if ctx.chunks != [] then HasCitations(draft) else false;
    if ctx.chunks != [] && !ok {
      var messages2 := messages;
      messages2 := messages2 + [Reminder()];
      draft := generate(messages2, responseFormat);
      calls := calls + [Call(messages2, responseFormat)];
      ok := HasCitations(draft);
    }
    result := AnswerResult(draft, ok, Debug(ctx.sectionSummaries, TopChunks(ctx.chunks)));
  }

  // ---------------------------------------------------------------------
  // Properties of the outcome

  /** The model is called once or twice, always with the built messages
      first and the text response format; a second call happens exactly
      when there is evidence and the first draft cites nothing, and it
      sends the first messages with the reminder appended. */
  lemma RunCalls(question: string, channelTitle: string, ctx: RetrievalContext,
                 generate: (seq<Message>, Json) -> string)
    ensures 1 <= |Run(question, channelTitle, ctx, generate).calls| <= 2
    ensures Run(question, channelTitle, ctx, generate).calls[0]
      == Call(Messages(question, channelTitle, ctx.sectionSummaries, ctx.chunks), TextFormat())
    ensures |Run(question, channelTitle, ctx, generate).calls| == 2 <==>
      (ctx.chunks != [] && !HasCitations(generate(Messages(question, channelTitle, ctx.sectionSummaries, ctx.chunks), TextFormat())))
    ensures |Run(question, channelTitle, ctx, generate).calls| == 2 ==>
      Run(question, channelTitle, ctx, generate).calls[1]
        == Call(Run(question, channelTitle, ctx, generate).calls[0].messages + [Reminder()], TextFormat())
  {
  }

  /** The answer is the reply to the last call made. */
  lemma RunAnswer(question: string, channelTitle: string, ctx: RetrievalContext,
                  generate: (seq<Message>, Json) -> string)
    ensures Run(question, channelTitle, ctx, generate).calls != []
    ensures Run(question, channelTitle, ctx, generate).result.answer
      == generate(Last(Run(question, channelTitle, ctx, generate).calls).messages, TextFormat())
  {
  }

  /** `citations_present` holds exactly when evidence was retrieved and the
      answer returned has a citation: without evidence it is false whatever
      the draft says, and with evidence and a cited first draft it is true
      after a single call. */
  lemma RunCitations(question: string, channelTitle: string, ctx: RetrievalContext,
                     generate: (seq<Message>, Json) -> string)
    ensures Run(question, channelTitle, ctx, generate).result.citationsPresent
      == (ctx.chunks != [] && HasCitations(Run(question, channelTitle, ctx, generate).result.answer))
    ensures ctx.chunks == [] ==>
      !Run(question, channelTitle, ctx, generate).result.citationsPresent
      && |Run(question, channelTitle, ctx, generate).calls| == 1
    ensures ctx.chunks != [] && HasCitations(generate(Messages(question, channelTitle, ctx.sectionSummaries, ctx.chunks), TextFormat())) ==>
      Run(question, channelTitle, ctx, generate).result.citationsPresent
      && |Run(question, channelTitle, ctx, generate).calls| == 1
  {
  }

  /** The debug record carries the section summaries and one entry per
      retrieved chunk, in order. */
  lemma RunDebug(question: string, channelTitle: string, ctx: RetrievalContext,
                 generate: (seq<Message>, Json) -> string)
    ensures Run(question, channelTitle, ctx, generate).result.debug.sections == ctx.sectionSummaries
    ensures |Run(question, channelTitle, ctx, generate).result.debug.topChunks| == |ctx.chunks|
    ensures forall i :: 0 <= i < |ctx.chunks| ==>
      Run(question, channelTitle, ctx, generate).result.debug.topChunks[i].videoId == ctx.chunks[i].videoId
      && Run(question, channelTitle, ctx, generate).result.debug.topChunks[i].ts == (ctx.chunks[i].startMs, ctx.chunks[i].endMs)
  {
  }

  function Last<T>(s: seq<T>): T
    requires s != []
  {
    s[|s| - 1]
  }

  // ---------------------------------------------------------------------
  // With the mock model

  /** The mock model as a function of the messages and the response format. */
  function MockModel(): (seq<Message>, Json) -> string {
    (ms: seq<Message>, rf: Json) => MockLlm.Generate(ms, None, None, Some(rf))
  }

  /** With the mock model there is never a retry, and `citations_present`
      is exactly "evidence was retrieved". */
  lemma MockAnswer(question: string, channelTitle: string, ctx: RetrievalContext)
    ensures |Run(question, channelTitle, ctx, MockModel()).calls| == 1
    ensures Run(question, channelTitle, ctx, MockModel()).result.citationsPresent == (ctx.chunks != [])
    ensures HasCitations(Run(question, channelTitle, ctx, MockModel()).result.answer)
  {
    var messages := Messages(question, channelTitle, ctx.sectionSummaries, ctx.chunks);
    MockLlm.GenerateCites(messages, None, None, Some(TextFormat()));
    assert MockModel()(messages, TextFormat()) == MockLlm.Generate(messages, None, None, Some(TextFormat()));
  }
}
