/** `LLMHubHTTPBackend`: the client of an llmhub-node HTTP server. It builds
    the request payload, turns a `/generate` response into assistant text,
    and reads a `/generate/stream` response as a server-sent event stream:
    lines are grouped into events at blank lines, the `data:` payloads of
    an event are joined by newlines, and each event is interpreted as a
    JSON message. The framing is a simplified form of section 9.2.6
    ("Interpreting an event stream") of the WHATWG HTML Living Standard:
    only `\n` ends a line, and all leading whitespace after `data:` is
    dropped, not one space.

    The network is not modelled: the response body (or the lines of the
    stream) is a parameter, and so are `json.loads` (`parse`, `None` when
    the text is not JSON), `json.dumps` (`dumps`) and Python's `repr`
    (`show`), which `str` of a non-string value agrees with. */
module LlmHubHttp {
  import opened Wrappers
  import opened Text
  import opened Json
  import opened Prompts

  // ---------------------------------------------------------------------
  // Messages as JSON

  function PartJson(p: Part): Json {
    JObj((if p.kind.Some? then map["type" := JStr(p.kind.value)] else map[])
         + (if p.text.Some? then map["text" := JStr(p.text.value)] else map[]))
  }

  function PartsJson(parts: seq<Part>): (r: seq<Json>)
    ensures |r| == |parts|
  {
    if parts == [] then [] else PartsJson(parts[..|parts| - 1]) + [PartJson(parts[|parts| - 1])]
  }

  function MessageJson(m: Message): Json {
    JObj(map["role" := JStr(m.role)]
         + (if m.content.Some? then map["content" := JArr(PartsJson(m.content.value))] else map[]))
  }

  function MessagesJson(ms: seq<Message>): (r: seq<Json>)
    ensures |r| == |ms|
  {
    if ms == [] then [] else MessagesJson(ms[..|ms| - 1]) + [MessageJson(ms[|ms| - 1])]
  }

  // ---------------------------------------------------------------------
  // The request

  /** The keys every payload has before the overrides. */
  function BasePayload(provider: string, model: string, messages: seq<Message>, temperature: real,
                       maxTokens: int): map<string, Json> {
    map["provider" := JStr(provider), "model" := JStr(model), "messages" := JArr(MessagesJson(messages)),
        "temperature" := JNum(temperature), "maxTokens" := JNum(maxTokens as real)]
  }

  /** `payload[key] = value` when the value is not `None`. */
  function PutGiven(payload: map<string, Json>, key: string, value: Option<Json>): map<string, Json> {
    if value.Some? then payload[key := value.value] else payload
  }

  /** The payload with the optional keys that are given. */
  function WithOptions(base: map<string, Json>, topP: Option<real>, tools: Option<Json>, toolChoice: Option<Json>,
                       responseFormat: Option<Json>): map<string, Json> {
    var withTopP := PutGiven(base, "topP", if topP.Some? then Some(JNum(topP.value)) else None);
    PutGiven(PutGiven(PutGiven(withTopP, "tools", tools), "toolChoice", toolChoice), "responseFormat", responseFormat)
  }

  /** The payload with the optional keys added, then
      `payload.update(overrides)` (`Update`). */
  function Payload(provider: string, model: string, messages: seq<Message>, temperature: real,
                   topP: Option<real>, maxTokens: int, tools: Option<Json>, toolChoice: Option<Json>,
                   responseFormat: Option<Json>, overrides: Json, dumps: Json -> string): Result<map<string, Json>> {
    var full := WithOptions(BasePayload(provider, model, messages, temperature, maxTokens),
                            topP, tools, toolChoice, responseFormat);
    Update(full, overrides, dumps)
  }

  /** With an object of overrides, the payload is the options' payload
      with the object's fields laid over it. */
  lemma PayloadOfObject(provider: string, model: string, messages: seq<Message>, temperature: real,
                        topP: Option<real>, maxTokens: int, tools: Option<Json>, toolChoice: Option<Json>,
                        responseFormat: Option<Json>, fields: map<string, Json>, dumps: Json -> string)
    ensures Payload(provider, model, messages, temperature, topP, maxTokens, tools, toolChoice,
                    responseFormat, JObj(fields), dumps)
      == Ok(WithOptions(BasePayload(provider, model, messages, temperature, maxTokens),
                        topP, tools, toolChoice, responseFormat) + fields)
  {
  }

  /** An object of overrides is always accepted, and its fields replace
      or extend the payload. */
  lemma PayloadOverrides(provider: string, model: string, messages: seq<Message>, temperature: real,
                         topP: Option<real>, maxTokens: int, tools: Option<Json>, toolChoice: Option<Json>,
                         responseFormat: Option<Json>, fields: map<string, Json>,
                         dumps: Json -> string)
    ensures Payload(provider, model, messages, temperature, topP, maxTokens, tools, toolChoice,
                    responseFormat, JObj(fields), dumps).Ok?
    ensures forall k :: k in fields ==>
      k in Payload(provider, model, messages, temperature, topP, maxTokens, tools, toolChoice, responseFormat, JObj(fields), dumps).value
      && Payload(provider, model, messages, temperature, topP, maxTokens, tools, toolChoice, responseFormat, JObj(fields), dumps).value[k]
         == fields[k]
  {
    PayloadOfObject(provider, model, messages, temperature, topP, maxTokens, tools, toolChoice, responseFormat,
                    fields, dumps);
  }

  /** The five fixed keys are always present, with the given values unless
      overridden. */
  lemma PayloadFixedKeys(provider: string, model: string, messages: seq<Message>, temperature: real,
                         topP: Option<real>, maxTokens: int, tools: Option<Json>, toolChoice: Option<Json>,
                         responseFormat: Option<Json>, fields: map<string, Json>,
                         dumps: Json -> string)
    ensures var p := Payload(provider, model, messages, temperature, topP, maxTokens, tools, toolChoice,
                             responseFormat, JObj(fields), dumps).value;
      && {"provider", "model", "messages", "temperature", "maxTokens"} <= p.Keys
      && ("provider" !in fields ==> p["provider"] == JStr(provider))
      && ("model" !in fields ==> p["model"] == JStr(model))
      && ("messages" !in fields ==> p["messages"] == JArr(MessagesJson(messages)))
      && ("temperature" !in fields ==> p["temperature"] == JNum(temperature))
      && ("maxTokens" !in fields ==> p["maxTokens"] == JNum(maxTokens as real))
  {
    PayloadOfObject(provider, model, messages, temperature, topP, maxTokens, tools, toolChoice, responseFormat,
                    fields, dumps);
    var base := BasePayload(provider, model, messages, temperature, maxTokens);
    assert "provider" !in OptionKeys();
    FixedKeep(base, topP, tools, toolChoice, responseFormat, fields, "provider");
    assert "model" !in OptionKeys();
    FixedKeep(base, topP, tools, toolChoice, responseFormat, fields, "model");
    assert "messages" !in OptionKeys();
    FixedKeep(base, topP, tools, toolChoice, responseFormat, fields, "messages");
    assert "temperature" !in OptionKeys();
    FixedKeep(base, topP, tools, toolChoice, responseFormat, fields, "temperature");
    assert "maxTokens" !in OptionKeys();
    FixedKeep(base, topP, tools, toolChoice, responseFormat, fields, "maxTokens");
  }

  /** A key of the base payload that is not optional survives the options
      and keeps its value unless overridden. */
  lemma FixedKeep(base: map<string, Json>, topP: Option<real>, tools: Option<Json>, toolChoice: Option<Json>,
                  responseFormat: Option<Json>, fields: map<string, Json>, k: string)
    requires k in base && k !in OptionKeys()
    ensures k in WithOptions(base, topP, tools, toolChoice, responseFormat) + fields
    ensures k !in fields ==> (WithOptions(base, topP, tools, toolChoice, responseFormat) + fields)[k] == base[k]
  {
    OptionsKeep(base, topP, tools, toolChoice, responseFormat);
  }

  function OptionKeys(): set<string> {
    {"topP", "tools", "toolChoice", "responseFormat"}
  }

  /** The optional keys leave every other key of the payload as it was. */
  lemma OptionsKeep(base: map<string, Json>, topP: Option<real>, tools: Option<Json>, toolChoice: Option<Json>,
                    responseFormat: Option<Json>)
    ensures forall k :: k in base && k !in OptionKeys() ==>
      k in WithOptions(base, topP, tools, toolChoice, responseFormat)
      && WithOptions(base, topP, tools, toolChoice, responseFormat)[k] == base[k]
  {
    var withTopP := PutGiven(base, "topP", if topP.Some? then Some(JNum(topP.value)) else None);
    PutGivenKeeps(base, "topP", if topP.Some? then Some(JNum(topP.value)) else None);
    PutGivenKeeps(withTopP, "tools", tools);
    PutGivenKeeps(PutGiven(withTopP, "tools", tools), "toolChoice", toolChoice);
    PutGivenKeeps(PutGiven(PutGiven(withTopP, "tools", tools), "toolChoice", toolChoice), "responseFormat", responseFormat);
  }

  /** The optional keys are present exactly when given (or overridden),
      with the given value unless an override replaces it. */
  lemma PayloadOptionalKeys(provider: string, model: string, messages: seq<Message>, temperature: real,
                            topP: Option<real>, maxTokens: int, tools: Option<Json>, toolChoice: Option<Json>,
                            responseFormat: Option<Json>, fields: map<string, Json>,
                            dumps: Json -> string)
    ensures var p := Payload(provider, model, messages, temperature, topP, maxTokens, tools, toolChoice,
                             responseFormat, JObj(fields), dumps).value;
      && ("topP" !in fields ==> ("topP" in p <==> topP.Some?))
      && ("topP" !in fields && topP.Some? ==> p["topP"] == JNum(topP.value))
      && ("tools" !in fields ==> ("tools" in p <==> tools.Some?))
      && ("tools" !in fields && tools.Some? ==> p["tools"] == tools.value)
      && ("toolChoice" !in fields ==> ("toolChoice" in p <==> toolChoice.Some?))
      && ("toolChoice" !in fields && toolChoice.Some? ==> p["toolChoice"] == toolChoice.value)
      && ("responseFormat" !in fields ==> ("responseFormat" in p <==> responseFormat.Some?))
      && ("responseFormat" !in fields && responseFormat.Some? ==> p["responseFormat"] == responseFormat.value)
  {
    PayloadOfObject(provider, model, messages, temperature, topP, maxTokens, tools, toolChoice, responseFormat,
                    fields, dumps);
  }

  /** Adding an optional key leaves every other key as it was. */
  lemma PutGivenKeeps(payload: map<string, Json>, key: string, value: Option<Json>)
    ensures forall k :: k in payload && k != key ==> k in PutGiven(payload, key, value) && PutGiven(payload, key, value)[k] == payload[k]
    ensures key in payload ==> key in PutGiven(payload, key, value)
  {
  }

  // ---------------------------------------------------------------------
  // `payload.update(overrides)`

  /** `dict.update(other)`: a mapping's fields replace or extend the
      payload. Any other iterable is read as a sequence of key/value pairs,
      stored in order, so a later pair wins; a string iterates as its
      one-character strings. A value that is not iterable is refused. */
  function Update(payload: map<string, Json>, overrides: Json, dumps: Json -> string): Result<map<string, Json>> {
    match overrides
    case JObj(fields) => Ok(payload + fields)
    case JArr(items) => UpdatePairs(payload, items, 0, dumps)
    case JStr(s) => UpdatePairs(payload, Chars(s), 0, dumps)
    case _ => Err(TypeError("'" + TypeName(overrides) + "' object is not iterable"))
  }

  /** The characters of a string, as iterating over it yields them. */
  function Chars(s: string): seq<Json> {
    seq(|s|, i requires 0 <= i < |s| => JStr([s[i]]))
  }

  /** The pairs from element `from` on, stored one after the other; the
      first element that is not a pair raises. */
  function UpdatePairs(payload: map<string, Json>, items: seq<Json>, from: nat, dumps: Json -> string)
    : Result<map<string, Json>>
    decreases |items| - from
  {
    if from >= |items| then Ok(payload)
    else match PairOf(items[from], from, dumps)
      case Err(e) => Err(e)
      case Ok(p) => UpdatePairs(payload[p.0 := p.1], items, from + 1, dumps)
  }

  /** Element `#i` of a sequence of pairs, as `dict.update` reads it: a
      list or a string of length 2 gives its two items, anything else of
      another length is refused with that length, and a value that is not
      iterable cannot be a pair. An object iterates as its keys; one with
      two keys would pair them in document order, which the JSON model does
      not keep, so that case is `NotModelled`. */
  function PairOf(item: Json, i: nat, dumps: Json -> string): Result<(string, Json)> {
    var element := "dictionary update sequence element #" + Decimal(i);
    match item
    case JArr(xs) =>
      if |xs| != 2 then Err(ValueError(element + " has length " + Decimal(|xs|) + "; 2 is required"))
      else KeyOf(xs[0], xs[1], dumps)
    case JStr(s) =>
      if |s| != 2 then Err(ValueError(element + " has length " + Decimal(|s|) + "; 2 is required"))
      else Ok(([s[0]], JStr([s[1]])))
    case JObj(fields) =>
      if |fields| != 2 then Err(ValueError(element + " has length " + Decimal(|fields|) + "; 2 is required"))
      else Err(NotModelled(element + " is an object with two keys"))
    case _ => Err(TypeError("cannot convert " + element + " to a sequence"))
  }

  /** The key under which a pair is sent: a string is itself; a list or an
      object cannot be a dictionary key; any other value is written as its
      JSON text, as `json.dumps` writes a non-string key. */
  function KeyOf(key: Json, value: Json, dumps: Json -> string): Result<(string, Json)> {
    match key
    case JStr(k) => Ok((k, value))
    case JArr(_) => Err(TypeError("unhashable type: 'list'"))
    case JObj(_) => Err(TypeError("unhashable type: 'dict'"))
    case _ => Ok((dumps(key), value))
  }

  /** A two-element list whose first item is a string. */
  predicate StringPair(item: Json) {
    item.JArr? && |item.items| == 2 && item.items[0].JStr?
  }

  /** The value of the last string pair from `from` on whose key is `k`:
      the one `dict.update` leaves in place. */
  function LastValue(items: seq<Json>, from: nat, k: string): Option<Json>
    decreases |items| - from
  {
    if from >= |items| then None
    else if LastValue(items, from + 1, k).Some? then LastValue(items, from + 1, k)
    else if StringPair(items[from]) && items[from].items[0].s == k then Some(items[from].items[1])
    else None
  }

  /** Pairs with string keys are all stored: a key that some pair names
      holds the value of the last such pair, and every other key is as it
      was. */
  lemma {:induction false} PairsApplied(payload: map<string, Json>, items: seq<Json>, from: nat,
                                        dumps: Json -> string)
    requires forall i :: from <= i < |items| ==> StringPair(items[i])
    ensures UpdatePairs(payload, items, from, dumps).Ok?
    ensures forall k :: LastValue(items, from, k).Some? ==>
      k in UpdatePairs(payload, items, from, dumps).value
      && UpdatePairs(payload, items, from, dumps).value[k] == LastValue(items, from, k).value
    ensures forall k :: LastValue(items, from, k).None? ==>
      (k in UpdatePairs(payload, items, from, dumps).value <==> k in payload)
      && (k in payload ==> UpdatePairs(payload, items, from, dumps).value[k] == payload[k])
    decreases |items| - from
  {
    if from < |items| {
      var key := items[from].items[0].s;
      assert PairOf(items[from], from, dumps) == Ok((key, items[from].items[1]));
      PairsApplied(payload[key := items[from].items[1]], items, from + 1, dumps);
    }
  }

  /** The first element that is not a pair decides the error; when every
      element is a pair, nothing is refused. */
  lemma {:induction false} PairsRefused(payload: map<string, Json>, items: seq<Json>, from: nat,
                                        dumps: Json -> string)
    ensures (forall i :: from <= i < |items| ==> PairOf(items[i], i, dumps).Ok?) ==>
      UpdatePairs(payload, items, from, dumps).Ok?
    ensures forall i ::
      (from <= i < |items| && PairOf(items[i], i, dumps).Err?
       && forall j :: from <= j < i ==> PairOf(items[j], j, dumps).Ok?) ==>
      UpdatePairs(payload, items, from, dumps) == Err(PairOf(items[i], i, dumps).error)
    decreases |items| - from
  {
    if from < |items| {
      match PairOf(items[from], from, dumps)
      case Err(e) =>
      case Ok(p) => PairsRefused(payload[p.0 := p.1], items, from + 1, dumps);
    }
  }

  /** The cases of `payload.update(overrides)`: an empty list or string
      changes nothing, a non-empty string is refused (its first character
      has length 1), a number, a boolean or `None` is not iterable, and a
      single pair sets its key. */
  lemma UpdateCases(payload: map<string, Json>, overrides: Json, dumps: Json -> string)
    ensures overrides == JArr([]) || overrides == JStr([]) ==> Update(payload, overrides, dumps) == Ok(payload)
    ensures overrides.JStr? && overrides.s != [] ==>
      Update(payload, overrides, dumps).Err? && Update(payload, overrides, dumps).error.ValueError?
    ensures overrides.JNum? || overrides.JBool? || overrides.JNull? ==>
      Update(payload, overrides, dumps).Err? && Update(payload, overrides, dumps).error.TypeError?
    ensures overrides.JArr? && |overrides.items| == 1 && StringPair(overrides.items[0]) ==>
      Update(payload, overrides, dumps)
        == Ok(payload[overrides.items[0].items[0].s := overrides.items[0].items[1]])
  {
    if overrides.JStr? && overrides.s != [] {
      assert Chars(overrides.s)[0] == JStr([overrides.s[0]]);
    } else if overrides.JArr? && |overrides.items| == 1 && StringPair(overrides.items[0]) {
      var pair := overrides.items[0];
      assert PairOf(pair, 0, dumps) == Ok((pair.items[0].s, pair.items[1]));
      assert UpdatePairs(payload[pair.items[0].s := pair.items[1]], overrides.items, 1, dumps)
        == Ok(payload[pair.items[0].s := pair.items[1]]);
    }
  }

  /** `[["temperature", 0.1]]` overrides the temperature. */
  lemma TemperaturePair(payload: map<string, Json>, dumps: Json -> string)
    ensures Update(payload, JArr([JArr([JStr("temperature"), JNum(0.1)])]), dumps)
      == Ok(payload["temperature" := JNum(0.1)])
  {
    UpdateCases(payload, JArr([JArr([JStr("temperature"), JNum(0.1)])]), dumps);
  }

  // ---------------------------------------------------------------------
  // `_normalize_generate_output`

  const ToolCallsRefused: string :=
    "llmhub returned toolCalls but tool execution is not implemented in this repo. Either disable tools (toolChoice='none') or implement tool handling."

  function NormalizeOutput(obj: Json, dumps: Json -> string): Result<string> {
    match obj
    case JStr(s) => Ok(s)
    case JObj(fields) =>
      if "text" in fields && fields["text"].JStr? then Ok(fields["text"].s)
      else if Truthy(Get(fields, "toolCalls")) then Err(RuntimeError(ToolCallsRefused))
      else Ok("")
    case _ => Ok(dumps(obj))
    }

  /** A string is returned as it is; an object's string `text` wins even
      over tool calls; tool calls without text are refused; an object with
      neither gives the empty text; any other value is serialised. */
  lemma NormalizeCases(obj: Json, dumps: Json -> string)
    ensures obj.JStr? ==> NormalizeOutput(obj, dumps) == Ok(obj.s)
    ensures obj.JObj? && "text" in obj.fields && obj.fields["text"].JStr? ==>
      NormalizeOutput(obj, dumps) == Ok(obj.fields["text"].s)
    ensures NormalizeOutput(obj, dumps).Err? <==>
      obj.JObj? && !("text" in obj.fields && obj.fields["text"].JStr?) && Truthy(Get(obj.fields, "toolCalls"))
    ensures NormalizeOutput(obj, dumps).Err? ==> NormalizeOutput(obj, dumps).error.RuntimeError?
    ensures obj.JObj? && !("text" in obj.fields && obj.fields["text"].JStr?) && !Truthy(Get(obj.fields, "toolCalls")) ==>
      NormalizeOutput(obj, dumps) == Ok("")
    ensures !obj.JStr? && !obj.JObj? ==> NormalizeOutput(obj, dumps) == Ok(dumps(obj))
  {
  }

  // ---------------------------------------------------------------------
  // `_handle_sse_event`

  /** The `usage` and `finishReason` a backend last saw (`JNull` for `None`). */
  datatype Meta = Meta(usage: Json, finishReason: Json)

  /** What one event yields and, for `message_end`, the metadata it records. */
  datatype EventOutcome = EventOutcome(out: Result<seq<Json>>, meta: Option<Meta>)

  function Event(data: string, parse: string -> Option<Json>, show: Json -> string): EventOutcome {
    if Strip(data) == "[DONE]" then EventOutcome(Ok([]), None)
    else match parse(data)
      case None => EventOutcome(Ok([JStr(data)]), None)
      case Some(obj) =>
        if !obj.JObj? then
          EventOutcome(Err(AttributeError("'" + TypeName(obj) + "' object has no attribute 'get'")), None)
        else
          var t := Get(obj.fields, "type");
          if t == JStr("delta") then
            var d := GetOr(obj.fields, "textDelta", JStr(""));
            EventOutcome(Ok(if Truthy(d) then [d] else []), None)
          else if t == JStr("message_end") then
            EventOutcome(Ok([]), Some(Meta(Get(obj.fields, "usage"), Get(obj.fields, "finishReason"))))
          else if t == JStr("tool_call") then EventOutcome(Ok([]), None)
          else if t == JStr("error") then
            EventOutcome(Err(RuntimeError("llmhub stream error: " + PyStr(Get(obj.fields, "error"), show))), None)
          else EventOutcome(Ok([]), None)
  }

  /** The event cases: `[DONE]` and data that is not JSON, then by `type`. */
  lemma EventCases(data: string, parse: string -> Option<Json>, show: Json -> string)
    ensures Strip(data) == "[DONE]" ==> Event(data, parse, show) == EventOutcome(Ok([]), None)
    ensures Strip(data) != "[DONE]" && parse(data).None? ==> Event(data, parse, show) == EventOutcome(Ok([JStr(data)]), None)
    ensures Event(data, parse, show).meta.Some? ==>
      Strip(data) != "[DONE]" && parse(data).Some? && parse(data).value.JObj?
      && Get(parse(data).value.fields, "type") == JStr("message_end")
      && Event(data, parse, show).out == Ok([])
    ensures Event(data, parse, show).out.Ok? ==> |Event(data, parse, show).out.value| <= 1
    ensures Event(data, parse, show).out.Err? ==>
      Strip(data) != "[DONE]" && parse(data).Some?
      && (!parse(data).value.JObj? || Get(parse(data).value.fields, "type") == JStr("error"))
  {
  }

  /** A `delta` event yields its `textDelta` exactly when it is truthy. */
  lemma DeltaYields(data: string, parse: string -> Option<Json>, show: Json -> string)
    requires Strip(data) != "[DONE]" && parse(data).Some? && parse(data).value.JObj?
    requires Get(parse(data).value.fields, "type") == JStr("delta")
    ensures Event(data, parse, show).meta.None?
    ensures Event(data, parse, show).out == Ok(
      if Truthy(GetOr(parse(data).value.fields, "textDelta", JStr(""))) then [GetOr(parse(data).value.fields, "textDelta", JStr(""))] else [])
  {
  }

  // ---------------------------------------------------------------------
  // Framing the stream

  /** The framing state: the pending data lines and the events dispatched. */
  datatype Framer = Framer(buf: seq<string>, events: seq<string>)

  /** `raw.rstrip("\n")`. */
  function CleanLine(raw: string): string {
    RStripChar(raw, '\n')
  }

  function DataPrefix(): string { "data:" }

  /** One line of the stream. */
  function Step(f: Framer, raw: string): Framer {
    var line := CleanLine(raw);
    if line == "" then
      if f.buf != [] then Framer([], f.events + [Join(f.buf, "\n")]) else f
    else if StartsWith(line, ":") then f
    else if StartsWith(line, DataPrefix()) then Framer(f.buf + [LStrip(line[|DataPrefix()|..])], f.events)
    else f
  }

  function Frame(lines: seq<string>): Framer {
    if lines == [] then Framer([], []) else Step(Frame(lines[..|lines| - 1]), lines[|lines| - 1])
  }

  /** The events of a whole stream: what the lines dispatch, then the
      pending data once more if any is left. */
  function Events(lines: seq<string>): seq<string> {
    var f := Frame(lines);
    f.events + (if f.buf != [] then [Join(f.buf, "\n")] else [])
  }

  // The same framing stated independently: split the lines at blank lines,
  // keep each group's data payloads, and dispatch every group that has any.

  predicate Blank(raw: string) {
    CleanLine(raw) == ""
  }

  /** The lines between blank lines; always at least one (possibly empty) group. */
  function Groups(lines: seq<string>): (r: seq<seq<string>>)
    ensures r != []
  {
    if lines == [] then [[]]
    else
      var g := Groups(lines[..|lines| - 1]);
      var last := lines[|lines| - 1];
      if Blank(last) then g + [[]] else g[..|g| - 1] + [g[|g| - 1] + [last]]
  }

  /** The payload of a `data:` line after its leading whitespace. */
  predicate IsData(raw: string) {
    !Blank(raw) && StartsWith(CleanLine(raw), DataPrefix())
  }

  function Payloads(group: seq<string>): seq<string> {
    if group == [] then []
    else
      var last := group[|group| - 1];
      Payloads(group[..|group| - 1])
        + (if IsData(last) then [LStrip(CleanLine(last)[|DataPrefix()|..])] else [])
  }

  function Dispatched(groups: seq<seq<string>>): seq<string> {
    if groups == [] then []
    else
      var p := Payloads(groups[|groups| - 1]);
      Dispatched(groups[..|groups| - 1]) + (if p != [] then [Join(p, "\n")] else [])
  }

  /** The loop's state after any prefix: the pending lines are the payloads
      of the open group, and the events are those of the closed groups. */
  lemma {:induction false} FrameGroups(lines: seq<string>)
    ensures Frame(lines).buf == Payloads(Groups(lines)[|Groups(lines)| - 1])
    ensures Frame(lines).events == Dispatched(Groups(lines)[..|Groups(lines)| - 1])
    decreases |lines|
  {
    if lines != [] {
      var init := lines[..|lines| - 1];
      FrameGroups(init);
      if Blank(lines[|lines| - 1]) {
        FrameGroupsBlank(lines);
      } else {
        FrameGroupsLine(lines);
      }
    }
  }

  /** A blank line closes the open group. */
  lemma FrameGroupsBlank(lines: seq<string>)
    requires lines != [] && Blank(lines[|lines| - 1])
    requires var init := lines[..|lines| - 1];
      Frame(init).buf == Payloads(Groups(init)[|Groups(init)| - 1])
      && Frame(init).events == Dispatched(Groups(init)[..|Groups(init)| - 1])
    ensures Frame(lines).buf == Payloads(Groups(lines)[|Groups(lines)| - 1])
    ensures Frame(lines).events == Dispatched(Groups(lines)[..|Groups(lines)| - 1])
  {
    var init := lines[..|lines| - 1];
    var g := Groups(init);
    assert Groups(lines) == g + [[]];
    assert (g + [[]])[..|g|] == g;
    assert g == g[..|g| - 1] + [g[|g| - 1]];
  }

  /** Any other line joins the open group, adding its payload when it is a
      `data:` line. */
  lemma FrameGroupsLine(lines: seq<string>)
    requires lines != [] && !Blank(lines[|lines| - 1])
    requires var init := lines[..|lines| - 1];
      Frame(init).buf == Payloads(Groups(init)[|Groups(init)| - 1])
      && Frame(init).events == Dispatched(Groups(init)[..|Groups(init)| - 1])
    ensures Frame(lines).buf == Payloads(Groups(lines)[|Groups(lines)| - 1])
    ensures Frame(lines).events == Dispatched(Groups(lines)[..|Groups(lines)| - 1])
  {
    var init := lines[..|lines| - 1];
    var last := lines[|lines| - 1];
    var g := Groups(init);
    var open := g[|g| - 1];
    assert Groups(lines) == g[..|g| - 1] + [open + [last]];
    assert (g[..|g| - 1] + [open + [last]])[..|g| - 1] == g[..|g| - 1];
    assert (open + [last])[..|open|] == open;
    if StartsWith(CleanLine(last), ":") {
      CommentNotData(CleanLine(last));
    }
  }

  /** A comment line is never a `data:` line. */
  lemma CommentNotData(line: string)
    requires StartsWith(line, ":")
    ensures !StartsWith(line, DataPrefix())
  {
    assert line[0] == ':';
  }

  /** The framing is the grouping: every group of lines between blank lines
      that holds `data:` lines dispatches their payloads joined by `\n`,
      groups without data dispatch nothing, and the last group is
      dispatched even without a closing blank line. */
  lemma EventsAreGroups(lines: seq<string>)
    ensures Events(lines) == Dispatched(Groups(lines))
  {
    FrameGroups(lines);
    var g := Groups(lines);
    assert g == g[..|g| - 1] + [g[|g| - 1]];
  }

  /** Every event is the join of at least one payload, so a stream without
      `data:` lines has no events. */
  lemma {:induction false} DispatchedCount(groups: seq<seq<string>>)
    ensures |Dispatched(groups)| <= |groups|
    ensures (forall k :: 0 <= k < |groups| ==> Payloads(groups[k]) == []) ==> Dispatched(groups) == []
    decreases |groups|
  {
    if groups != [] {
      DispatchedCount(groups[..|groups| - 1]);
    }
  }

  /** A data line ends its event only at a blank line: a lone `\r` (from a
      `\r\n` line end) is not blank, so its line is neither a line end nor
      data, and the carriage return stays in the payload before it. */
  lemma CarriageReturnKept()
    ensures Events(["data: hi\r\n", "\r\n"]) == ["hi\r"]
  {
    var l1, l2 := "data: hi\r\n", "\r\n";
    assert CleanLine(l1) == "data: hi\r" by {
      assert l1[..|l1| - 1] == "data: hi\r";
    }
    assert CleanLine(l2) == "\r" by {
      assert l2[..|l2| - 1] == "\r";
    }
    assert StartsWith("data: hi\r", DataPrefix());
    assert "data: hi\r"[5..] == " hi\r";
    assert LStrip(" hi\r") == "hi\r" by {
      assert " hi\r"[1..] == "hi\r";
    }
    assert "data: hi\r"[..1] == "d";
    assert |DataPrefix()| == 5 && !StartsWith("data: hi\r", ":");
    var f1 := Step(Framer([], []), l1);
    assert f1 == Framer(["hi\r"], []);
    assert !StartsWith("\r", ":") && !StartsWith("\r", DataPrefix());
    assert Step(f1, l2) == f1;
    var none: seq<string> := [];
    assert [l1, l2][..1] == [l1] && [l1][..0] == none;
    assert Frame([l1]) == f1;
    assert Frame([l1, l2]) == Step(Frame([l1]), l2);
  }

  /** Every leading whitespace character of a payload is dropped, where
      the standard drops a single space. */
  lemma LeadingSpacesDropped()
    ensures Events(["data:   x\n"]) == ["x"]
  {
    var l1 := "data:   x\n";
    assert CleanLine(l1) == "data:   x" by {
      assert l1[..|l1| - 1] == "data:   x";
    }
    assert StartsWith("data:   x", DataPrefix());
    assert "data:   x"[5..] == "   x";
    assert LStrip("   x") == "x" by {
      assert "   x"[1..] == "  x" && "  x"[1..] == " x" && " x"[1..] == "x";
    }
    assert "data:   x"[..1] == "d";
    assert |DataPrefix()| == 5 && !StartsWith("data:   x", ":");
    var none: seq<string> := [];
    assert [l1][..0] == none;
    assert Step(Framer([], []), l1) == Framer(["x"], []);
    assert Frame([l1]) == Framer(["x"], []);
  }

  // ---------------------------------------------------------------------
  // Consuming the events

  /** What a stream has produced so far: its outputs, the error that ended
      it, and the metadata recorded. */
  datatype StreamState = StreamState(outs: seq<Json>, err: Option<Error>, meta: Meta)

  /** One event; after an error nothing more is read. */
  function Feed(st: StreamState, data: string, parse: string -> Option<Json>, show: Json -> string): StreamState {
    if st.err.Some? then st
    else
      var e := Event(data, parse, show);
      var meta := if e.meta.Some? then e.meta.value else st.meta;
      match e.out
      case Ok(out) => StreamState(st.outs + out, None, meta)
      case Err(error) => StreamState(st.outs, Some(error), meta)
  }

  function FeedAll(st: StreamState, events: seq<string>, parse: string -> Option<Json>, show: Json -> string): StreamState {
    if events == [] then st else Feed(FeedAll(st, events[..|events| - 1], parse, show), events[|events| - 1], parse, show)
  }

  lemma FeedAllSnoc(st: StreamState, events: seq<string>, data: string,
                    parse: string -> Option<Json>, show: Json -> string)
    ensures FeedAll(st, events + [data], parse, show) == Feed(FeedAll(st, events, parse, show), data, parse, show)
  {
    assert (events + [data])[..|events|] == events;
  }

  lemma FrameSnoc(lines: seq<string>, i: nat)
    requires i < |lines|
    ensures Frame(lines[..i + 1]) == Step(Frame(lines[..i]), lines[i])
  {
    assert lines[..i + 1][..i] == lines[..i];
  }

  /** Once an error has ended the stream, later events change nothing. */
  lemma {:induction false} FeedAllStops(st: StreamState, a: seq<string>, b: seq<string>,
                                        parse: string -> Option<Json>, show: Json -> string)
    requires FeedAll(st, a, parse, show).err.Some?
    ensures FeedAll(st, a + b, parse, show) == FeedAll(st, a, parse, show)
    decreases |b|
  {
    if b != [] {
      FeedAllStops(st, a, b[..|b| - 1], parse, show);
      assert (a + b)[..|a + b| - 1] == a + b[..|b| - 1];
    } else {
      assert a + b == a;
    }
  }

  /** The outputs only grow, each event adds at most one, and an error
      keeps what was produced before it. */
  lemma {:induction false} FeedAllGrows(st: StreamState, events: seq<string>,
                                        parse: string -> Option<Json>, show: Json -> string)
    ensures st.outs <= FeedAll(st, events, parse, show).outs
    ensures |FeedAll(st, events, parse, show).outs| <= |st.outs| + |events|
    ensures st.err.Some? ==> FeedAll(st, events, parse, show) == st
    decreases |events|
  {
    if events != [] {
      FeedAllGrows(st, events[..|events| - 1], parse, show);
      EventCases(events[|events| - 1], parse, show);
    }
  }

  /** The events of a prefix of the lines come first among the events of
      all the lines. */
  lemma {:induction false} FramePrefix(lines: seq<string>, i: nat) returns (rest: seq<string>)
    requires i <= |lines|
    ensures Events(lines) == Frame(lines[..i]).events + rest
    decreases |lines| - i
  {
    if i == |lines| {
      assert lines[..i] == lines;
      var f := Frame(lines);
      rest := if f.buf != [] then [Join(f.buf, "\n")] else [];
    } else {
      var more := FramePrefix(lines, i + 1);
      assert lines[..i + 1][..i] == lines[..i];
      var f := Frame(lines[..i]);
      assert Frame(lines[..i + 1]) == Step(f, lines[i]);
      rest := if CleanLine(lines[i]) == "" && f.buf != [] then [Join(f.buf, "\n")] + more else more;
    }
  }

  // ---------------------------------------------------------------------
  // The backend

  class HttpBackend {
    const baseUrl: string
    const provider: string
    const model: string
    const temperature: real
    const topP: Option<real>
    const maxTokens: int
    const timeoutS: real
    const verifyTls: bool
    const extra: map<string, Json>

    /** Last-call metadata; `JNull` is Python's `None`. */
    var lastUsage: Json
    var lastFinishReason: Json
    var lastToolCalls: Json

    constructor(baseUrl: string, provider: string, model: string, temperature: real, topP: Option<real>,
                maxTokens: int, timeoutS: real, verifyTls: bool, extra: Option<map<string, Json>>)
      ensures this.baseUrl == RStripChar(baseUrl, '/')
      ensures this.provider == provider && this.model == model && this.temperature == temperature
      ensures this.topP == topP && this.maxTokens == maxTokens && this.timeoutS == timeoutS
      ensures this.verifyTls == verifyTls
      ensures this.extra == if extra.Some? then extra.value else map[]
      ensures lastUsage == JNull && lastFinishReason == JNull && lastToolCalls == JNull
    {
      this.baseUrl := RStripChar(baseUrl, '/');
      this.provider := provider;
      this.model := model;
      this.temperature := temperature;
      this.topP := topP;
      this.maxTokens := maxTokens;
      this.timeoutS := timeoutS;
      this.verifyTls := verifyTls;
      this.extra := if extra.Some? then extra.value else map[];
      lastUsage, lastFinishReason, lastToolCalls := JNull, JNull, JNull;
    }

    /** The endpoint of non-streaming generation. */
    function GenerateUrl(): string {
      baseUrl + "/generate"
    }

    /** The endpoint of streaming generation. */
    function StreamUrl(): string {
      baseUrl + "/generate/stream"
    }

    /** The payload for these messages and options, overrides applied. */
    function RequestPayload(messages: seq<Message>, tools: Option<Json>, toolChoice: Option<Json>,
                            responseFormat: Option<Json>, dumps: Json -> string): Result<map<string, Json>> {
      Payload(provider, model, messages, temperature, topP, maxTokens, tools, toolChoice, responseFormat,
              GetOr(extra, "request_overrides", JObj(map[])), dumps)
    }

    /** `generate`, given the response body: a body that is not JSON is
        returned as it is; an object records its `usage`, `finishReason`
        and `toolCalls` before the output is normalised. */
    method Generate(messages: seq<Message>, tools: Option<Json>, toolChoice: Option<Json>,
                    responseFormat: Option<Json>, body: string, parse: string -> Option<Json>,
                    dumps: Json -> string) returns (r: Result<string>)
      modifies this
      ensures RequestPayload(messages, tools, toolChoice, responseFormat, dumps).Err? ==>
        r == Err(RequestPayload(messages, tools, toolChoice, responseFormat, dumps).error)
        && unchanged(this)
      ensures RequestPayload(messages, tools, toolChoice, responseFormat, dumps).Ok? && parse(body).None? ==>
        r == Ok(body) && unchanged(this)
      ensures RequestPayload(messages, tools, toolChoice, responseFormat, dumps).Ok? && parse(body).Some? ==>
        r == NormalizeOutput(parse(body).value, dumps)
        && (parse(body).value.JObj? ==>
              lastUsage == Get(parse(body).value.fields, "usage")
              && lastFinishReason == Get(parse(body).value.fields, "finishReason")
              && lastToolCalls == Get(parse(body).value.fields, "toolCalls"))
        && (!parse(body).value.JObj? ==> unchanged(this))
    {
      var payload := RequestPayload(messages, tools, toolChoice, responseFormat, dumps);
      if payload.Err? {
        return Err(payload.error);
      }
      var obj := parse(body);
      if obj.None? {
        return Ok(body);
      }
      if obj.value.JObj? {
        lastUsage := Get(obj.value.fields, "usage");
        lastFinishReason := Get(obj.value.fields, "finishReason");
        lastToolCalls := Get(obj.value.fields, "toolCalls");
      }
      r := NormalizeOutput(obj.value, dumps);
    }

    /** `_handle_sse_event`: a `message_end` event records its metadata. */
    method HandleEvent(data: string, parse: string -> Option<Json>, show: Json -> string) returns (r: Result<seq<Json>>)
      modifies this
      ensures r == Event(data, parse, show).out
      ensures Event(data, parse, show).meta.Some? ==>
        lastUsage == Event(data, parse, show).meta.value.usage
        && lastFinishReason == Event(data, parse, show).meta.value.finishReason
      ensures Event(data, parse, show).meta.None? ==>
        lastUsage == old(lastUsage) && lastFinishReason == old(lastFinishReason)
      ensures lastToolCalls == old(lastToolCalls)
    {
      if Strip(data) == "[DONE]" {
        return Ok([]);
      }
      var parsed := parse(data);
      if parsed.None? {
        return Ok([JStr(data)]);
      }
      var obj := parsed.value;
      if !obj.JObj? {
        return Err(AttributeError("'" + TypeName(obj) + "' object has no attribute 'get'"));
      }
      var t := Get(obj.fields, "type");
      if t == JStr("delta") {
        var d := GetOr(obj.fields, "textDelta", JStr(""));
        return Ok(if Truthy(d) then [d] else []);
      }
      if t == JStr("message_end") {
        lastUsage := Get(obj.fields, "usage");
        lastFinishReason := Get(obj.fields, "finishReason");
        return Ok([]);
      }
      if t == JStr("tool_call") {
        return Ok([]);
      }
      if t == JStr("error") {
        return Err(RuntimeError("llmhub stream error: " + PyStr(Get(obj.fields, "error"), show)));
      }
      return Ok([]);
    }

    /** `stream_generate`, given the lines of the response: everything it
        yields, and the error that ended it if one did. The outputs, the
        error and the metadata are those of feeding the stream's events in
        order. */
    method StreamGenerate(messages: seq<Message>, tools: Option<Json>, toolChoice: Option<Json>,
                          responseFormat: Option<Json>, lines: seq<string>, parse: string -> Option<Json>,
                          show: Json -> string, dumps: Json -> string) returns (outs: seq<Json>, err: Option<Error>)
      modifies this
      ensures RequestPayload(messages, tools, toolChoice, responseFormat, dumps).Err? ==>
        outs == [] && err == Some(RequestPayload(messages, tools, toolChoice, responseFormat, dumps).error)
        && unchanged(this)
      ensures RequestPayload(messages, tools, toolChoice, responseFormat, dumps).Ok? ==>
        StreamState(outs, err, Meta(lastUsage, lastFinishReason))
          == FeedAll(StreamState([], None, Meta(old(lastUsage), old(lastFinishReason))), Events(lines), parse, show)
        && lastToolCalls == old(lastToolCalls)
    {
      var payload := RequestPayload(messages, tools, toolChoice, responseFormat, dumps);
      if payload.Err? {
        return [], Some(payload.error);
      }
      outs, err := ReadStream(lines, parse, show);
    }

    /** The framing loop of `stream_generate` over the response lines. */
    method ReadStream(lines: seq<string>, parse: string -> Option<Json>, show: Json -> string)
      returns (outs: seq<Json>, err: Option<Error>)
      modifies this
      ensures StreamState(outs, err, Meta(lastUsage, lastFinishReason))
        == FeedAll(StreamState([], None, Meta(old(lastUsage), old(lastFinishReason))), Events(lines), parse, show)
      ensures lastToolCalls == old(lastToolCalls)
    {
      ghost var start := StreamState([], None, Meta(lastUsage, lastFinishReason));
      var buf: seq<string> := [];
      ghost var events: seq<string> := [];
      outs := [];
      for i := 0 to |lines|
        invariant Frame(lines[..i]) == Framer(buf, events)
        invariant FeedAll(start, events, parse, show) == StreamState(outs, None, Meta(lastUsage, lastFinishReason))
        invariant lastToolCalls == old(lastToolCalls)
      {
        FrameSnoc(lines, i);
        var line := RStripChar(lines[i], '\n');
        if line == "" {
          if buf != [] {
            var data := Join(buf, "\n");
            buf := [];
            var o, e := DispatchEvent(outs, data, parse, show);
            FeedAllSnoc(start, events, data, parse, show);
            events := events + [data];
            if e.Some? {
              var rest := FramePrefix(lines, i + 1);
              FeedAllStops(start, events, rest, parse, show);
              return o, e;
            }
            outs := o;
          }
        } else if StartsWith(line, ":") {
        } else if StartsWith(line, DataPrefix()) {
          buf := buf + [LStrip(line[|DataPrefix()|..])];
        }
      }
      assert lines[..|lines|] == lines;
      err := None;
      if buf != [] {
        var data := Join(buf, "\n");
        FeedAllSnoc(start, events, data, parse, show);
        outs, err := DispatchEvent(outs, data, parse, show);
      } else {
        assert events + [] == events;
      }
    }

    /** One dispatched event: its outputs are appended, or its error ends
        the stream. */
    method DispatchEvent(outs: seq<Json>, data: string, parse: string -> Option<Json>, show: Json -> string)
      returns (outs2: seq<Json>, err: Option<Error>)
      modifies this
      ensures StreamState(outs2, err, Meta(lastUsage, lastFinishReason))
        == Feed(StreamState(outs, None, Meta(old(lastUsage), old(lastFinishReason))), data, parse, show)
      ensures lastToolCalls == old(lastToolCalls)
    {
      var r := HandleEvent(data, parse, show);
      if r.Err? {
        return outs, Some(r.error);
      }
      return outs + r.value, None;
    }
  }

  /** The base URL never ends with `/`, and one without a trailing `/` is
      kept as it is. */
  lemma BaseUrlTrimmed(url: string)
    ensures RStripChar(url, '/') == [] || RStripChar(url, '/')[|RStripChar(url, '/')| - 1] != '/'
    ensures (url == [] || url[|url| - 1] != '/') ==> RStripChar(url, '/') == url
    ensures RStripChar(RStripChar(url, '/'), '/') == RStripChar(url, '/')
  {
  }
}
