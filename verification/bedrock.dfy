/**
 * The Bedrock side: request bodies, decoded stream events, the two per-event
 * decoders, and the single-pass driver `stream_claude_response`. The runtime
 * client is a backend function from a request to its response.
 */
module Bedrock {
  import opened Wrappers
  import opened Errors
  import opened PyStrings
  import opened Catalog
  import opened Messages
  import opened Translator
  import opened Streams

  /**
   * The `delta` object of a decoded event. `None` stands for an absent key;
   * a JSON null that is present is carried as its text.
   */
  datatype Delta = Delta(
    kind: Option<string>,
    text: Option<string>,
    stopReason: Option<string>,
    stopSequence: Option<string>)

  datatype Usage = Usage(outputTokens: Option<nat>)

  /** The JSON object decoded from a chunk's bytes. */
  datatype Payload = Payload(kind: Option<string>, delta: Option<Delta>, usage: Option<Usage>)

  /** One element of the response body; `chunk` is `None` when absent or empty. */
  datatype Event = Event(chunk: Option<Payload>)

  /**
   * What `invoke_model_with_response_stream` returns: a falsy (empty) response
   * object, which has no keys at all, or a truthy one with its `body` stream if
   * there is one.
   */
  datatype Response =
    | FalsyResponse
    | Response(body: Option<seq<Event>>)

  /** The arguments of one invocation, with the JSON body still structured. */
  datatype Request = Request(
    modelId: string,
    contentType: string,
    accept: string,
    anthropicVersion: string,
    maxTokens: nat,
    temperature: Temperature,
    system: Content,
    messages: seq<Message>)

  const AnthropicVersion := "bedrock-2023-05-31"
  const ClaudeMaxTokens: nat := 4096

  /** The payload both Claude drivers build: fixed content types, version, token cap and temperature. */
  function MakeRequest(modelId: string, system: Content, messages: seq<Message>): (r: Request)
    ensures r.modelId == modelId && r.system == system && r.messages == messages
    ensures r.contentType == "application/json" && r.accept == "application/json"
    ensures r.anthropicVersion == "bedrock-2023-05-31"
    ensures r.maxTokens == 4096 && r.temperature == Temperature("0.0")
  {
    Request(modelId, "application/json", "application/json", AnthropicVersion, ClaudeMaxTokens, ZeroTemperature, system, messages)
  }

  /** The events of the body; a missing (falsy) body is iterated as no events. */
  function Events(r: Response): seq<Event>
  {
    if r.Response? && r.body.Some? then r.body.value else []
  }

  /**
   * One event of `stream_claude_response`: every chunk must carry `delta.type`;
   * a `text_delta` must carry its `text`, which is forwarded even when empty.
   */
  function DeltaStep(e: Event): Step
  {
    match e.chunk
    case None => Skip
    case Some(payload) =>
      match payload.delta
      case None => Fail(MissingKey("delta"))
      case Some(delta) =>
        match delta.kind
        case None => Fail(MissingKey("type"))
        case Some(kind) =>
          if kind != "text_delta" then Skip
          else if delta.text.None? then Fail(MissingKey("text"))
          else Emit(delta.text.value)
  }

  /** A chunk `stream_claude_response` can read: it has `delta.type`, and a `text_delta` has its `text`. */
  predicate DeltaEventReadable(e: Event)
  {
    e.chunk.Some? ==>
      && e.chunk.value.delta.Some?
      && e.chunk.value.delta.value.kind.Some?
      && (e.chunk.value.delta.value.kind.value == "text_delta" ==> e.chunk.value.delta.value.text.Some?)
  }

  /** The texts of the `text_delta` chunks, in order. */
  function TextDeltas(events: seq<Event>): seq<string>
  {
    if |events| == 0 then []
    else
      var e := events[|events| - 1];
      var isText :=
        && e.chunk.Some? && e.chunk.value.delta.Some?
        && e.chunk.value.delta.value.kind == Some("text_delta")
        && e.chunk.value.delta.value.text.Some?;
      TextDeltas(events[..|events| - 1]) + (if isText then [e.chunk.value.delta.value.text.value] else [])
  }

  lemma {:induction false} DeltaTextsEmitted(events: seq<Event>)
    ensures Emitted(Classify(events, DeltaStep)) == TextDeltas(events)
  {
    if |events| > 0 {
      ClassifyLast(events, DeltaStep);
      DeltaTextsEmitted(events[..|events| - 1]);
    }
  }

  /** The first failure of the `stream_claude_response` decoder is the first unreadable chunk. */
  lemma DeltaFirstFailIsFirstUnreadable(events: seq<Event>)
    ensures var k := FirstFail(Classify(events, DeltaStep));
      && (forall j :: 0 <= j < k ==> DeltaEventReadable(events[j]))
      && (k < |events| ==> !DeltaEventReadable(events[k]))
  {
    var steps := Classify(events, DeltaStep);
    forall i | 0 <= i < |events|
      ensures steps[i].Fail? <==> !DeltaEventReadable(events[i])
    {
      DeltaFailsIffUnreadable(events[i]);
    }
  }

  /**
   * Decoding for `stream_claude_response` succeeds exactly when every chunk is
   * readable, and then returns the `text_delta` texts concatenated.
   */
  lemma DeltaDecoding(events: seq<Event>)
    ensures TextOutcome(Classify(events, DeltaStep)).Ok? <==> forall i :: 0 <= i < |events| ==> DeltaEventReadable(events[i])
    ensures TextOutcome(Classify(events, DeltaStep)).Ok? ==> TextOutcome(Classify(events, DeltaStep)).value == Concat(TextDeltas(events))
  {
    var steps := Classify(events, DeltaStep);
    DeltaFirstFailIsFirstUnreadable(events);
    if FirstFail(steps) == |events| {
      DeltaTextsEmitted(events);
    }
  }

  /** Before raising, the callback has received the `text_delta` texts of the chunks before the first unreadable one. */
  lemma DeltaTraceBeforeFailure(events: seq<Event>)
    ensures Trace(Classify(events, DeltaStep)) == TextDeltas(events[..FirstFail(Classify(events, DeltaStep))])
  {
    var steps := Classify(events, DeltaStep);
    var k := FirstFail(steps);
    assert steps[..k] == Classify(events[..k], DeltaStep);
    DeltaTextsEmitted(events[..k]);
  }

  lemma DeltaFailsIffUnreadable(e: Event)
    ensures DeltaStep(e).Fail? <==> !DeltaEventReadable(e)
  {
  }

  /**
   * One event of the native driver: every chunk must carry `type`. A
   * `message_delta` must carry `delta.stop_reason`, `delta.stop_sequence` and
   * `usage.output_tokens` (the first two are only printed) and reports the
   * token count; a `content_block_delta` behaves as in `DeltaStep`; every other
   * type is ignored.
   */
  function NativeStep(e: Event): Step
  {
    match e.chunk
    case None => Skip
    case Some(payload) =>
      match payload.kind
      case None => Fail(MissingKey("type"))
      case Some(kind) =>
        if kind == "message_delta" then
          if payload.delta.None? then Fail(MissingKey("delta"))
          else if payload.delta.value.stopReason.None? then Fail(MissingKey("stop_reason"))
          else if payload.delta.value.stopSequence.None? then Fail(MissingKey("stop_sequence"))
          else if payload.usage.None? then Fail(MissingKey("usage"))
          else if payload.usage.value.outputTokens.None? then Fail(MissingKey("output_tokens"))
          else Tokens(payload.usage.value.outputTokens.value)
        else if kind == "content_block_delta" then
          if payload.delta.None? then Fail(MissingKey("delta"))
          else if payload.delta.value.kind.None? then Fail(MissingKey("type"))
          else if payload.delta.value.kind.value != "text_delta" then Skip
          else if payload.delta.value.text.None? then Fail(MissingKey("text"))
          else Emit(payload.delta.value.text.value)
        else Skip
  }

  /**
   * A chunk the native driver can read: it has `type`; a `message_delta` has
   * `delta.stop_reason`, `delta.stop_sequence` and `usage.output_tokens`; a
   * `content_block_delta` has `delta.type`, and a `text_delta` its `text`.
   */
  predicate NativeEventReadable(e: Event)
  {
    e.chunk.Some? ==>
      var p := e.chunk.value;
      && p.kind.Some?
      && (p.kind.value == "message_delta" ==>
            && p.delta.Some? && p.delta.value.stopReason.Some? && p.delta.value.stopSequence.Some?
            && p.usage.Some? && p.usage.value.outputTokens.Some?)
      && (p.kind.value == "content_block_delta" ==>
            && p.delta.Some? && p.delta.value.kind.Some?
            && (p.delta.value.kind.value == "text_delta" ==> p.delta.value.text.Some?))
  }

  /** The texts of the `content_block_delta` chunks whose delta is a `text_delta`, in order. */
  function ContentTexts(events: seq<Event>): seq<string>
  {
    if |events| == 0 then []
    else
      var e := events[|events| - 1];
      var isText :=
        && e.chunk.Some?
        && e.chunk.value.kind == Some("content_block_delta")
        && e.chunk.value.delta.Some?
        && e.chunk.value.delta.value.kind == Some("text_delta")
        && e.chunk.value.delta.value.text.Some?;
      ContentTexts(events[..|events| - 1]) + (if isText then [e.chunk.value.delta.value.text.value] else [])
  }

  /** The `usage.output_tokens` of the last `message_delta` chunk that has one, or 0. */
  function ReportedTokens(events: seq<Event>): nat
  {
    if |events| == 0 then 0
    else
      var e := events[|events| - 1];
      if && e.chunk.Some?
         && e.chunk.value.kind == Some("message_delta")
         && e.chunk.value.usage.Some?
         && e.chunk.value.usage.value.outputTokens.Some?
      then e.chunk.value.usage.value.outputTokens.value
      else ReportedTokens(events[..|events| - 1])
  }

  lemma NativeFailsIffUnreadable(e: Event)
    ensures NativeStep(e).Fail? <==> !NativeEventReadable(e)
  {
  }

  lemma {:induction false} NativeTextsEmitted(events: seq<Event>)
    ensures Emitted(Classify(events, NativeStep)) == ContentTexts(events)
  {
    if |events| > 0 {
      ClassifyLast(events, NativeStep);
      NativeTextsEmitted(events[..|events| - 1]);
    }
  }

  lemma {:induction false} NativeTokensReported(events: seq<Event>)
    requires forall i :: 0 <= i < |events| ==> NativeEventReadable(events[i])
    ensures (var t := LastTokens(Classify(events, NativeStep)); if t.Some? then t.value else 0) == ReportedTokens(events)
  {
    if |events| > 0 {
      ClassifyLast(events, NativeStep);
      NativeTokensReported(events[..|events| - 1]);
    }
  }

  /** The first failure of the native decoder is the first unreadable chunk. */
  lemma NativeFirstFailIsFirstUnreadable(events: seq<Event>)
    ensures var k := FirstFail(Classify(events, NativeStep));
      && (forall j :: 0 <= j < k ==> NativeEventReadable(events[j]))
      && (k < |events| ==> !NativeEventReadable(events[k]))
  {
    var steps := Classify(events, NativeStep);
    forall i | 0 <= i < |events|
      ensures steps[i].Fail? <==> !NativeEventReadable(events[i])
    {
      NativeFailsIffUnreadable(events[i]);
    }
  }

  /**
   * The native decoder succeeds exactly when every chunk is readable, and then
   * returns the `text_delta` texts of the `content_block_delta` chunks
   * concatenated, with the last reported output-token count (0 if none).
   */
  lemma NativeDecoding(events: seq<Event>)
    ensures Outcome(Classify(events, NativeStep)).Ok? <==> forall i :: 0 <= i < |events| ==> NativeEventReadable(events[i])
    ensures Outcome(Classify(events, NativeStep)).Ok? ==>
      Outcome(Classify(events, NativeStep)).value == Final(Concat(ContentTexts(events)), ReportedTokens(events))
  {
    var steps := Classify(events, NativeStep);
    NativeFirstFailIsFirstUnreadable(events);
    if FirstFail(steps) == |events| {
      NativeTextsEmitted(events);
      NativeTokensReported(events);
    }
  }

  /** Before raising, the callback has received the texts of the chunks before the first unreadable one. */
  lemma NativeTraceBeforeFailure(events: seq<Event>)
    ensures Trace(Classify(events, NativeStep)) == ContentTexts(events[..FirstFail(Classify(events, NativeStep))])
  {
    var steps := Classify(events, NativeStep);
    var k := FirstFail(steps);
    assert steps[..k] == Classify(events[..k], NativeStep);
    NativeTextsEmitted(events[..k]);
  }

  /** The text outcome of a stream decoded by `classify`. */
  function TextOutcome(steps: seq<Step>): Result<string, Error>
  {
    match Outcome(steps)
    case Ok(f) => Ok(f.text)
    case Err(e) => Err(e)
  }

  /**
   * `stream_claude_response`. The model-id lookup in the table as declared
   * raises first, then the translator; only then is the backend invoked, once,
   * with the other Sonnet model's id. The callback receives every `text_delta`
   * text up to the first event that raises.
   */
  method StreamClaude(messages: seq<Message>, model: Llm, backend: Request -> Response)
    returns (sent: seq<Request>, trace: seq<string>, result: Result<string, Error>)
    ensures BedrockModelIdAsWritten(model).None? ==> sent == [] && trace == [] && result == Err(UnmappedModel)
    ensures BedrockModelIdAsWritten(model).Some? && ToClaude(messages).Err? ==>
      sent == [] && trace == [] && result == Err(ToClaude(messages).error)
    ensures |sent| <= 1
    ensures |sent| == 1 <==> BedrockModelIdAsWritten(model).Some? && ToClaude(messages).Ok?
    ensures |sent| == 1 ==>
      && sent[0] == MakeRequest(BedrockModelIdAsWritten(model).value, ToClaude(messages).value.system, ToClaude(messages).value.messages)
      && trace == Trace(Classify(Events(backend(sent[0])), DeltaStep))
      && result == TextOutcome(Classify(Events(backend(sent[0])), DeltaStep))
    ensures |sent| == 1 ==> sent[0].modelId != IntendedBedrockId(model)
    ensures result.Ok? ==> Concat(trace) == result.value
    ensures |sent| == 1 ==>
      && (result.Ok? <==> forall i :: 0 <= i < |Events(backend(sent[0]))| ==> DeltaEventReadable(Events(backend(sent[0]))[i]))
      && (result.Ok? ==> trace == TextDeltas(Events(backend(sent[0]))))
    ensures |sent| == 1 && (backend(sent[0]).FalsyResponse? || backend(sent[0]).body.None?) ==> trace == [] && result == Ok("")
  {
    sent, trace := [], [];
    var modelId := BedrockModelIdAsWritten(model);
    if modelId.None? {
      return sent, trace, Err(UnmappedModel);
    }
    var conversation := ToClaude(messages);
    if conversation.Err? {
      return sent, trace, Err(conversation.error);
    }
    AsWrittenTableCrossesTargets();
    var request := MakeRequest(modelId.value, conversation.value.system, conversation.value.messages);
    sent := [request];
    var outcome;
    trace, outcome := Drain(Events(backend(request)), DeltaStep);
    DeltaDecoding(Events(backend(request)));
    DeltaTraceBeforeFailure(Events(backend(request)));
    ghost var events := Events(backend(request));
    assert outcome.Ok? ==> events[..FirstFail(Classify(events, DeltaStep))] == events;
    result := if outcome.Ok? then Ok(outcome.value.text) else Err(outcome.error);
  }
}
