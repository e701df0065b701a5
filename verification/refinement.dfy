/**
 * `stream_claude_response_native`: a fixed two-pass refinement loop over the
 * Bedrock backend, with the `<thinking>` prefix and the fixed improvement
 * instruction threaded through the conversation.
 */
module Refinement {
  import opened Wrappers
  import opened Errors
  import opened PyStrings
  import opened Catalog
  import opened Messages
  import opened Streams
  import opened Bedrock

  const MaxPasses: nat := 2
  const ThinkingOpen := "<thinking>"
  const ThinkingClose := "</thinking>"
  const ImproveInstruction :=
    "You've done a good job with a first draft. Improve this further based on the original instructions so that the app is fully functional and looks like the original video of the app we're trying to replicate."

  /** The messages a pass sends: the conversation, plus an assistant `<thinking>` turn when thinking is on. */
  function WithThinking(conversation: seq<Message>, includeThinking: bool): (toSend: seq<Message>)
    ensures |toSend| == |conversation| + (if includeThinking then 1 else 0)
    ensures toSend[..|conversation|] == conversation
    ensures includeThinking ==> toSend[|conversation|] == Message(Assistant, Text(ThinkingOpen))
  {
    if includeThinking then conversation + [Message(Assistant, Text(ThinkingOpen))] else conversation
  }

  /** The two turns one completed pass appends: its text after `<thinking>`, then the instruction. */
  function PassTurns(text: string): seq<Message>
  {
    [Message(Assistant, Text(ThinkingOpen + text)), Message(User, Text(ImproveInstruction))]
  }

  /**
   * The turns the loop appends after passes with the given texts: for each, an
   * assistant turn holding `<thinking>` followed by the text (whether or not
   * thinking is on), then the improvement instruction as a user turn.
   */
  function Growth(texts: seq<string>): (turns: seq<Message>)
    ensures |turns| == 2 * |texts|
  {
    if |texts| == 0 then []
    else
      var last := |texts| - 1;
      Growth(texts[..last]) + PassTurns(texts[last])
  }

  /**
   * Pass `k` contributes turns `2k` and `2k + 1`: the `<thinking>`-prefixed
   * text, then the instruction, so the prefix is stored even with thinking off.
   */
  lemma {:induction false} GrowthShape(texts: seq<string>)
    ensures forall k :: 0 <= k < |texts| ==>
      Growth(texts)[2 * k] == Message(Assistant, Text(ThinkingOpen + texts[k]))
      && Growth(texts)[2 * k + 1] == Message(User, Text(ImproveInstruction))
  {
    if |texts| > 0 {
      var last := |texts| - 1;
      GrowthShape(texts[..last]);
      assert forall k :: 0 <= k < last ==> texts[..last][k] == texts[k];
    }
  }

  /** The decoded result of one pass's response. */
  function PassOutcome(r: Response): Result<Final, Error>
  {
    Decode(Events(r), NativeStep)
  }

  /** The callback arguments of one pass. */
  function PassTrace(r: Response): seq<string>
  {
    DecodeTrace(Events(r), NativeStep)
  }

  /** The callback arguments of the passes that sent the given requests, pass by pass. */
  function PassTraces(backend: (nat, Request) -> Response, sent: seq<Request>): seq<string>
  {
    if |sent| == 0 then []
    else PassTraces(backend, sent[..|sent| - 1]) + PassTrace(backend(|sent|, sent[|sent| - 1]))
  }

  lemma GrowthAppend(texts: seq<string>, t: string)
    ensures Growth(texts + [t])
         == Growth(texts) + PassTurns(t)
  {
    assert (texts + [t])[..|texts|] == texts;
  }

  lemma PassTracesAppend(backend: (nat, Request) -> Response, sent: seq<Request>, request: Request)
    ensures PassTraces(backend, sent + [request]) == PassTraces(backend, sent) + PassTrace(backend(|sent| + 1, request))
  {
    var sent' := sent + [request];
    assert sent'[..|sent|] == sent && sent'[|sent|] == request;
  }

  /** One pass: build the request from the current conversation, invoke, decode. */
  method RunPass(modelId: string, systemPrompt: string, conversation: seq<Message>, includeThinking: bool,
                 passNum: nat, backend: (nat, Request) -> Response)
    returns (request: Request, response: Response, passTrace: seq<string>, outcome: Result<Final, Error>)
    ensures request == MakeRequest(modelId, Text(systemPrompt), WithThinking(conversation, includeThinking))
    ensures response == backend(passNum, request)
    ensures passTrace == PassTrace(response)
    ensures outcome == PassOutcome(response)
    ensures outcome.Ok? ==> Concat(passTrace) == outcome.value.text
  {
    request := MakeRequest(modelId, Text(systemPrompt), WithThinking(conversation, includeThinking));
    response := backend(passNum, request);
    passTrace, outcome := Drain(Events(response), NativeStep);
    DecodeIsOutcome(Events(response), NativeStep);
    DecodeTraceIsTrace(Events(response), NativeStep);
  }

  /** The request pass `k` (from 0) sends, given the texts of the passes before it. */
  function PassRequest(modelId: string, systemPrompt: string, messages: seq<Message>, includeThinking: bool,
                       earlier: seq<string>): Request
  {
    MakeRequest(modelId, Text(systemPrompt), WithThinking(messages + Growth(earlier), includeThinking))
  }

  /** Pass `k` (from 0) sent the original messages grown by the turns of the passes before it. */
  ghost predicate RequestsAgree(modelId: string, systemPrompt: string, messages: seq<Message>, includeThinking: bool,
                                sent: seq<Request>, texts: seq<string>)
    decreases |sent|
  {
    && |sent| == |texts|
    && (|sent| > 0 ==>
         var n := |sent| - 1;
         && RequestsAgree(modelId, systemPrompt, messages, includeThinking, sent[..n], texts[..n])
         && sent[n] == PassRequest(modelId, systemPrompt, messages, includeThinking, texts[..n]))
  }

  /** Pass `k` (from 0) decoded without error to `texts[k]`. */
  ghost predicate OutcomesAgree(backend: (nat, Request) -> Response, sent: seq<Request>, texts: seq<string>)
    decreases |sent|
  {
    && |sent| == |texts|
    && (|sent| > 0 ==>
         var n := |sent| - 1;
         && OutcomesAgree(backend, sent[..n], texts[..n])
         && PassOutcome(backend(n + 1, sent[n])).Ok?
         && PassOutcome(backend(n + 1, sent[n])).value.text == texts[n])
  }

  /** The passes so far agree with the loop's description of them. */
  ghost predicate PassesAgree(modelId: string, systemPrompt: string, messages: seq<Message>, includeThinking: bool,
                              backend: (nat, Request) -> Response, sent: seq<Request>, texts: seq<string>)
  {
    RequestsAgree(modelId, systemPrompt, messages, includeThinking, sent, texts) && OutcomesAgree(backend, sent, texts)
  }

  /** Read pass by pass: the request `RequestsAgree` fixes for pass `k`. */
  lemma {:induction false} RequestAt(modelId: string, systemPrompt: string, messages: seq<Message>, includeThinking: bool,
                                     sent: seq<Request>, texts: seq<string>, k: nat)
    requires RequestsAgree(modelId, systemPrompt, messages, includeThinking, sent, texts)
    requires k < |sent|
    ensures sent[k] == PassRequest(modelId, systemPrompt, messages, includeThinking, texts[..k])
    decreases |sent|
  {
    var n := |sent| - 1;
    if k < n {
      RequestAt(modelId, systemPrompt, messages, includeThinking, sent[..n], texts[..n], k);
      assert texts[..n][..k] == texts[..k];
    }
  }

  /** Read pass by pass: the decoded text `OutcomesAgree` fixes for pass `k`. */
  lemma {:induction false} OutcomeAt(backend: (nat, Request) -> Response, sent: seq<Request>, texts: seq<string>, k: nat)
    requires OutcomesAgree(backend, sent, texts)
    requires k < |sent|
    ensures PassOutcome(backend(k + 1, sent[k])).Ok? && PassOutcome(backend(k + 1, sent[k])).value.text == texts[k]
    decreases |sent|
  {
    var n := |sent| - 1;
    if k < n {
      OutcomeAt(backend, sent[..n], texts[..n], k);
    }
  }

  /** A pass that decodes without error extends every loop invariant by one pass. */
  lemma CompletedPass(modelId: string, systemPrompt: string, messages: seq<Message>, includeThinking: bool,
                      backend: (nat, Request) -> Response, sent: seq<Request>, texts: seq<string>, trace: seq<string>,
                      request: Request, passTrace: seq<string>, text: string)
    requires PassesAgree(modelId, systemPrompt, messages, includeThinking, backend, sent, texts)
    requires request == PassRequest(modelId, systemPrompt, messages, includeThinking, texts)
    requires PassOutcome(backend(|sent| + 1, request)).Ok? && PassOutcome(backend(|sent| + 1, request)).value.text == text
    requires Concat(trace) == Concat(texts) && Concat(passTrace) == text
    ensures PassesAgree(modelId, systemPrompt, messages, includeThinking, backend, sent + [request], texts + [text])
    ensures Concat(trace + passTrace) == Concat(texts + [text])
    ensures messages + Growth(texts + [text])
         == (messages + Growth(texts)) + PassTurns(text)
  {
    assert (sent + [request])[..|sent|] == sent && (texts + [text])[..|texts|] == texts;
    GrowthAppend(texts, text);
    ConcatAppend(trace, passTrace);
    ConcatAppend(texts, [text]);
    assert Concat([text]) == text by {
      assert [text][..0] == [];
    }
    assert (messages + Growth(texts)) + PassTurns(text) == messages + (Growth(texts) + PassTurns(text));
  }

  /** One pass of the loop from a state that agrees with the passes before it. */
  method NextPass(modelId: string, systemPrompt: string, messages: seq<Message>, includeThinking: bool,
                  backend: (nat, Request) -> Response, sent: seq<Request>, texts: seq<string>, trace: seq<string>,
                  conversation: seq<Message>)
    returns (request: Request, response: Response, passTrace: seq<string>, outcome: Result<Final, Error>)
    requires PassesAgree(modelId, systemPrompt, messages, includeThinking, backend, sent, texts)
    requires conversation == messages + Growth(texts)
    requires trace == PassTraces(backend, sent) && Concat(trace) == Concat(texts)
    ensures request == PassRequest(modelId, systemPrompt, messages, includeThinking, texts)
    ensures response == backend(|sent| + 1, request)
    ensures trace + passTrace == PassTraces(backend, sent + [request])
    ensures outcome == PassOutcome(response)
    ensures outcome.Ok? ==>
      && PassesAgree(modelId, systemPrompt, messages, includeThinking, backend, sent + [request], texts + [outcome.value.text])
      && Concat(trace + passTrace) == Concat(texts + [outcome.value.text])
      && conversation + PassTurns(outcome.value.text) == messages + Growth(texts + [outcome.value.text])
  {
    request, response, passTrace, outcome := RunPass(modelId, systemPrompt, conversation, includeThinking, |sent| + 1, backend);
    PassTracesAppend(backend, sent, request);
    if outcome.Ok? {
      CompletedPass(modelId, systemPrompt, messages, includeThinking, backend, sent, texts, trace, request, passTrace, outcome.value.text);
    }
  }

  /**
   * The refinement loop for a resolved model id. Pass `k` (numbered from 1)
   * sends the original messages grown by the turns of the earlier passes, plus
   * the `<thinking>` turn when thinking is on. A pass whose stream raises ends
   * the call with that error; otherwise the conversation grows by two turns.
   * After exactly two passes the result is the last pass's text, unless the
   * last raw response is falsy. `conversation` is the caller's list afterwards,
   * which the loop extends in place.
   */
  method RefinePasses(
    modelId: string,
    systemPrompt: string,
    messages: seq<Message>,
    includeThinking: bool,
    backend: (nat, Request) -> Response)
    returns (sent: seq<Request>, texts: seq<string>, trace: seq<string>, conversation: seq<Message>, result: Result<string, Error>)
    ensures 1 <= |sent| <= MaxPasses && |texts| <= |sent| <= |texts| + 1
    ensures PassesAgree(modelId, systemPrompt, messages, includeThinking, backend, sent[..|texts|], texts)
    ensures conversation == messages + Growth(texts)
    ensures trace == PassTraces(backend, sent)
    ensures |sent| == |texts| + 1 ==>
      && sent[|texts|] == PassRequest(modelId, systemPrompt, messages, includeThinking, texts)
      && PassOutcome(backend(|sent|, sent[|texts|])).Err?
      && result == Err(PassOutcome(backend(|sent|, sent[|texts|])).error)
    ensures |sent| == |texts| ==>
      && |sent| == MaxPasses
      && Concat(trace) == Concat(texts)
      && result == (if backend(MaxPasses, sent[MaxPasses - 1]).Response? then Ok(texts[MaxPasses - 1]) else Err(NoResponse))
  {
    sent, texts, trace, conversation := [], [], [], messages;
    var passNum := 1;
    var response := FalsyResponse;
    while passNum <= MaxPasses
      invariant 1 <= passNum <= MaxPasses + 1
      invariant |sent| == |texts| == passNum - 1
      invariant conversation == messages + Growth(texts)
      invariant PassesAgree(modelId, systemPrompt, messages, includeThinking, backend, sent, texts)
      invariant trace == PassTraces(backend, sent)
      invariant Concat(trace) == Concat(texts)
      invariant |sent| > 0 ==> response == backend(|sent|, sent[|sent| - 1])
    {
      var request, passTrace, outcome;
      request, response, passTrace, outcome := NextPass(modelId, systemPrompt, messages, includeThinking, backend,
                                                        sent, texts, trace, conversation);
      if outcome.Err? {
        assert (sent + [request])[..|texts|] == sent;
        return sent + [request], texts, trace + passTrace, conversation, Err(outcome.error);
      }
      var text := outcome.value.text;
      sent, texts, trace, conversation := sent + [request], texts + [text], trace + passTrace, conversation + PassTurns(text);
      passNum := passNum + 1;
    }
    assert sent[..|texts|] == sent;
    result := if response.Response? then Ok(texts[|texts| - 1]) else Err(NoResponse);
  }

  /**
   * `stream_claude_response_native`: the model-id lookup in the table as
   * declared (with its crossed targets) raises before any invocation; otherwise
   * the refinement loop runs with the mapped id. Thinking is off and the model
   * is `Claude35Sonnet` unless the caller says otherwise.
   */
  method StreamClaudeNative(
    systemPrompt: string,
    messages: seq<Message>,
    backend: (nat, Request) -> Response,
    includeThinking: bool := false,
    model: Llm := Claude35Sonnet)
    returns (sent: seq<Request>, texts: seq<string>, trace: seq<string>, conversation: seq<Message>, result: Result<string, Error>)
    ensures BedrockModelIdAsWritten(model).None? ==>
      sent == [] && texts == [] && trace == [] && conversation == messages && result == Err(UnmappedModel)
    ensures BedrockModelIdAsWritten(model).Some? ==> 1 <= |sent| <= MaxPasses && |texts| <= |sent| <= |texts| + 1
    ensures BedrockModelIdAsWritten(model).Some? ==>
      PassesAgree(BedrockModelIdAsWritten(model).value, systemPrompt, messages, includeThinking, backend, sent[..|texts|], texts)
    ensures conversation == messages + Growth(texts)
    ensures trace == PassTraces(backend, sent)
    ensures |sent| == |texts| + 1 ==>
      && sent[|texts|] == PassRequest(BedrockModelIdAsWritten(model).value, systemPrompt, messages, includeThinking, texts)
      && PassOutcome(backend(|sent|, sent[|texts|])).Err?
      && result == Err(PassOutcome(backend(|sent|, sent[|texts|])).error)
    ensures BedrockModelIdAsWritten(model).Some? && |sent| == |texts| ==>
      && |sent| == MaxPasses
      && Concat(trace) == Concat(texts)
      && result == (if backend(MaxPasses, sent[MaxPasses - 1]).Response? then Ok(texts[MaxPasses - 1]) else Err(NoResponse))
  {
    var modelId := BedrockModelIdAsWritten(model);
    if modelId.None? {
      return [], [], [], messages, Err(UnmappedModel);
    }
    sent, texts, trace, conversation, result := RefinePasses(modelId.value, systemPrompt, messages, includeThinking, backend);
  }

  /**
   * The reasoning text the debug sink records for a pass: `text.split("</thinking>")[0]`,
   * the text before the first closing marker, or the whole text without one.
   */
  function ThinkingText(text: string): (thinking: string)
    ensures thinking <= text
    ensures forall j :: 0 <= j < |thinking| ==> !OccursAt(text, ThinkingClose, j)
    ensures |thinking| < |text| ==> OccursAt(text, ThinkingClose, |thinking|)
    ensures |thinking| == |text| ==> forall j :: 0 <= j <= |text| ==> !OccursAt(text, ThinkingClose, j)
  {
    match FindFrom(text, ThinkingClose, 0)
    case Some(k) => text[..k]
    case None => text
  }
}
