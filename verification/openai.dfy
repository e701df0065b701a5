/**
 * `stream_openai_response`: the request parameters and the chunk filter; the
 * client and its transport are a backend function from parameters to chunks.
 */
module OpenAi {
  import opened Wrappers
  import opened PyStrings
  import opened Catalog
  import opened Messages
  import opened Streams

  /** The parts of a streamed `ChatCompletionChunk` the filter reads. */
  datatype Delta = Delta(content: Option<string>)
  datatype Choice = Choice(delta: Option<Delta>)
  datatype Chunk = Chunk(choices: seq<Choice>)

  /** The keyword arguments of `chat.completions.create`. */
  datatype Params = Params(
    model: string,
    messages: seq<Message>,
    stream: bool,
    timeout: nat,
    temperature: Temperature,
    maxTokens: Option<nat>)

  const RequestTimeout: nat := 600
  const MaxTokensCap: nat := 4096

  /** The models whose requests carry the output-token cap. */
  predicate CapsOutput(m: Llm)
  {
    m == Gpt4Vision || m == Gpt4Turbo20240409 || m == Gpt4o20240513
  }

  /**
   * Fixed streaming, timeout and temperature; `max_tokens` present, at 4096,
   * for exactly the capped models.
   */
  function RequestParams(messages: seq<Message>, model: Llm): (p: Params)
    ensures p.model == Value(model) && p.messages == messages
    ensures p.stream && p.timeout == 600 && p.temperature == ZeroTemperature
    ensures p.maxTokens.Some? <==> CapsOutput(model)
    ensures p.maxTokens.Some? ==> p.maxTokens.value == 4096
  {
    var base := Params(Value(model), messages, true, RequestTimeout, ZeroTemperature, None);
    if CapsOutput(model) then base.(maxTokens := Some(MaxTokensCap)) else base
  }

  /** The capped models are exactly the catalog's GPT models: those whose value starts with `gpt-`. */
  lemma CapExactlyForGptModels(messages: seq<Message>, model: Llm)
    ensures RequestParams(messages, model).maxTokens.Some? <==> "gpt-" <= Value(model)
  {
    if !CapsOutput(model) {
      assert Value(model)[0] == 'c';
    }
  }

  /** A chunk is forwarded when its first choice has a delta with non-empty content. */
  function ChunkStep(c: Chunk): (s: Step)
    ensures !s.Fail? && !s.Tokens?
    ensures s.Emit? <==>
      && |c.choices| > 0
      && c.choices[0].delta.Some?
      && c.choices[0].delta.value.content.Some?
      && c.choices[0].delta.value.content.value != ""
    ensures s.Emit? ==> s.text == c.choices[0].delta.value.content.value
  {
    if |c.choices| > 0 && c.choices[0].delta.Some? then
      match c.choices[0].delta.value.content
      case Some(text) => if text != "" then Emit(text) else Skip
      case None => Skip
    else Skip
  }

  /** The non-empty first-choice delta contents of the chunks, in order. */
  function ChunkContents(chunks: seq<Chunk>): seq<string>
  {
    if |chunks| == 0 then []
    else
      var c := chunks[|chunks| - 1];
      var forwarded :=
        && |c.choices| > 0
        && c.choices[0].delta.Some?
        && c.choices[0].delta.value.content.Some?
        && c.choices[0].delta.value.content.value != "";
      ChunkContents(chunks[..|chunks| - 1]) + (if forwarded then [c.choices[0].delta.value.content.value] else [])
  }

  /** The decoder emits exactly the chunks' non-empty contents, each once and in order. */
  lemma {:induction false} ForwardedAreContents(chunks: seq<Chunk>)
    ensures Emitted(Classify(chunks, ChunkStep)) == ChunkContents(chunks)
  {
    if |chunks| > 0 {
      ClassifyLast(chunks, ChunkStep);
      ForwardedAreContents(chunks[..|chunks| - 1]);
    }
  }

  /**
   * Builds the parameters, sends them once, and forwards every non-empty
   * content delta to the callback while accumulating it. Decoding cannot fail;
   * an empty stream returns "".
   */
  method StreamOpenAi(messages: seq<Message>, model: Llm, backend: Params -> seq<Chunk>)
    returns (sent: Params, trace: seq<string>, text: string)
    ensures sent == RequestParams(messages, model)
    ensures trace == ChunkContents(backend(sent))
    ensures forall i :: 0 <= i < |trace| ==> trace[i] != ""
    ensures text == Concat(trace)
    ensures |backend(sent)| == 0 ==> trace == [] && text == ""
  {
    sent := RequestParams(messages, model);
    var chunks := backend(sent);
    var outcome;
    trace, outcome := Drain(chunks, ChunkStep);
    NoFailures(chunks);
    EmittedNonEmpty(Classify(chunks, ChunkStep));
    ForwardedAreContents(chunks);
    text := outcome.value.text;
  }

  /** The chunk filter never raises, so the whole stream is decoded. */
  lemma NoFailures(chunks: seq<Chunk>)
    ensures FirstFail(Classify(chunks, ChunkStep)) == |chunks|
    ensures Outcome(Classify(chunks, ChunkStep)).Ok?
    ensures Trace(Classify(chunks, ChunkStep)) == Emitted(Classify(chunks, ChunkStep))
  {
    var steps := Classify(chunks, ChunkStep);
    FirstFailUnique(steps, |steps|);
    assert steps[..|steps|] == steps;
  }

  /** Every emitted chunk text is non-empty. */
  lemma {:induction false} EmittedNonEmpty(steps: seq<Step>)
    requires forall i :: 0 <= i < |steps| ==> steps[i].Emit? ==> steps[i].text != ""
    ensures forall i :: 0 <= i < |Emitted(steps)| ==> Emitted(steps)[i] != ""
  {
    if |steps| > 0 {
      EmittedNonEmpty(steps[..|steps| - 1]);
    }
  }
}
