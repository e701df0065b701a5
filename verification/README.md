# LLM streaming core of screenshot-to-code, in Dafny

This project models `backend/llm.py`, the module that turns a chat
conversation into code-generating LLM calls. It covers:

- the `Llm` model catalog, its lookup by value and by frontend shorthand, and the
  Bedrock model-id table;
- `stream_openai_response`: the request parameters, with the 4096-token cap for
  the GPT models, and the chunk filter that forwards non-empty deltas;
- `stream_claude_response`: the translation of an OpenAI-style conversation into
  the Claude shape. The first message becomes the system prompt, and each
  `image_url` data URL becomes a base64 `image` source. The function then makes one
  Bedrock invocation and decodes the `text_delta` stream;
- `stream_claude_response_native`: the fixed two-pass refinement loop. It covers
  the optional `<thinking>` assistant turn, the two turns appended after each
  pass, output-token reporting, the final check on the last raw response, and
  the reasoning text given to the debug sink.

The model has these modules:

- `Catalog`;
- `PyStrings`, which holds Python's one-character `str.split` and `str.find`;
- `DataUrl`;
- `Translator`;
- `Streams`, one generic stream decoder. Each backend supplies a per-event
  classifier that says whether an event is skipped, emits text, reports tokens
  or raises. `Drain` is the loop all three drivers run;
- `OpenAi`;
- `Bedrock`;
- `Refinement`.

The network clients are parameters:

- the OpenAI client is a function from request parameters to the chunk sequence;
- the Bedrock runtime is a function from a request to its response;
- in the native loop, the Bedrock runtime is a function from the pass number and
  the request to the response.

The `callback` is modelled as the list of its arguments. Python exceptions are
`Err` values of `Errors.Error`. A `KeyError` on a chunk that lacks a key the code
indexes is `MissingKey`. The unmapped-model `KeyError` is `UnmappedModel`.

Some behaviours of the code are easy to misread, and the model keeps them as
the code has them:

- A chunk that lacks a key the code indexes raises. Such keys are `delta`,
  `delta.type`, `text`, `type`, `stop_reason`, `stop_sequence` and
  `usage.output_tokens`. Such a chunk is not skipped. Callback
  invocations made before the raise stay in the trace.
- The native loop's final check is `if not response` on the last raw response
  object (line 292), so it looks at neither pass's text. The return value is the
  last pass's text only (line 295).
- The assistant turn appended after each pass is always `"<thinking>" + text`,
  even when thinking is off (line 274).
- The debug sink's reasoning text is `text.split("</thinking>")[0]`. This is the
  text before the first closing marker, or the whole text when there is none.
- The native loop raises on an error pass and performs no further pass. The two
  turns for that pass are not appended.

## Model

| member | source | states |
|---|---|---|
| Catalog.FromValue | backend/llm.py:31-39 | `Llm(v)` succeeds exactly when some member has value `v`, and returns a member with that value; any other string raises a ValueError that carries `v` |
| Catalog.ValueInjective | backend/llm.py:31-39 | no two of the seven members share a value |
| Catalog.FromValueRoundTrip | backend/llm.py:31-39 | looking up a member's own value gives back that member |
| Catalog.Attribute | backend/llm.py:31-39 | `Llm.NAME` denotes a member whose value is the one declared for `NAME` |
| Catalog.DeclaredNameResolves | backend/llm.py:31-39 | each of the eight declared names denotes a member, and that member's value is the declared one |
| Catalog.AliasSharesMember | backend/llm.py:35-39 | only `CLAUDE_3_5_SONNET` and `CLAUDE_3_5_SONNET_2024_06_20` share a value; both names denote the same member, so the enumeration has seven members |
| Catalog.FromFrontend | backend/llm.py:46-54 | the three shorthands map to `GPT_4_VISION`, `CLAUDE_3_SONNET` and `CLAUDE_3_5_SONNET`; any other string resolves exactly when it is a member's value, and otherwise raises a ValueError that carries it |
| Catalog.FrontendValueRoundTrip | backend/llm.py:46-54 | sending a member's own value resolves to that member |
| Catalog.BedrockModelIdAsWritten | backend/llm.py:42-43 | the declared table has exactly `CLAUDE_3_5_SONNET` and `CLAUDE_3_SONNET` as keys |
| Catalog.AsWrittenTableCrossesTargets | backend/llm.py:42-43 | in the declared table, each key's target is the other key's own Bedrock id, no key maps to its own id, and the keys are those of the corrected table |
| Catalog.BedrockModelId | backend/llm.py:42-43 | corrected table: it has the same two keys, and each maps to `anthropic.` + its own value + `-v1:0`; every other member is unmapped |
| PyStrings.Split | backend/llm.py:129-130 | `s.split(c)`: there is at least one piece; no piece contains `c`; every character of a piece is in `s`; the pieces joined with `c` give `s`; there is one piece exactly when `c` is absent |
| PyStrings.SplitAtFirst | backend/llm.py:129-130 | the text before the first separator is the first piece, and the rest splits on its own |
| PyStrings.FindFrom | backend/llm.py:269 | the result is an index at or after `from` where the pattern occurs, and no earlier index there has an occurrence; `None` means there is no occurrence at all |
| DataUrl.ParseDataUrl | backend/llm.py:127-130 | extraction succeeds exactly when the first `;`-piece holds a `:` and the URL holds a `,`; otherwise the index raises. The media type holds no `:` or `;`, and the payload holds no `,` |
| DataUrl.ParseRoundTrip | backend/llm.py:127-130 | from `scheme:media;encoding,payload`, extraction gives back the media type and the payload unchanged, when no part holds a separator that an earlier split stops at |
| Translator.TranslatePart | backend/llm.py:122-139 | an `image_url` part becomes an `image` part with a `base64` source that carries the parsed media type and data; other parts are unchanged; it raises exactly when the URL is malformed, with that URL |
| Translator.TranslateParts | backend/llm.py:122-139 | it succeeds exactly when every part is translatable, and then translates the parts element by element; on failure the error comes from the first malformed part |
| Translator.TranslateMessage | backend/llm.py:118-139 | a message whose content is not a list is kept; a list content is translated part by part, and the role is kept; it raises exactly when a part is malformed |
| Translator.TranslateMessages | backend/llm.py:117-139 | it succeeds exactly when every message is translatable, and then translates the messages element by element, with the same length |
| Translator.ToClaude | backend/llm.py:116-139 | an empty conversation raises at `messages[0]`. Otherwise the system prompt is the first message's content, and the other messages follow, translated and in order; it succeeds exactly when they are all translatable |
| Translator.ImagePayloadPreserved | backend/llm.py:126-139 | an image given as `data:<media>;base64,<payload>` arrives as a base64 `image` source with exactly that media type and payload |
| OpenAi.RequestParams | backend/llm.py:67-81 | the request carries the model's value and the messages, with streaming on, timeout 600 and temperature 0.0; `max_tokens` is 4096 and is present exactly for the three GPT members |
| OpenAi.CapExactlyForGptModels | backend/llm.py:75-81 | the token cap is present exactly when the model's value starts with `gpt-` |
| OpenAi.ChunkStep | backend/llm.py:87-95 | a chunk is forwarded exactly when its first choice has a delta with non-empty content, and then that content is forwarded; a chunk never raises or reports tokens |
| OpenAi.ForwardedAreContents | backend/llm.py:85-95 | the forwarded texts are exactly the non-empty first-choice contents, in chunk order |
| OpenAi.NoFailures | backend/llm.py:85-95 | the chunk filter never raises, so the whole stream is consumed |
| OpenAi.EmittedNonEmpty | backend/llm.py:87-95 | when no emitting step carries empty text, no forwarded text is empty |
| OpenAi.StreamOpenAi | backend/llm.py:57-99 | one request is sent with those parameters; the callback receives exactly the non-empty contents, none of them empty; the returned text is their concatenation; an empty stream gives no callback and `""` |
| Streams.Drain | backend/llm.py:238-257 | the decoding loop calls back with every emitted text before the first raise, and returns the first raise or the accumulated text with the last token count (0 if none). On success, the callback arguments concatenate to the returned text. An empty stream gives no callback, `""` and 0 |
| Streams.DecodeIsOutcome | backend/llm.py:238-257 | the running fold equals the whole-stream description. In the fold, text grows by each emitted piece, the token count is replaced by each report, and the first raise is final |
| Streams.DecodeTraceIsTrace | backend/llm.py:238-257 | the callbacks accumulated event by event are the emitted texts before the first raise |
| Streams.SkipsAreInvisible | backend/llm.py:164-171 | an ignored event inserted anywhere changes neither the callbacks nor the result |
| Streams.FirstFailAppend | backend/llm.py:164-171 | the first raise in a concatenation is the first raise in the first part, else the first raise in the second part shifted by the first part's length |
| Bedrock.DeltaFailsIffUnreadable | backend/llm.py:166-171 | a `stream_claude_response` event raises exactly when it has a chunk without `delta.type`, or a `text_delta` without `text` |
| Bedrock.DeltaTextsEmitted | backend/llm.py:169-171 | the emitted texts are the `text_delta` texts, in order |
| Bedrock.DeltaFirstFailIsFirstUnreadable | backend/llm.py:164-171 | the first event that raises is the first unreadable chunk |
| Bedrock.DeltaDecoding | backend/llm.py:160-171 | decoding succeeds exactly when every chunk is readable, and then returns the concatenated `text_delta` texts |
| Bedrock.DeltaTraceBeforeFailure | backend/llm.py:164-171 | before a raise, the callback has received the `text_delta` texts of the chunks before the first unreadable one |
| Bedrock.NativeFailsIffUnreadable | backend/llm.py:243-257 | a native event raises exactly when its chunk lacks `type`, or a key its `message_delta` or `content_block_delta` branch indexes |
| Bedrock.NativeTextsEmitted | backend/llm.py:253-257 | the emitted texts are the `text_delta` texts of the `content_block_delta` chunks, in order |
| Bedrock.NativeTokensReported | backend/llm.py:247-251 | on a readable stream, the reported token count is the `usage.output_tokens` of the last `message_delta`, or 0 when there is none |
| Bedrock.NativeFirstFailIsFirstUnreadable | backend/llm.py:241-257 | the first event that raises is the first unreadable chunk |
| Bedrock.NativeDecoding | backend/llm.py:241-257 | a pass decodes exactly when every chunk is readable, and then yields the concatenated texts and the last reported token count |
| Bedrock.NativeTraceBeforeFailure | backend/llm.py:241-257 | before a raise, the callback has received the texts of the chunks before the first unreadable one |
| Bedrock.MakeRequest | backend/llm.py:140-151 | the request carries the given model id, system prompt and messages, content type and accept `application/json`, `anthropic_version` `bedrock-2023-05-31`, `max_tokens` 4096 and temperature `0.0` |
| Bedrock.StreamClaude | backend/llm.py:102-175 | the lookup in the declared model-id table raises first, then the translator, and both send nothing. Otherwise exactly one request is sent, with the id the declared table gives (never the model's own version) and the translated conversation. The result succeeds exactly when every chunk is readable, and the callbacks are then the `text_delta` texts and concatenate to the result. A falsy response or a missing body gives `""` |
| Refinement.WithThinking | backend/llm.py:208-212 | the messages sent are the conversation, followed by one assistant `<thinking>` turn exactly when thinking is on |
| Refinement.Growth | backend/llm.py:273-279 | the conversation grows by exactly two turns per completed pass |
| Refinement.GrowthShape | backend/llm.py:273-279 | pass `k` contributes turn `2k`, the assistant's `<thinking>` + text, and turn `2k+1`, the user's fixed instruction |
| Refinement.GrowthAppend | backend/llm.py:273-279 | a completed pass appends exactly its own two turns after those of the earlier passes |
| Refinement.RunPass | backend/llm.py:208-257 | one pass sends the current conversation (with the thinking turn) and decodes that pass's response with the native decoder |
| Refinement.RequestAt | backend/llm.py:204-234 | pass `k` sends the original messages, grown by the turns of the passes before it |
| Refinement.OutcomeAt | backend/llm.py:238-257 | each completed pass `k` decoded without a raise to `texts[k]` |
| Refinement.CompletedPass | backend/llm.py:253-279 | a pass that decodes extends the agreement by one pass; the callbacks still concatenate to the pass texts, and the conversation is the original plus the growth |
| Refinement.NextPass | backend/llm.py:204-279 | one loop iteration sends the request built from the earlier passes, decodes it, and keeps every loop invariant when it succeeds |
| Refinement.RefinePasses | backend/llm.py:194-295 | at most two passes, each sending the original messages grown by the earlier turns. A raising pass ends the call with that error. Otherwise exactly two passes run, the callbacks concatenate to the pass texts, and the result is the last pass's text, or the no-response error when the last raw response is falsy |
| Refinement.StreamClaudeNative | backend/llm.py:177-295 | thinking defaults to off and the model to `CLAUDE_3_5_SONNET`. A model the declared table does not map raises before any pass and leaves the conversation untouched. Otherwise the refinement loop runs with the id the declared table gives |
| Refinement.ThinkingText | backend/llm.py:269 | the reasoning text is a prefix of the pass text and holds no `</thinking>`; it is followed by that marker when it is shorter, and is the whole text exactly when the marker is absent |

## Left out

- The boto3 session and client built at import time, from the `region` and `profile` environment variables (lines 22-28), are left out. The runtime is a parameter.
- The network calls are function parameters and are not modelled. They are `AsyncOpenAI(...)`, `chat.completions.create`, `invoke_model_with_response_stream` and `client.close()` (lines 64, 83, 97, 157-159, 232-234). The `api_key`, `base_url` and credential arguments are dropped because they only configure these calls.
- `client.close()` is not modelled. It is not in a `finally` block, so a raise skips it; the model has no resources.
- JSON encoding of the request body (lines 154, 229) is not modelled: the request keeps the structured body. Decoding of each chunk's `bytes` (lines 168, 245) is not modelled either: events arrive already decoded, so a chunk whose `bytes` is missing or is not JSON is out of scope.
- Scalar JSON types are not modelled: texts are strings and token counts are naturals. A `text` that is not a string (a `TypeError` on `+=`) is out of scope.
- `print` output and `pprint` are left out. The `KeyError`s raised while building the printed arguments (lines 248-250) are modelled.
- `DebugFileWriter`, `IS_DEBUG_ENABLED`, the `.html` extraction and `full_stream` (lines 201-202, 262-270, 289-290) are left out. Only the reasoning text given to the sink is modelled, by `ThinkingText`.
- Async scheduling is left out: every `await` is treated as sequential.
- The temperature `0.0` is kept as an opaque literal (`Messages.Temperature`), because the model has no floating point.
- A message dict without `content`, and a part without `type` or `image_url.url`, are not modelled: they are `KeyError`s in the translator. Messages and parts always carry these fields. A first message without `content` would give a `None` system prompt, and that case is not modelled.
- The translator mutates the caller's part dicts in place through the shallow copy at line 117, including partly on a raise. This is not modelled: the translation is a pure function of the messages.
- `input_tokens` is always 0 and is only printed (lines 239, 281-283), so it is left out.
- `stop_reason` and `stop_sequence` values are only printed. The model checks that they are present and does not keep them.

## Findings

| source | as written | input that shows it | evidently intended | confidence | as-written member | corrected member |
|---|---|---|---|---|---|---|
| backend/llm.py:42-43 | `BEDROCK_LLM_MODELID_LIST` maps `CLAUDE_3_5_SONNET` to `anthropic.claude-3-sonnet-20240229-v1:0` and `CLAUDE_3_SONNET` to `anthropic.claude-3-5-sonnet-20240620-v1:0` | `model = Llm.CLAUDE_3_5_SONNET` (the native driver's default) invokes the Claude 3 Sonnet deployment | each key maps to the Bedrock id of its own version, `anthropic.<value>-v1:0` | high; not executed | Catalog.BedrockModelIdAsWritten (shown by Catalog.AsWrittenTableCrossesTargets) | Catalog.BedrockModelId |

Both Claude drivers look the id up in the table as declared,
`Catalog.BedrockModelIdAsWritten`, as the program does, so `Bedrock.StreamClaude`
states that the id it sends is never the model's own version. The corrected
table, `Catalog.BedrockModelId`, is proved to give each model its own id. The
keys are the same in both versions, so only the id sent to the runtime differs.
