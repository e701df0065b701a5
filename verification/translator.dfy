/**
 * Translation of an OpenAI-style conversation into the Claude request shape:
 * the first message becomes the system prompt, and every `image_url` part of
 * the remaining messages becomes an `image` part with a base64 `source`.
 */
module Translator {
  import opened Wrappers
  import opened Errors
  import opened Messages
  import opened DataUrl

  /** `q` is what the translation makes of part `p`. */
  predicate PartTranslated(p: Part, q: Part)
  {
    match p
    case ImageUrlPart(url) =>
      && q.ImagePart?
      && q.source.encoding == "base64"
      && ParseDataUrl(url) == Ok(MediaPayload(q.source.mediaType, q.source.data))
    case _ => q == p
  }

  /** The translation of `p` raises no error. */
  predicate PartTranslatable(p: Part)
  {
    p.ImageUrlPart? ==> ParseDataUrl(p.url).Ok?
  }

  function TranslatePart(p: Part): (r: Result<Part, Error>)
    ensures r.Ok? <==> PartTranslatable(p)
    ensures r.Ok? ==> PartTranslated(p, r.value) && !r.value.ImageUrlPart?
    ensures r.Err? ==> p.ImageUrlPart? && r.error == MalformedDataUrl(p.url)
  {
    match p
    case ImageUrlPart(url) =>
      var media :- ParseDataUrl(url);
      Ok(ImagePart(ImageSource("base64", media.mediaType, media.data)))
    case _ => Ok(p)
  }

  /** The parts of one list content, in order; the first malformed image URL raises. */
  function TranslateParts(ps: seq<Part>): (r: Result<seq<Part>, Error>)
    ensures r.Ok? <==> forall i :: 0 <= i < |ps| ==> PartTranslatable(ps[i])
    ensures r.Ok? ==> |r.value| == |ps|
    ensures r.Ok? ==> forall i :: 0 <= i < |ps| ==> PartTranslated(ps[i], r.value[i])
    ensures r.Err? ==> exists i :: FirstUntranslatable(ps, i) && r.error == MalformedDataUrl(ps[i].url)
  {
    if |ps| == 0 then Ok([])
    else
      match TranslatePart(ps[0])
      case Err(e) =>
        assert FirstUntranslatable(ps, 0);
        Err(e)
      case Ok(head) =>
        match TranslateParts(ps[1..])
        case Err(e) =>
          assert exists i :: FirstUntranslatable(ps, i) && e == MalformedDataUrl(ps[i].url) by {
            var i :| FirstUntranslatable(ps[1..], i) && e == MalformedDataUrl(ps[1..][i].url);
            assert PartTranslatable(ps[0]);
            assert forall j :: 1 <= j <= i + 1 ==> ps[j] == ps[1..][j - 1];
            assert FirstUntranslatable(ps, i + 1);
          }
          Err(e)
        case Ok(tail) =>
          var r := [head] + tail;
          assert forall i :: 1 <= i < |ps| ==> ps[i] == ps[1..][i - 1] && r[i] == tail[i - 1];
          Ok(r)
  }

  /** `ps[i]` is the first part whose translation raises. */
  predicate FirstUntranslatable(ps: seq<Part>, i: int)
  {
    0 <= i < |ps| && ps[i].ImageUrlPart? && !PartTranslatable(ps[i])
    && forall j :: 0 <= j < i ==> PartTranslatable(ps[j])
  }

  /** `m2` is what the translation makes of message `m`. */
  predicate MessageTranslated(m: Message, m2: Message)
  {
    match m.content
    case Text(_) => m2 == m
    case Parts(ps) =>
      && m2.role == m.role
      && m2.content.Parts?
      && |m2.content.parts| == |ps|
      && forall i :: 0 <= i < |ps| ==> PartTranslated(ps[i], m2.content.parts[i])
  }

  /** The translation of `m` raises no error. */
  predicate MessageTranslatable(m: Message)
  {
    m.content.Parts? ==> forall i :: 0 <= i < |m.content.parts| ==> PartTranslatable(m.content.parts[i])
  }

  /** A message with string content is skipped; a list content is translated part by part. */
  function TranslateMessage(m: Message): (r: Result<Message, Error>)
    ensures r.Ok? <==> MessageTranslatable(m)
    ensures r.Ok? ==> MessageTranslated(m, r.value)
    ensures r.Err? ==> r.error.MalformedDataUrl?
  {
    match m.content
    case Text(_) => Ok(m)
    case Parts(ps) =>
      var parts :- TranslateParts(ps);
      Ok(Message(m.role, Parts(parts)))
  }

  function TranslateMessages(ms: seq<Message>): (r: Result<seq<Message>, Error>)
    ensures r.Ok? <==> forall i :: 0 <= i < |ms| ==> MessageTranslatable(ms[i])
    ensures r.Ok? ==> |r.value| == |ms|
    ensures r.Ok? ==> forall i :: 0 <= i < |ms| ==> MessageTranslated(ms[i], r.value[i])
    ensures r.Err? ==> r.error.MalformedDataUrl?
  {
    if |ms| == 0 then Ok([])
    else
      var head :- TranslateMessage(ms[0]);
      var tail :- TranslateMessages(ms[1..]);
      assert forall i :: 1 <= i < |ms| ==> ms[i] == ms[1..][i - 1];
      Ok([head] + tail)
  }

  /** A Claude conversation: the system prompt apart from the turns. */
  datatype ClaudeConversation = ClaudeConversation(system: Content, messages: seq<Message>)

  /**
   * The translator of `stream_claude_response`. An empty conversation raises at
   * `messages[0]`; otherwise the first message's content is the system prompt
   * and the others follow, translated, in their original order.
   */
  function ToClaude(messages: seq<Message>): (r: Result<ClaudeConversation, Error>)
    ensures |messages| == 0 ==> r == Err(EmptyConversation)
    ensures |messages| > 0 ==> (r.Ok? <==> forall i :: 1 <= i < |messages| ==> MessageTranslatable(messages[i]))
    ensures r.Ok? ==> r.value.system == messages[0].content
    ensures r.Ok? ==> |r.value.messages| == |messages| - 1
    ensures r.Ok? ==> forall i :: 0 <= i < |r.value.messages| ==> MessageTranslated(messages[i + 1], r.value.messages[i])
    ensures |messages| > 0 && r.Err? ==> r.error.MalformedDataUrl?
  {
    if |messages| == 0 then Err(EmptyConversation)
    else
      var rest :- TranslateMessages(messages[1..]);
      assert forall i :: 1 <= i < |messages| ==> messages[i] == messages[1..][i - 1];
      Ok(ClaudeConversation(messages[0].content, rest))
  }

  /**
   * An image given as `data:<media type>;base64,<payload>` arrives as an
   * `image` part whose source carries exactly that media type and payload.
   */
  lemma {:induction false} ImagePayloadPreserved(mediaType: string, payload: string)
    requires ':' !in mediaType && ';' !in mediaType && ',' !in mediaType
    requires ',' !in payload
    ensures TranslatePart(ImageUrlPart(DataUrlOf("data", mediaType, "base64", payload)))
         == Ok(ImagePart(ImageSource("base64", mediaType, payload)))
  {
    ParseRoundTrip("data", mediaType, "base64", payload);
  }
}
