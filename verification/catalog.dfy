/**
 * The model catalog: the `Llm` enumeration, lookup by value, the frontend-string
 * resolution and the Bedrock model-id table.
 */
module Catalog {
  import opened Wrappers
  import opened Errors

  /**
   * The members of the enumeration. The class body declares eight names, but the
   * last one repeats the value of `Claude35Sonnet`, so Python makes it an alias of
   * that member rather than a member of its own (see `Declared` and `Attribute`).
   */
  datatype Llm =
    | Gpt4Vision
    | Gpt4Turbo20240409
    | Gpt4o20240513
    | Claude3Sonnet
    | Claude35Sonnet
    | Claude3Opus
    | Claude3Haiku

  /** The version string a member stands for: sent to the backends and logged. */
  function Value(m: Llm): string
  {
    match m
    case Gpt4Vision => "gpt-4-vision-preview"
    case Gpt4Turbo20240409 => "gpt-4-turbo-2024-04-09"
    case Gpt4o20240513 => "gpt-4o-2024-05-13"
    case Claude3Sonnet => "claude-3-sonnet-20240229"
    case Claude35Sonnet => "claude-3-5-sonnet-20240620"
    case Claude3Opus => "claude-3-opus-20240229"
    case Claude3Haiku => "claude-3-haiku-20240307"
  }

  /** Every name the class body declares, with its value, in declaration order. */
  const Declared: seq<(string, string)> := [
    ("GPT_4_VISION", "gpt-4-vision-preview"),
    ("GPT_4_TURBO_2024_04_09", "gpt-4-turbo-2024-04-09"),
    ("GPT_4O_2024_05_13", "gpt-4o-2024-05-13"),
    ("CLAUDE_3_SONNET", "claude-3-sonnet-20240229"),
    ("CLAUDE_3_5_SONNET", "claude-3-5-sonnet-20240620"),
    ("CLAUDE_3_OPUS", "claude-3-opus-20240229"),
    ("CLAUDE_3_HAIKU", "claude-3-haiku-20240307"),
    ("CLAUDE_3_5_SONNET_2024_06_20", "claude-3-5-sonnet-20240620")
  ]

  /** Two members never share a value. */
  lemma ValueInjective(a: Llm, b: Llm)
    ensures Value(a) == Value(b) ==> a == b
  {
  }

  /** `Llm(v)`: the member whose value is `v`; a ValueError when there is none. */
  function FromValue(v: string): (r: Result<Llm, Error>)
    ensures r.Ok? <==> exists m :: Value(m) == v
    ensures r.Ok? ==> Value(r.value) == v
    ensures r.Err? ==> r.error == InvalidModel(v)
  {
    if v == Value(Gpt4Vision) then Ok(Gpt4Vision)
    else if v == Value(Gpt4Turbo20240409) then Ok(Gpt4Turbo20240409)
    else if v == Value(Gpt4o20240513) then Ok(Gpt4o20240513)
    else if v == Value(Claude3Sonnet) then Ok(Claude3Sonnet)
    else if v == Value(Claude35Sonnet) then Ok(Claude35Sonnet)
    else if v == Value(Claude3Opus) then Ok(Claude3Opus)
    else if v == Value(Claude3Haiku) then Ok(Claude3Haiku)
    else
      assert forall m :: Value(m) != v;
      Err(InvalidModel(v))
  }

  /** Looking a member up by its own value gives the member back. */
  lemma FromValueRoundTrip(m: Llm)
    ensures FromValue(Value(m)) == Ok(m)
  {
    ValueInjective(m, FromValue(Value(m)).value);
  }

  /** The value declared for `name`, scanning the declarations from index `i`. */
  function DeclaredValue(name: string, i: nat := 0): Option<string>
    decreases |Declared| - i
  {
    if i >= |Declared| then None
    else if Declared[i].0 == name then Some(Declared[i].1)
    else DeclaredValue(name, i + 1)
  }

  /**
   * `Llm.NAME`: a declared name denotes the member that owns its value, so a
   * name that repeats an earlier value is an alias of that earlier member.
   */
  function Attribute(name: string): (r: Option<Llm>)
    ensures r.Some? ==> DeclaredValue(name) == Some(Value(r.value))
  {
    match DeclaredValue(name)
    case None => None
    case Some(v) => if FromValue(v).Ok? then Some(FromValue(v).value) else None
  }

  /** `Llm.NAME` for the name declared at index `i`. */
  lemma {:induction false} DeclaredNameResolves(i: nat)
    requires i < |Declared|
    ensures Attribute(Declared[i].0).Some?
    ensures Value(Attribute(Declared[i].0).value) == Declared[i].1
  {
    var members := [Gpt4Vision, Gpt4Turbo20240409, Gpt4o20240513, Claude3Sonnet, Claude35Sonnet, Claude3Opus, Claude3Haiku, Claude35Sonnet];
    assert Value(members[i]) == Declared[i].1;
    FromValueRoundTrip(members[i]);
    assert DeclaredValue(Declared[i].0) == Some(Declared[i].1);
  }

  /**
   * Eight names are declared for seven members: the only two declarations that
   * share a value are `CLAUDE_3_5_SONNET` and `CLAUDE_3_5_SONNET_2024_06_20`,
   * and both names denote the same member.
   */
  lemma AliasSharesMember()
    ensures forall i, j :: 0 <= i < j < |Declared| && Declared[i].1 == Declared[j].1 ==> i == 4 && j == 7
    ensures Attribute("CLAUDE_3_5_SONNET_2024_06_20") == Attribute("CLAUDE_3_5_SONNET") == Some(Claude35Sonnet)
  {
    DeclaredNameResolves(4);
    DeclaredNameResolves(7);
    ValueInjective(Attribute(Declared[4].0).value, Claude35Sonnet);
    ValueInjective(Attribute(Declared[7].0).value, Claude35Sonnet);
  }

  /** The three shorthand strings the frontend may send instead of a value. */
  predicate IsFrontendShorthand(s: string)
  {
    s == "gpt_4_vision" || s == "claude_3_sonnet" || s == "claude_3_5_sonnet"
  }

  /** `convert_frontend_str_to_llm`: a shorthand, or else any member's value. */
  function FromFrontend(s: string): (r: Result<Llm, Error>)
    ensures s == "gpt_4_vision" ==> r == Ok(Gpt4Vision)
    ensures s == "claude_3_sonnet" ==> r == Ok(Claude3Sonnet)
    ensures s == "claude_3_5_sonnet" ==> r == Ok(Claude35Sonnet)
    ensures !IsFrontendShorthand(s) ==> (r.Ok? <==> exists m :: Value(m) == s)
    ensures !IsFrontendShorthand(s) && r.Ok? ==> Value(r.value) == s
    ensures r.Err? ==> r.error == InvalidModel(s)
  {
    if s == "gpt_4_vision" then Ok(Gpt4Vision)
    else if s == "claude_3_sonnet" then Ok(Claude3Sonnet)
    else if s == "claude_3_5_sonnet" then Ok(Claude35Sonnet)
    else FromValue(s)
  }

  /** Sending a member's own value always resolves to that member. */
  lemma FrontendValueRoundTrip(m: Llm)
    ensures FromFrontend(Value(m)) == Ok(m)
  {
    FromValueRoundTrip(m);
  }

  /** The Bedrock model id a correct table gives a member: the member's own version. */
  function IntendedBedrockId(m: Llm): string
  {
    "anthropic." + Value(m) + "-v1:0"
  }

  lemma IntendedIdOfClaude35Sonnet()
    ensures IntendedBedrockId(Claude35Sonnet) == "anthropic.claude-3-5-sonnet-20240620-v1:0"
  {
  }

  lemma IntendedIdOfClaude3Sonnet()
    ensures IntendedBedrockId(Claude3Sonnet) == "anthropic.claude-3-sonnet-20240229-v1:0"
  {
  }

  /**
   * `BEDROCK_LLM_MODELID_LIST` exactly as declared: two entries, with each
   * target naming the other model's version.
   */
  function BedrockModelIdAsWritten(m: Llm): (r: Option<string>)
    ensures r.Some? <==> m == Claude35Sonnet || m == Claude3Sonnet
  {
    match m
    case Claude35Sonnet => Some("anthropic.claude-3-sonnet-20240229-v1:0")
    case Claude3Sonnet => Some("anthropic.claude-3-5-sonnet-20240620-v1:0")
    case _ => None
  }

  /** The declared table sends each of its two models to the other model's id. */
  lemma AsWrittenTableCrossesTargets()
    ensures BedrockModelIdAsWritten(Claude35Sonnet) == Some(IntendedBedrockId(Claude3Sonnet))
    ensures BedrockModelIdAsWritten(Claude3Sonnet) == Some(IntendedBedrockId(Claude35Sonnet))
    ensures forall m :: BedrockModelIdAsWritten(m).Some? ==> BedrockModelIdAsWritten(m).value != IntendedBedrockId(m)
    ensures forall m :: BedrockModelIdAsWritten(m).Some? <==> BedrockModelId(m).Some?
  {
    IntendedIdOfClaude35Sonnet();
    IntendedIdOfClaude3Sonnet();
  }

  /**
   * The model-id table with each entry pointing at its own model. It has the
   * same two keys as the declared table, so every other member still raises
   * a KeyError.
   */
  function BedrockModelId(m: Llm): (r: Option<string>)
    ensures r.Some? <==> m == Claude35Sonnet || m == Claude3Sonnet
    ensures r.Some? ==> r.value == IntendedBedrockId(m)
  {
    match m
    case Claude35Sonnet =>
      IntendedIdOfClaude35Sonnet();
      Some("anthropic.claude-3-5-sonnet-20240620-v1:0")
    case Claude3Sonnet =>
      IntendedIdOfClaude3Sonnet();
      Some("anthropic.claude-3-sonnet-20240229-v1:0")
    case _ => None
  }
}
