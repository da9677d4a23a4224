/**
 * `Converse.build_converse`: the client settings derived from an LLM record. The
 * Bedrock client itself is not modelled; the settings it is given are.
 */
module Converse {
  import opened Wrappers
  import opened Values
  import opened PyText

  /** `{"guardrailIdentifier": ..., "guardrailVersion": ...}`. */
  datatype Guardrails = Guardrails(identifier: Value, version: Value)

  /** The arguments `ChatBedrockConverse` is built with. The temperature is passed on
      as stored, before `float()`. */
  datatype ConverseConfig = ConverseConfig(
    region: Value, modelId: Value, temperature: Value, maxTokens: int, guardrails: Option<Guardrails>)

  /** Python's `int(v)`, with the message of the exception it raises. */
  function IntOf(v: Value): (r: Result<int, string>)
    ensures v.Str? ==> (r.Success? <==> ParseInt(v.s).Some?)
    ensures v.Str? && r.Success? ==> r.value == ParseInt(v.s).value
    ensures v.Int? ==> r == Success(v.i)
  {
    match v
    case Str(s) =>
      (match ParseInt(s)
       case Some(n) => Success(n)
       case None => Failure("invalid literal for int() with base 10: " + Truncate(StrRepr(s), 200)))
    case Int(i) => Success(i)
    case Bool(b) => Success(if b then 1 else 0)
    case Bytes(bs) =>
      (match ParseIntBytes(bs)
       case Some(n) => Success(n)
       case None => Failure("invalid literal for int() with base 10: " + Truncate(BytesRepr(Truncate(bs, 200)), 200)))
    case _ => Failure("int() argument must be a string, a bytes-like object or a real number, not '" + TypeName(v) + "'")
  }

  /** The settings for an LLM record: a guardrail only when both its id and version
      are set (truthy), the token limit parsed from its string, region and model id
      as stored. The token-limit parse is the only way this fails. */
  function BuildConverse(llm: Row): (r: Result<ConverseConfig, string>)
    ensures r.Failure? <==> IntOf(Attr(llm, "model_max_tokens")).Failure?
    ensures r.Failure? ==> r.error == IntOf(Attr(llm, "model_max_tokens")).error
    ensures r.Success? ==> r.value.maxTokens == IntOf(Attr(llm, "model_max_tokens")).value
    ensures r.Success? ==> r.value.region == Attr(llm, "region") && r.value.modelId == Attr(llm, "model_id")
    ensures r.Success? ==> r.value.temperature == Attr(llm, "model_temperature")
    ensures r.Success? ==>
      (r.value.guardrails.Some? <==> Truthy(Attr(llm, "guardrail_id")) && Truthy(Attr(llm, "guardrail_version")))
    ensures r.Success? && r.value.guardrails.Some? ==>
      r.value.guardrails.value == Guardrails(Attr(llm, "guardrail_id"), Attr(llm, "guardrail_version"))
  {
    var guardrails :=
      if Truthy(Attr(llm, "guardrail_id")) && Truthy(Attr(llm, "guardrail_version"))
      then Some(Guardrails(Attr(llm, "guardrail_id"), Attr(llm, "guardrail_version")))
      else None;
    match IntOf(Attr(llm, "model_max_tokens"))
    case Failure(e) => Failure(e)
    case Success(n) =>
      Success(ConverseConfig(Attr(llm, "region"), Attr(llm, "model_id"), Attr(llm, "model_temperature"), n, guardrails))
  }

  /** A token limit stored as the decimal text of `n` becomes the integer `n`: the
      string column round-trips through `str`/`int`. */
  lemma MaxTokensRoundTrip(llm: Row, n: int)
    requires Attr(llm, "model_max_tokens") == Str(ShowInt(n))
    ensures BuildConverse(llm).Success? && BuildConverse(llm).value.maxTokens == n
  {
    ParseShowInt(n);
  }

  /** With exactly one of guardrail id and version set, the client gets no guardrail,
      and that alone is no error. */
  lemma HalfGuardrailIgnored(llm: Row)
    requires Truthy(Attr(llm, "guardrail_id")) != Truthy(Attr(llm, "guardrail_version"))
    requires IntOf(Attr(llm, "model_max_tokens")).Success?
    ensures BuildConverse(llm).Success? && BuildConverse(llm).value.guardrails == None
  {
  }

  /** A token limit that is not an integer literal is rejected with Python's message,
      which quotes the text as `repr` does and keeps at most 200 characters of it. */
  lemma MaxTokensNotInteger(llm: Row, s: string)
    requires Attr(llm, "model_max_tokens") == Str(s) && ParseInt(s) == None
    ensures BuildConverse(llm) == Failure("invalid literal for int() with base 10: " + Truncate(StrRepr(s), 200))
  {
  }
}
