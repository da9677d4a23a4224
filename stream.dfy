/**
 * `Streaming.agent_astreaming` and `Streaming.llm_astreaming` (bedrock/stream.py):
 * the text chunks a chat stream yields. The agent's and the model's own streams
 * are foreign calls; each is a scripted sequence of events that may end in an
 * exception.
 */
module Stream {
  import opened Wrappers
  import opened Values
  import opened PyText
  import opened Factory
  import opened Utils

  /** The chunks yielded so far and, if an exception ended the stream, its message. */
  datatype Emit<C> = Emit(chunks: seq<C>, error: Option<string>)

  /** What follows `b` once `a` has run: nothing, if `a` raised. */
  function Then<C>(a: Emit<C>, b: Emit<C>): (r: Emit<C>)
    ensures a.error.Some? ==> r == a
    ensures a.error.None? ==> r.chunks == a.chunks + b.chunks && r.error == b.error
  {
    if a.error.Some? then a else Emit(a.chunks + b.chunks, b.error)
  }

  /** `yield f"\n[Error] {str(e)}"`. */
  function ErrorChunk(message: string): string {
    "\n[Error] " + message
  }

  /** The chunk a stream ends with: the terminator "\n", or the error chunk of the
      exception that ended it. */
  function LastChunk(error: Option<string>): string {
    if error.Some? then ErrorChunk(error.value) else "\n"
  }

  /** The chunks of a plain model stream, then its last chunk. */
  function Finish(e: Emit<string>): (out: seq<string>)
    ensures |out| == |e.chunks| + 1 && out[..|e.chunks|] == e.chunks
    ensures out[|e.chunks|] == if e.error.Some? then ErrorChunk(e.error.value) else "\n"
  {
    e.chunks + [LastChunk(e.error)]
  }

  // ---------------------------------------------------------------------------
  // The agent path

  /** One `(token, metadata)` pair of `agent.astream(...)`: `metadata.get("langgraph_node")`
      and `token.content_blocks or []`. */
  datatype AgentEvent = AgentEvent(node: Value, blocks: seq<Row>)

  /** A scripted agent stream: its events, then the exception it raises, if any. */
  datatype AgentScript = AgentScript(events: seq<AgentEvent>, failure: Option<string>)

  /** The six bytes `bytes.strip()` removes: space, `\t`, `\n`, `\v`, `\f` and `\r`. */
  predicate IsSpaceByte(b: bv8) {
    b == 0x20 || (0x09 <= b <= 0x0d)
  }

  /** A chunk the agent path yields is the block's text itself, a `str` or a `bytes`
      object; it is blank when `strip()` leaves it empty (`StripEmptyIffAllSpace`
      for `str`). */
  predicate Blank(v: Value) {
    match v
    case Str(t) => AllSpace(t)
    case Bytes(bs) => forall k | 0 <= k < |bs| :: IsSpaceByte(bs[k])
    case _ => false
  }

  /** What one content block yields: its text when the block is a text block whose
      text is a non-blank `str` or `bytes`, nothing otherwise; `text.strip()` raises
      on a text of any other type. */
  function BlockEmit(b: Row): (e: Emit<Value>)
    ensures e.chunks == [] || (|e.chunks| == 1 && e.error.None? && !Blank(e.chunks[0]))
    ensures e.chunks != [] ==> e.chunks[0].Str? || e.chunks[0].Bytes?
    ensures e.error.Some? ==> Attr(b, "type") == Str("text") && !Attr(b, "text").Str? && !Attr(b, "text").Bytes?
  {
    if Attr(b, "type") != Str("text") then Emit([], None)
    else
      var text := if "text" in b then b["text"] else Str("");
      if text.Str? || text.Bytes? then
        if !Blank(text) then Emit([text], None) else Emit([], None)
      else Emit([], Some(NoStrip(text)))
  }

  /** The message of the `AttributeError` that `v.strip()` raises on a value that is
      neither a `str` nor a `bytes` object. */
  function NoStrip(v: Value): string {
    "'" + TypeName(v) + "' object has no attribute 'strip'"
  }

  function BlocksEmit(bs: seq<Row>): Emit<Value> {
    if bs == [] then Emit([], None) else Then(BlocksEmit(bs[..|bs| - 1]), BlockEmit(bs[|bs| - 1]))
  }

  /** Only events of the "model" node yield anything. */
  function EventEmit(ev: AgentEvent): Emit<Value> {
    if ev.node == Str("model") then BlocksEmit(ev.blocks) else Emit([], None)
  }

  function EventsEmit(evs: seq<AgentEvent>): Emit<Value> {
    if evs == [] then Emit([], None) else Then(EventsEmit(evs[..|evs| - 1]), EventEmit(evs[|evs| - 1]))
  }

  /** The agent's events, then its own exception if it raises one. */
  function AgentRun(script: AgentScript): Emit<Value> {
    Then(EventsEmit(script.events), Emit([], script.failure))
  }

  /** `Agent {agent_name} with model {model_name} not found.` */
  function AgentNotFound(agentName: string, modelName: string): string {
    "Agent " + agentName + " with model " + modelName + " not found."
  }

  /** The chunks of `agent_astreaming`, given what the call to the agent factory gave:
      an agent (truthy or not) or the message of the exception it raised. The
      forwarded texts are yielded as they are, `str` or `bytes`; the chunks the
      stream writes itself are strings. */
  function AgentStream(agentName: string, modelName: string, agent: Result<bool, string>, script: AgentScript): seq<Value> {
    match agent
    case Failure(e) => [Str(ErrorChunk(e))]
    case Success(truthy) =>
      if truthy then
        var run := AgentRun(script);
        run.chunks + [Str(LastChunk(run.error))]
      else [Str(AgentNotFound(agentName, modelName))]
  }

  /** `agent_astreaming`. */
  method AgentAstreaming(agentName: string, modelName: string, agent: Result<bool, string>, script: AgentScript)
    returns (out: seq<Value>)
    ensures out == AgentStream(agentName, modelName, agent, script)
  {
    if agent.Failure? {
      return [Str(ErrorChunk(agent.error))];
    }
    if !agent.value {
      return [Str(AgentNotFound(agentName, modelName))];
    }
    out := [];
    var error: Option<string> := None;
    var evs := script.events;
    var i := 0;
    while i < |evs| && error.None?
      invariant 0 <= i <= |evs|
      invariant Emit(out, error) == EventsEmit(evs[..i])
    {
      assert evs[..i + 1][..i] == evs[..i];
      var ev := evs[i];
      if ev.node == Str("model") {
        var chunks, raised := ForwardBlocks(ev.blocks);
        out := out + chunks;
        error := raised;
      }
      i := i + 1;
    }
    EventsEmitStops(evs, i);
    assert evs[..|evs|] == evs;
    if error.None? && script.failure.Some? {
      error := script.failure;
    }
    out := out + [Str(if error.Some? then ErrorChunk(error.value) else "\n")];
  }

  /** The inner loop of `agent_astreaming`: the texts of one token's content blocks. */
  method ForwardBlocks(blocks: seq<Row>) returns (chunks: seq<Value>, error: Option<string>)
    ensures Emit(chunks, error) == BlocksEmit(blocks)
  {
    chunks := [];
    error := None;
    var j := 0;
    while j < |blocks| && error.None?
      invariant 0 <= j <= |blocks|
      invariant Emit(chunks, error) == BlocksEmit(blocks[..j])
    {
      BlocksEmitStep(blocks, j);
      var block := blocks[j];
      if Attr(block, "type") == Str("text") {
        var text := if "text" in block then block["text"] else Str("");
        if text.Str? {
          StripEmptyIffAllSpace(text.s);
          if Strip(text.s) != "" {
            chunks := chunks + [text];
          }
        } else if text.Bytes? {
          if exists k | 0 <= k < |text.octets| :: !IsSpaceByte(text.octets[k]) {
            chunks := chunks + [text];
          }
        } else {
          error := Some(NoStrip(text));
        }
      }
      j := j + 1;
    }
    BlocksEmitStops(blocks, j);
  }

  lemma BlocksEmitStep(bs: seq<Row>, j: nat)
    requires j < |bs|
    ensures BlocksEmit(bs[..j + 1]) == Then(BlocksEmit(bs[..j]), BlockEmit(bs[j]))
  {
    assert bs[..j + 1][..j] == bs[..j];
  }

  /** Once a block raised, the later blocks change nothing. */
  lemma {:induction false} BlocksEmitStops(bs: seq<Row>, j: nat)
    requires j <= |bs|
    requires j < |bs| ==> BlocksEmit(bs[..j]).error.Some?
    ensures BlocksEmit(bs) == BlocksEmit(bs[..j])
    decreases |bs| - j
  {
    if j < |bs| {
      assert bs[..j + 1][..j] == bs[..j];
      BlocksEmitStops(bs, j + 1);
    } else {
      assert bs[..j] == bs;
    }
  }

  /** Once an event raised, the later events change nothing. */
  lemma {:induction false} EventsEmitStops(evs: seq<AgentEvent>, i: nat)
    requires i <= |evs|
    requires i < |evs| ==> EventsEmit(evs[..i]).error.Some?
    ensures EventsEmit(evs) == EventsEmit(evs[..i])
    decreases |evs| - i
  {
    if i < |evs| {
      assert evs[..i + 1][..i] == evs[..i];
      EventsEmitStops(evs, i + 1);
    } else {
      assert evs[..i] == evs;
    }
  }

  /** What the factory call gives as written: `agent(agent_name=..., model_name=...)`
      binds a keyword `AgentFactory.agent` does not take, so the call raises
      `TypeError` before any lookup. */
  function AgentCallAsWritten(agentName: string, modelName: string): Result<bool, string> {
    Failure("AgentFactory.agent() got an unexpected keyword argument 'agent_name'")
  }

  /** The call as evidently intended, `agent(model_name=model_name)`: an assembled
      agent, which is truthy, or the factory's exception. */
  function AgentCallCorrected(modelName: string, llms: seq<Row>, tools: seq<Row>,
                              agentFor: int -> Option<Row>, nameOf: ToolClass -> string): (r: Result<bool, string>)
    requires forall j | 0 <= j < |llms| :: Attr(llms[j], "id").Int?
    ensures r.Success? <==> AgentOutcome(Some(modelName), llms, tools, agentFor, nameOf).Success?
    ensures r.Success? ==> r.value
    ensures r.Failure? ==> r.error == AgentOutcome(Some(modelName), llms, tools, agentFor, nameOf).error
  {
    match AgentOutcome(Some(modelName), llms, tools, agentFor, nameOf)
    case Failure(e) => Failure(e)
    case Success(_) => Success(true)
  }

  /** As written, every agent stream is the one error chunk of that `TypeError`,
      whatever the agent would have produced. */
  lemma AgentStreamAsWritten(agentName: string, modelName: string, script: AgentScript)
    ensures AgentStream(agentName, modelName, AgentCallAsWritten(agentName, modelName), script)
      == [Str(ErrorChunk("AgentFactory.agent() got an unexpected keyword argument 'agent_name'"))]
  {
  }

  /** With the call corrected, the stream is the agent's output when the factory
      assembles an agent and the factory's error otherwise; the "not found" chunk
      never appears, since an assembled agent is always truthy. */
  lemma AgentStreamCorrected(agentName: string, modelName: string, llms: seq<Row>, tools: seq<Row>,
                             agentFor: int -> Option<Row>, nameOf: ToolClass -> string, script: AgentScript)
    requires forall j | 0 <= j < |llms| :: Attr(llms[j], "id").Int?
    ensures var out := AgentStream(agentName, modelName, AgentCallCorrected(modelName, llms, tools, agentFor, nameOf), script);
      && out != [Str(AgentNotFound(agentName, modelName))]
      && (AgentOutcome(Some(modelName), llms, tools, agentFor, nameOf).Success? ==>
            out == AgentRun(script).chunks + [Str(LastChunk(AgentRun(script).error))])
      && (AgentOutcome(Some(modelName), llms, tools, agentFor, nameOf).Failure? ==>
            out == [Str(ErrorChunk(AgentOutcome(Some(modelName), llms, tools, agentFor, nameOf).error))])
  {
    var call := AgentCallCorrected(modelName, llms, tools, agentFor, nameOf);
    var out := AgentStream(agentName, modelName, call, script);
    var last := out[|out| - 1];
    assert last.s[0] == '\n';
    assert AgentNotFound(agentName, modelName)[0] == 'A';
  }

  /** The "not found" text is not blank. */
  lemma NotFoundNotBlank(agentName: string, modelName: string)
    ensures !Blank(Str(AgentNotFound(agentName, modelName)))
  {
    var s := AgentNotFound(agentName, modelName);
    assert !IsSpace(s[0]);
  }

  // ---------------------------------------------------------------------------
  // Properties of the agent path

  /** No chunk is blank in Python's `not text.strip()` sense. */
  predicate NoneBlank(cs: seq<Value>) {
    forall k | 0 <= k < |cs| :: !Blank(cs[k])
  }

  lemma NoneBlankAppend(a: seq<Value>, b: seq<Value>)
    requires NoneBlank(a) && NoneBlank(b)
    ensures NoneBlank(a + b)
  {
    forall k | 0 <= k < |a + b| ensures !Blank((a + b)[k]) {
      if k < |a| {
        assert (a + b)[k] == a[k];
      } else {
        assert (a + b)[k] == b[k - |a|];
      }
    }
  }

  /** Every chunk the agent path forwards is a non-blank `str` or `bytes`. */
  lemma {:induction false} BlocksChunks(bs: seq<Row>)
    ensures NoneBlank(BlocksEmit(bs).chunks)
  {
    if bs != [] {
      var init := BlocksEmit(bs[..|bs| - 1]);
      var last := BlockEmit(bs[|bs| - 1]);
      BlocksChunks(bs[..|bs| - 1]);
      if init.error.None? {
        assert NoneBlank(last.chunks) by {
          if last.chunks != [] {
            assert !Blank(last.chunks[0]);
          }
        }
        NoneBlankAppend(init.chunks, last.chunks);
      }
    }
  }

  lemma {:induction false} EventsChunks(evs: seq<AgentEvent>)
    ensures NoneBlank(EventsEmit(evs).chunks)
  {
    if evs != [] {
      var init := EventsEmit(evs[..|evs| - 1]);
      var last := EventEmit(evs[|evs| - 1]);
      EventsChunks(evs[..|evs| - 1]);
      BlocksChunks(evs[|evs| - 1].blocks);
      if init.error.None? {
        NoneBlankAppend(init.chunks, last.chunks);
      }
    }
  }

  lemma AgentRunChunks(script: AgentScript)
    ensures NoneBlank(AgentRun(script).chunks)
  {
    EventsChunks(script.events);
    NoneBlankAppend(EventsEmit(script.events).chunks, []);
  }

  /** With an agent, the stream is the forwarded texts followed by exactly one last
      chunk: "\n" when nothing raised, the error chunk otherwise. No forwarded text
      is blank, so "\n" occurs only as that last chunk. */
  lemma AgentStreamEnds(agentName: string, modelName: string, script: AgentScript)
    ensures var out := AgentStream(agentName, modelName, Success(true), script);
      var run := AgentRun(script);
      && |out| >= 1 && out[..|out| - 1] == run.chunks
      && (forall k | 0 <= k < |out| - 1 :: !Blank(out[k]) && out[k] != Str("\n"))
      && (run.error.None? ==> out[|out| - 1] == Str("\n"))
      && (run.error.Some? ==> out[|out| - 1] == Str(ErrorChunk(run.error.value)))
  {
    AgentRunChunks(script);
    var run := AgentRun(script);
    var out := AgentStream(agentName, modelName, Success(true), script);
    assert Blank(Str("\n"));
    forall k | 0 <= k < |out| - 1 ensures !Blank(out[k]) && out[k] != Str("\n") {
      assert out[k] == run.chunks[k];
    }
    assert out[..|out| - 1] == run.chunks;
  }

  /** A falsy agent gives the one "not found" chunk and no terminator. */
  lemma AgentStreamNotFound(agentName: string, modelName: string, script: AgentScript)
    ensures AgentStream(agentName, modelName, Success(false), script)
      == [Str("Agent " + agentName + " with model " + modelName + " not found.")]
  {
  }

  /** Chunks keep the order the agent produced them in: the events' output
      distributes over concatenation. */
  lemma {:induction false} EventsEmitAppend(a: seq<AgentEvent>, b: seq<AgentEvent>)
    ensures EventsEmit(a + b) == Then(EventsEmit(a), EventsEmit(b))
    decreases |b|
  {
    if b == [] {
      assert a + b == a;
    } else {
      var b' := b[..|b| - 1];
      assert (a + b)[..|a + b| - 1] == a + b';
      EventsEmitAppend(a, b');
    }
  }

  /** Without an exception, a value is forwarded iff it is the text of a text block,
      a `str` or `bytes` that is not blank. */
  lemma {:induction false} BlocksForwarded(bs: seq<Row>, t: Value)
    requires BlocksEmit(bs).error.None?
    ensures t in BlocksEmit(bs).chunks <==>
      && (t.Str? || t.Bytes?) && !Blank(t)
      && exists k | 0 <= k < |bs| :: Attr(bs[k], "type") == Str("text") && Attr(bs[k], "text") == t
  {
    if bs != [] {
      var init := bs[..|bs| - 1];
      var last := bs[|bs| - 1];
      assert BlocksEmit(init).error.None?;
      BlocksForwarded(init, t);
      if exists k | 0 <= k < |bs| :: Attr(bs[k], "type") == Str("text") && Attr(bs[k], "text") == t {
        var k :| 0 <= k < |bs| && Attr(bs[k], "type") == Str("text") && Attr(bs[k], "text") == t;
        if k < |bs| - 1 {
          assert init[k] == bs[k];
        }
      }
      if exists k | 0 <= k < |init| :: Attr(init[k], "type") == Str("text") && Attr(init[k], "text") == t {
        var k :| 0 <= k < |init| && Attr(init[k], "type") == Str("text") && Attr(init[k], "text") == t;
        assert bs[k] == init[k];
      }
    }
  }

  /** An exception from the agent ends the stream with its error chunk after
      everything forwarded before it. */
  lemma AgentFailureLast(agentName: string, modelName: string, script: AgentScript, e: string)
    requires script.failure == Some(e) && EventsEmit(script.events).error.None?
    ensures AgentStream(agentName, modelName, Success(true), script)
      == EventsEmit(script.events).chunks + [Str("\n[Error] " + e)]
  {
  }

  // ---------------------------------------------------------------------------
  // The plain model path

  /** The LangChain messages the model is given. */
  datatype LcMessage = SystemMessage(content: string) | HumanMessage(content: string) | AIMessage(content: string)

  /** A scripted model stream: the `chunk.text` values, then the exception it raises,
      if any. */
  datatype TextScript = TextScript(chunks: seq<string>, failure: Option<string>)

  /** The role translation; any other role adds no message. */
  function RoleMessage(role: string, text: string): (m: Option<LcMessage>)
    ensures m.Some? <==> role in {"user", "assistant", "system"}
  {
    if role == "user" then Some(HumanMessage(text))
    else if role == "assistant" then Some(AIMessage(text))
    else if role == "system" then Some(SystemMessage(text))
    else None
  }

  /** `[part.get("text", "") for part in content if part.get("type") == "text"]`. */
  function TextParts(content: seq<Row>): (parts: seq<Value>)
    ensures |parts| <= |content|
  {
    if content == [] then []
    else
      var init := TextParts(content[..|content| - 1]);
      var part := content[|content| - 1];
      if Attr(part, "type") == Str("text") then init + [if "text" in part then part["text"] else Str("")] else init
  }

  /** `"\n".join(parts)`, with the `TypeError` it raises on an item that is not a string. */
  function JoinLines(parts: seq<Value>): (r: Result<string, string>)
    ensures r.Success? <==> forall k | 0 <= k < |parts| :: parts[k].Str?
  {
    JoinFrom(parts, 0)
  }

  function JoinFrom(parts: seq<Value>, k: nat): (r: Result<string, string>)
    requires k <= |parts|
    ensures r.Success? <==> forall j | k <= j < |parts| :: parts[j].Str?
    decreases |parts| - k
  {
    if k == |parts| then Success("")
    else if !parts[k].Str? then
      Failure("sequence item " + ShowInt(k) + ": expected str instance, " + TypeName(parts[k]) + " found")
    else
      match JoinFrom(parts, k + 1)
      case Failure(e) => Failure(e)
      case Success(rest) => Success(if k + 1 == |parts| then parts[k].s else parts[k].s + "\n" + rest)
  }

  /** The LangChain message of one formatted message, if its role has one. */
  function MessageOf(m: Formatted): Result<Option<LcMessage>, string> {
    match JoinLines(TextParts(m.content))
    case Failure(e) => Failure(e)
    case Success(text) => Success(RoleMessage(m.role, text))
  }

  /** The translations of the request's messages, in order. */
  function Translated(ms: seq<Formatted>): Result<seq<LcMessage>, string> {
    if ms == [] then Success([])
    else
      match Translated(ms[..|ms| - 1])
      case Failure(e) => Failure(e)
      case Success(init) =>
        match MessageOf(ms[|ms| - 1])
        case Failure(e) => Failure(e)
        case Success(m) => Success(if m.Some? then init + [m.value] else init)
  }

  /** The list the model is given: the system prompt, then the translations. */
  function LcMessages(prompt: string, ms: seq<Formatted>): Result<seq<LcMessage>, string> {
    match Translated(ms)
    case Failure(e) => Failure(e)
    case Success(t) => Success([SystemMessage(prompt)] + t)
  }

  /** `Model {model_name} not found.` */
  function ModelNotFound(modelName: string): string {
    "Model " + modelName + " not found."
  }

  /** The chunks of `llm_astreaming`: the model comes from `LLMFactory.llm`, given
      what the Claude constructor does (`claude`), the system prompt is the loaded
      LLM prompt and `respond` is the model's stream for the messages it is given. */
  function LlmStream(modelName: string, claude: Result<bool, string>, prompt: string, ms: seq<Formatted>,
                     respond: seq<LcMessage> -> TextScript): seq<string> {
    match LlmFactoryLlm(Some(modelName), claude)
    case Failure(e) => [ErrorChunk(e)]
    case Success(llm) =>
      if !llm then [ModelNotFound(modelName)]
      else
        match LcMessages(prompt, ms)
        case Failure(e) => [ErrorChunk(e)]
        case Success(lc) =>
          var s := respond(lc);
          Finish(Emit(s.chunks, s.failure))
  }

  /** `llm_astreaming`. */
  method LlmAstreaming(modelName: string, claude: Result<bool, string>, prompt: string, messages: seq<Formatted>,
                       respond: seq<LcMessage> -> TextScript) returns (out: seq<string>)
    ensures out == LlmStream(modelName, claude, prompt, messages, respond)
  {
    var llm := LlmFactoryLlm(Some(modelName), claude);
    if llm.Failure? {
      return [ErrorChunk(llm.error)];
    }
    if !llm.value {
      return [ModelNotFound(modelName)];
    }
    var lcMessages := BuildLcMessages(prompt, messages);
    if lcMessages.Failure? {
      return [ErrorChunk(lcMessages.error)];
    }
    var script := respond(lcMessages.value);
    out := ForwardText(script);
  }

  /** The loop of `llm_astreaming` that builds the model's message list: the system
      prompt, then each message's translation, or the error of the first message
      whose text cannot be joined. */
  method BuildLcMessages(prompt: string, messages: seq<Formatted>) returns (r: Result<seq<LcMessage>, string>)
    ensures r == LcMessages(prompt, messages)
  {
    var lcMessages := [SystemMessage(prompt)];
    assert messages[..0] == [] && [SystemMessage(prompt)] + [] == lcMessages;
    for i := 0 to |messages|
      invariant LcMessages(prompt, messages[..i]) == Success(lcMessages)
    {
      LcMessagesNext(prompt, messages, i);
      var msg := messages[i];
      var text := JoinLines(TextParts(msg.content));
      if text.Failure? {
        TranslatedStops(messages, i + 1);
        assert messages[..|messages|] == messages;
        return Failure(text.error);
      }
      if msg.role == "user" {
        lcMessages := lcMessages + [HumanMessage(text.value)];
      } else if msg.role == "assistant" {
        lcMessages := lcMessages + [AIMessage(text.value)];
      } else if msg.role == "system" {
        lcMessages := lcMessages + [SystemMessage(text.value)];
      }
    }
    assert messages[..|messages|] == messages;
    r := Success(lcMessages);
  }

  /** The loop of `llm_astreaming` that forwards the model's chunks, then "\n", or the
      error chunk of the exception that ended the stream. */
  method ForwardText(script: TextScript) returns (out: seq<string>)
    ensures out == Finish(Emit(script.chunks, script.failure))
  {
    out := [];
    for k := 0 to |script.chunks|
      invariant out == script.chunks[..k]
    {
      assert script.chunks[..k + 1] == script.chunks[..k] + [script.chunks[k]];
      out := out + [script.chunks[k]];
    }
    assert script.chunks[..|script.chunks|] == script.chunks;
    out := out + [if script.failure.Some? then ErrorChunk(script.failure.value) else "\n"];
  }

  /** One more message extends the model's message list by its translation, or
      stops it. */
  lemma LcMessagesNext(prompt: string, ms: seq<Formatted>, i: nat)
    requires i < |ms| && LcMessages(prompt, ms[..i]).Success?
    ensures LcMessages(prompt, ms[..i + 1]) ==
      match MessageOf(ms[i])
      case Failure(e) => Failure(e)
      case Success(m) => Success(if m.Some? then LcMessages(prompt, ms[..i]).value + [m.value] else LcMessages(prompt, ms[..i]).value)
  {
    TranslatedNext(ms, i);
    if MessageOf(ms[i]).Success? && MessageOf(ms[i]).value.Some? {
      var init := Translated(ms[..i]).value;
      assert [SystemMessage(prompt)] + (init + [MessageOf(ms[i]).value.value])
          == ([SystemMessage(prompt)] + init) + [MessageOf(ms[i]).value.value];
    }
  }

  /** One more message extends the translations by its own, or stops them. */
  lemma TranslatedNext(ms: seq<Formatted>, i: nat)
    requires i < |ms| && Translated(ms[..i]).Success?
    ensures Translated(ms[..i + 1]) ==
      match MessageOf(ms[i])
      case Failure(e) => Failure(e)
      case Success(m) => Success(if m.Some? then Translated(ms[..i]).value + [m.value] else Translated(ms[..i]).value)
  {
    var prefix := ms[..i + 1];
    assert prefix[..|prefix| - 1] == ms[..i];
    assert prefix[|prefix| - 1] == ms[i];
  }

  /** A message whose text cannot be joined ends the building of the list. */
  lemma {:induction false} TranslatedStops(ms: seq<Formatted>, i: nat)
    requires i <= |ms|
    requires Translated(ms[..i]).Failure?
    ensures Translated(ms) == Translated(ms[..i])
    decreases |ms| - i
  {
    if i < |ms| {
      assert ms[..i + 1][..i] == ms[..i];
      TranslatedStops(ms, i + 1);
    } else {
      assert ms[..i] == ms;
    }
  }

  // ---------------------------------------------------------------------------
  // Properties of the plain path

  /** Translation distributes over concatenation: the messages keep their input
      order, and a message's translation does not depend on its neighbours. */
  lemma {:induction false} TranslatedAppend(a: seq<Formatted>, b: seq<Formatted>)
    requires Translated(a + b).Success?
    ensures Translated(a).Success? && Translated(b).Success?
    ensures Translated(a + b).value == Translated(a).value + Translated(b).value
    decreases |b|
  {
    if b == [] {
      assert a + b == a;
    } else {
      var b' := b[..|b| - 1];
      assert (a + b)[..|a + b| - 1] == a + b';
      assert (a + b)[|a + b| - 1] == b[|b| - 1];
      TranslatedAppend(a, b');
      var t := Translated(a + b').value;
      assert t == Translated(a).value + Translated(b').value;
      match MessageOf(b[|b| - 1])
      case Success(m) =>
        if m.Some? {
          assert Translated(a + b).value == t + [m.value];
          assert Translated(b).value == Translated(b').value + [m.value];
        }
    }
  }

  /** The list starts with the system prompt and holds one message per message with
      a known role. */
  lemma LcMessagesShape(prompt: string, ms: seq<Formatted>)
    requires LcMessages(prompt, ms).Success?
    ensures |LcMessages(prompt, ms).value| >= 1 && LcMessages(prompt, ms).value[0] == SystemMessage(prompt)
    ensures |LcMessages(prompt, ms).value| == 1 + |KnownRoles(ms)|
  {
    TranslatedCount(ms);
  }

  lemma {:induction false} TranslatedCount(ms: seq<Formatted>)
    requires Translated(ms).Success?
    ensures |Translated(ms).value| == |KnownRoles(ms)|
  {
    if ms != [] {
      TranslatedCount(ms[..|ms| - 1]);
    }
  }

  /** The messages whose role is translated. */
  function KnownRoles(ms: seq<Formatted>): seq<Formatted> {
    if ms == [] then []
    else
      var init := KnownRoles(ms[..|ms| - 1]);
      if ms[|ms| - 1].role in {"user", "assistant", "system"} then init + [ms[|ms| - 1]] else init
  }

  /** One user message with plain text becomes the prompt and one human message. */
  lemma OneUserMessage(prompt: string, s: string)
    ensures LcMessages(prompt, [Formatted("user", [TextBlock(s)])]) == Success([SystemMessage(prompt), HumanMessage(s)])
  {
    var ms := [Formatted("user", [TextBlock(s)])];
    assert ms[..0] == [];
    TextPartsOne(s);
    assert JoinFrom([Str(s)], 1) == Success("");
    assert JoinLines([Str(s)]) == Success(s);
    assert MessageOf(ms[0]) == Success(Some(HumanMessage(s)));
    assert Translated(ms[..0]) == Success([]);
    var one: seq<LcMessage> := [HumanMessage(s)];
    assert [] + one == one;
    assert Translated(ms) == Success(one);
    assert [SystemMessage(prompt)] + one == [SystemMessage(prompt), HumanMessage(s)];
  }

  /** The text parts of formatted messages are always strings, so building the list
      from what `format_agent_messages` returns never raises. */
  lemma {:induction false} FormattedMessagesBuild(msgs: seq<ChatMessage>, b64: Base64Decoder)
    ensures Translated(FormatAll(msgs, b64)).Success?
    decreases |msgs|
  {
    if msgs != [] {
      var ms := FormatAll(msgs, b64);
      var init := msgs[..|msgs| - 1];
      assert ms[..|ms| - 1] == FormatAll(init, b64);
      FormattedMessagesBuild(init, b64);
      FormattedTextParts(msgs[|msgs| - 1], b64);
    }
  }

  lemma FormattedTextParts(m: ChatMessage, b64: Base64Decoder)
    ensures forall k | 0 <= k < |TextParts(FormatMessage(m, b64).content)| :: TextParts(FormatMessage(m, b64).content)[k].Str?
  {
    match m.content
    case Text(s) =>
      TextPartsOne(Strip(s));
    case Blocks(bs) =>
      KeptTextParts(bs, b64);
  }

  /** The text parts of a lone text block: its text. */
  lemma TextPartsOne(t: string)
    ensures TextParts([TextBlock(t)]) == [Str(t)]
  {
    var c := [TextBlock(t)];
    assert c[..0] == [];
    assert TextParts(c[..0]) == [];
  }

  lemma {:induction false} KeptTextParts(bs: seq<ContentBlock>, b64: Base64Decoder)
    ensures forall k | 0 <= k < |TextParts(KeptBlocks(bs, b64))| :: TextParts(KeptBlocks(bs, b64))[k].Str?
  {
    if bs != [] {
      var init := bs[..|bs| - 1];
      KeptTextParts(init, b64);
      var kept := KeptBlocks(bs, b64);
      var last := FormatBlock(bs[|bs| - 1], b64);
      if last.Some? {
        assert kept[..|kept| - 1] == KeptBlocks(init, b64);
        var d := BlockDict(bs[|bs| - 1]);
        assert "text" in last.value ==> last.value["text"].Str?;
      }
    }
  }

  /** When the Claude constructor returns a model, a stream that ends without an
      exception forwards every model chunk unchanged and in order, then "\n"; one
      that raises forwards the chunks before the exception, then its error chunk. */
  lemma LlmStreamForwards(modelName: string, prompt: string, ms: seq<Formatted>,
                          respond: seq<LcMessage> -> TextScript)
    requires Lower(modelName) == "claude"
    requires LcMessages(prompt, ms).Success?
    ensures var s := respond(LcMessages(prompt, ms).value);
      var out := LlmStream(modelName, Success(true), prompt, ms, respond);
      && |out| == |s.chunks| + 1 && out[..|s.chunks|] == s.chunks
      && out[|s.chunks|] == (if s.failure.Some? then "\n[Error] " + s.failure.value else "\n")
  {
  }

  /** As written, "claude" in any letter case streams the one error chunk of the
      missing `claude_model_text`, whatever the messages and the model would give. */
  lemma LlmStreamClaudeAsWritten(modelName: string, prompt: string, ms: seq<Formatted>,
                                 respond: seq<LcMessage> -> TextScript)
    requires Lower(modelName) == "claude"
    ensures LlmStream(modelName, ClaudeModelTextAsWritten, prompt, ms, respond)
      == [ErrorChunk("'Converse' object has no attribute 'claude_model_text'")]
  {
  }

  /** "llama" and "gpt-oss", in any letter case, give the one "not found" chunk, and
      so does "claude" when its constructor returns None; a constructor that raises
      gives its error chunk; any other name than those three gives the factory's
      error chunk. */
  lemma LlmStreamNoModel(modelName: string, claude: Result<bool, string>, prompt: string, ms: seq<Formatted>,
                         respond: seq<LcMessage> -> TextScript)
    ensures Lower(modelName) in {"llama", "gpt-oss"} ==>
      LlmStream(modelName, claude, prompt, ms, respond) == ["Model " + modelName + " not found."]
    ensures Lower(modelName) == "claude" && claude == Success(false) ==>
      LlmStream(modelName, claude, prompt, ms, respond) == ["Model " + modelName + " not found."]
    ensures Lower(modelName) == "claude" && claude.Failure? ==>
      LlmStream(modelName, claude, prompt, ms, respond) == ["\n[Error] " + claude.error]
    ensures Lower(modelName) !in {"claude", "llama", "gpt-oss"} ==>
      LlmStream(modelName, claude, prompt, ms, respond) == [ErrorChunk("[Agent] Unsupported model: " + Lower(modelName))]
  {
  }
}
