/**
 * `bedrock/factory.py`: the static tool table, the list of enabled tool classes,
 * the assembly of an agent for a model name and the plain-model dispatch.
 *
 * The database is passed in as the committed records of `llms` and `tools`; the
 * lookup of an agent by LLM id and a tool's `.name` attribute belong to code that
 * is not part of this model and are parameters.
 */
module Factory {
  import opened Wrappers
  import opened Values
  import opened PyText
  import opened Tables
  import opened Crud
  import opened Converse

  /** The tool classes of `TOOL_CLASS_MAP`. */
  datatype ToolClass =
    | DuckDuckGo | Arxiv | Wikipedia | GoogleSearch | GoogleScholar
    | GoogleTrends | AskNews | RedditSearch | SearxSearch | OpenWeather

  /** `TOOL_CLASS_MAP`. */
  function ToolClassMap(): map<string, ToolClass> {
    map[
      "duckduckgo" := DuckDuckGo,
      "arxiv" := Arxiv,
      "wikipedia" := Wikipedia,
      "google_search" := GoogleSearch,
      "google_scholar" := GoogleScholar,
      "google_trends" := GoogleTrends,
      "asknews" := AskNews,
      "reddit" := RedditSearch,
      "searx" := SearxSearch,
      "openweather" := OpenWeather
    ]
  }

  /** `TOOL_CLASS_MAP.get(name)` for a string name. */
  function ToolClassOf(name: string): Option<ToolClass> {
    if name in ToolClassMap() then Some(ToolClassMap()[name]) else None
  }

  /** Every tool class has exactly one name in the table. */
  lemma ToolClassMapOneToOne()
    ensures forall a, b | a in ToolClassMap() && b in ToolClassMap() && a != b :: ToolClassMap()[a] != ToolClassMap()[b]
    ensures forall c: ToolClass :: c in ToolClassMap().Values
  {
    var m := ToolClassMap();
    forall c: ToolClass ensures c in m.Values {
      match c
      case DuckDuckGo => assert m["duckduckgo"] == c;
      case Arxiv => assert m["arxiv"] == c;
      case Wikipedia => assert m["wikipedia"] == c;
      case GoogleSearch => assert m["google_search"] == c;
      case GoogleScholar => assert m["google_scholar"] == c;
      case GoogleTrends => assert m["google_trends"] == c;
      case AskNews => assert m["asknews"] == c;
      case RedditSearch => assert m["reddit"] == c;
      case SearxSearch => assert m["searx"] == c;
      case OpenWeather => assert m["openweather"] == c;
    }
  }

  /** The class a tool record's name maps to; a name that is not a key maps to
      nothing. */
  function RecordClass(t: Row): Option<ToolClass> {
    match Attr(t, "name")
    case Str(n) => ToolClassOf(n)
    case _ => None
  }

  // ---------------------------------------------------------------------------
  // get_enabled_tools

  /** The classes of the given tool records, in record order, records whose name is
      not a key of the table dropped. */
  function MappedTools(ts: seq<Row>): (out: seq<ToolClass>)
    ensures |out| <= |ts|
  {
    if ts == [] then []
    else
      var init := MappedTools(ts[..|ts| - 1]);
      match RecordClass(ts[|ts| - 1])
      case Some(c) => init + [c]
      case None => init
  }

  /** Mapping distributes over concatenation: the classes keep the record order. */
  lemma {:induction false} MappedToolsAppend(a: seq<Row>, b: seq<Row>)
    ensures MappedTools(a + b) == MappedTools(a) + MappedTools(b)
    decreases |b|
  {
    if b == [] {
      assert a + b == a;
    } else {
      assert (a + b)[..|a + b| - 1] == a + b[..|b| - 1];
      assert (a + b)[|a + b| - 1] == b[|b| - 1];
      MappedToolsAppend(a, b[..|b| - 1]);
    }
  }

  /** A class is in the list iff some record's name maps to it; an unmapped name
      never contributes anything and is no error. */
  lemma {:induction false} MappedToolsMembers(ts: seq<Row>, c: ToolClass)
    ensures c in MappedTools(ts) <==> exists j | 0 <= j < |ts| :: RecordClass(ts[j]) == Some(c)
  {
    if ts != [] {
      var init := ts[..|ts| - 1];
      MappedToolsMembers(init, c);
      assert forall j | 0 <= j < |init| :: init[j] == ts[j];
    }
  }

  /** `AgentFactory.get_enabled_tools`: the classes of the enabled tool records. */
  method GetEnabledTools(tools: seq<Row>) returns (out: seq<ToolClass>)
    ensures out == MappedTools(GetEnabled(tools))
  {
    var dbTools := GetEnabled(tools);
    out := [];
    var i := 0;
    while i < |dbTools|
      invariant 0 <= i <= |dbTools|
      invariant out == MappedTools(dbTools[..i])
    {
      assert dbTools[..i + 1][..i] == dbTools[..i];
      var cls := RecordClass(dbTools[i]);
      if cls.Some? {
        out := out + [cls.value];
      }
      i := i + 1;
    }
    assert dbTools[..|dbTools|] == dbTools;
  }

  /** The enabled classes are exactly those of the enabled records whose name is a key
      of the table. */
  lemma EnabledToolsSpec(tools: seq<Row>, c: ToolClass)
    ensures c in MappedTools(GetEnabled(tools)) <==>
      exists j | 0 <= j < |tools| :: Attr(tools[j], "status") == Str("enable") && RecordClass(tools[j]) == Some(c)
  {
    var enabled := GetEnabled(tools);
    MappedToolsMembers(enabled, c);
    if c in MappedTools(enabled) {
      var j :| 0 <= j < |enabled| && RecordClass(enabled[j]) == Some(c);
      assert enabled[j] in enabled;
    }
    if exists j | 0 <= j < |tools| :: Attr(tools[j], "status") == Str("enable") && RecordClass(tools[j]) == Some(c) {
      var j :| 0 <= j < |tools| && Attr(tools[j], "status") == Str("enable") && RecordClass(tools[j]) == Some(c);
      assert tools[j] in enabled;
    }
  }

  // ---------------------------------------------------------------------------
  // The agent's declared tools

  /** `t['name']` for one entry of an agent's `tools`, with the exception raised when
      the entry is not a dict with a name. */
  function EntryName(t: Value): Result<Value, string> {
    match t
    case Dict(m) => if "name" in m then Success(m["name"]) else Failure("'name'")
    case Str(_) => Failure("string indices must be integers, not 'str'")
    case List(_) => Failure("list indices must be integers or slices, not str")
    case Bytes(_) => Failure("byte indices must be integers or slices, not str")
    case _ => Failure("'" + TypeName(t) + "' object is not subscriptable")
  }

  /** `TOOL_CLASS_MAP.get(name)` for any JSON value. */
  function ClassOfName(v: Value): Result<Option<ToolClass>, string> {
    match v
    case Str(n) => Success(ToolClassOf(n))
    case List(_) => Failure("unhashable type: 'list'")
    case Dict(_) => Failure("unhashable type: 'dict'")
    case _ => Success(None)
  }

  /** `[TOOL_CLASS_MAP.get(t['name']) for t in agent.tools]`, evaluated left to right. */
  function DeclaredClasses(tools: Value): (r: Result<seq<Option<ToolClass>>, string>)
    ensures tools.List? && r.Success? ==> |r.value| == |tools.items|
  {
    match tools
    case List(items) => EntriesClasses(items, 0)
    case Str(s) => if s == "" then Success([]) else Failure("string indices must be integers, not 'str'")
    case Dict(m) => if m == map[] then Success([]) else Failure("string indices must be integers, not 'str'")
    case Bytes(bs) => if bs == [] then Success([]) else Failure("'int' object is not subscriptable")
    case _ => Failure("'" + TypeName(tools) + "' object is not iterable")
  }

  function EntriesClasses(items: seq<Value>, i: nat): (r: Result<seq<Option<ToolClass>>, string>)
    requires i <= |items|
    ensures r.Success? ==> |r.value| == |items| - i
    ensures r.Success? ==> forall k | i <= k < |items| ::
      EntryName(items[k]).Success? && ClassOfName(EntryName(items[k]).value) == Success(r.value[k - i])
    decreases |items| - i
  {
    if i == |items| then Success([])
    else
      match EntryName(items[i])
      case Failure(e) => Failure(e)
      case Success(n) =>
        match ClassOfName(n)
        case Failure(e) => Failure(e)
        case Success(c) =>
          match EntriesClasses(items, i + 1)
          case Failure(e) => Failure(e)
          case Success(cs) => Success([c] + cs)
  }

  /** `[tool for tool in declared if tool and tool.name in names]`. */
  function ActiveTools(declared: seq<Option<ToolClass>>, names: set<string>, nameOf: ToolClass -> string): (out: seq<ToolClass>)
    ensures |out| <= |declared|
  {
    if declared == [] then []
    else
      var init := ActiveTools(declared[..|declared| - 1], names, nameOf);
      var last := declared[|declared| - 1];
      if last.Some? && nameOf(last.value) in names then init + [last.value] else init
  }

  /** A tool is active iff the agent declares it and a tool with its name is enabled:
      a declared but disabled tool is never active, nor an enabled but undeclared one. */
  lemma {:induction false} ActiveToolsMembers(declared: seq<Option<ToolClass>>, names: set<string>, nameOf: ToolClass -> string, c: ToolClass)
    ensures c in ActiveTools(declared, names, nameOf) <==> Some(c) in declared && nameOf(c) in names
  {
    if declared != [] {
      var init := declared[..|declared| - 1];
      ActiveToolsMembers(init, names, nameOf, c);
      assert declared == init + [declared[|declared| - 1]];
    }
  }

  /** Filtering distributes over concatenation: declared order and duplicates are kept. */
  lemma {:induction false} ActiveToolsAppend(a: seq<Option<ToolClass>>, b: seq<Option<ToolClass>>, names: set<string>, nameOf: ToolClass -> string)
    ensures ActiveTools(a + b, names, nameOf) == ActiveTools(a, names, nameOf) + ActiveTools(b, names, nameOf)
    decreases |b|
  {
    if b == [] {
      assert a + b == a;
    } else {
      assert (a + b)[..|a + b| - 1] == a + b[..|b| - 1];
      assert (a + b)[|a + b| - 1] == b[|b| - 1];
      ActiveToolsAppend(a, b[..|b| - 1], names, nameOf);
    }
  }

  /** When every declared tool is enabled, the active list is the declared list. */
  lemma {:induction false} AllDeclaredActive(declared: seq<Option<ToolClass>>, names: set<string>, nameOf: ToolClass -> string)
    requires forall k | 0 <= k < |declared| :: declared[k].Some? && nameOf(declared[k].value) in names
    ensures ActiveTools(declared, names, nameOf) == seq(|declared|, k requires 0 <= k < |declared| => declared[k].value)
  {
    if declared != [] {
      AllDeclaredActive(declared[..|declared| - 1], names, nameOf);
    }
  }

  // ---------------------------------------------------------------------------
  // AgentFactory.agent

  /** What `create_agent` is given: the agent's system prompt, its active tools and
      the model client settings. */
  datatype AgentConfig = AgentConfig(systemPrompt: Value, tools: seq<ToolClass>, model: ConverseConfig)

  /** `(model_name or "").lower()`. */
  function NormalName(modelName: Option<string>): string {
    Lower(modelName.GetOr(""))
  }

  /** The normalised name is in lower case: lowering it again changes nothing. */
  lemma NormalNameIsLower(modelName: Option<string>)
    ensures IsLower(NormalName(modelName))
    ensures NormalName(Some(NormalName(modelName))) == NormalName(modelName)
  {
    LowerIsLower(modelName.GetOr(""));
    LowerIdempotent(modelName.GetOr(""));
  }

  /** The outcome of `AgentFactory.agent(model_name)`: the agent configuration, or
      the message of the exception it raises. The LLM is found by its lower-cased
      name, the agent by the LLM's id, with no status or trashed check. */
  function AgentOutcome(modelName: Option<string>, llms: seq<Row>, tools: seq<Row>,
                        agentFor: int -> Option<Row>, nameOf: ToolClass -> string): Result<AgentConfig, string>
    requires forall j | 0 <= j < |llms| :: Attr(llms[j], "id").Int?
  {
    AgentNamed(NormalName(modelName), llms, tools, agentFor, nameOf)
  }

  /** The outcome of `AgentFactory.agent` once the model name is normalised. */
  function AgentNamed(name: string, llms: seq<Row>, tools: seq<Row>,
                      agentFor: int -> Option<Row>, nameOf: ToolClass -> string): Result<AgentConfig, string>
    requires forall j | 0 <= j < |llms| :: Attr(llms[j], "id").Int?
  {
    match GetByName(llms, name)
    case None => Failure("[Agent] LLM not found: " + name)
    case Some(llm) =>
      match BuildConverse(llm)
      case Failure(e) => Failure(e)
      case Success(model) =>
        var enabled := MappedTools(GetEnabled(tools));
        var id := Attr(llm, "id").i;
        match agentFor(id)
        case None => Failure("[Agent] Agent not found: " + ShowInt(id))
        case Some(agent) =>
          match DeclaredClasses(Attr(agent, "tools"))
          case Failure(e) => Failure(e)
          case Success(declared) =>
            var names := set t | t in enabled :: nameOf(t);
            Success(AgentConfig(Attr(agent, "system_prompt"), ActiveTools(declared, names, nameOf), model))
  }

  /** `AgentFactory.agent`. */
  method Agent(modelName: Option<string>, llms: seq<Row>, tools: seq<Row>,
               agentFor: int -> Option<Row>, nameOf: ToolClass -> string) returns (r: Result<AgentConfig, string>)
    requires forall j | 0 <= j < |llms| :: Attr(llms[j], "id").Int?
    ensures r == AgentOutcome(modelName, llms, tools, agentFor, nameOf)
  {
    var name := NormalName(modelName);
    var llm := GetByName(llms, name);
    if llm.None? {
      return Failure("[Agent] LLM not found: " + name);
    }
    var model := BuildConverse(llm.value);
    if model.Failure? {
      return Failure(model.error);
    }
    var systemTools := GetEnabledTools(tools);
    var id := Attr(llm.value, "id").i;
    var agent := agentFor(id);
    if agent.None? {
      return Failure("[Agent] Agent not found: " + ShowInt(id));
    }
    var declared := DeclaredClasses(Attr(agent.value, "tools"));
    if declared.Failure? {
      return Failure(declared.error);
    }
    var names := set t | t in systemTools :: nameOf(t);
    r := Success(AgentConfig(Attr(agent.value, "system_prompt"), ActiveTools(declared.value, names, nameOf), model.value));
  }

  /** The model name is matched case-insensitively, and a missing name is the empty
      name. */
  lemma AgentIgnoresCase(modelName: string, llms: seq<Row>, tools: seq<Row>,
                         agentFor: int -> Option<Row>, nameOf: ToolClass -> string)
    requires forall j | 0 <= j < |llms| :: Attr(llms[j], "id").Int?
    ensures AgentOutcome(Some(modelName), llms, tools, agentFor, nameOf)
         == AgentOutcome(Some(Lower(modelName)), llms, tools, agentFor, nameOf)
    ensures AgentOutcome(None, llms, tools, agentFor, nameOf) == AgentOutcome(Some(""), llms, tools, agentFor, nameOf)
  {
    LowerIdempotent(modelName);
  }

  /** The two lookups fail with their own messages: no LLM record with the lower-cased
      name, or no agent for that LLM's id. */
  lemma AgentNotFoundMessages(modelName: Option<string>, llms: seq<Row>, tools: seq<Row>,
                              agentFor: int -> Option<Row>, nameOf: ToolClass -> string)
    requires forall j | 0 <= j < |llms| :: Attr(llms[j], "id").Int?
    ensures (forall j | 0 <= j < |llms| :: Attr(llms[j], "name") != Str(NormalName(modelName))) ==>
      AgentOutcome(modelName, llms, tools, agentFor, nameOf) == Failure("[Agent] LLM not found: " + NormalName(modelName))
    ensures forall k | 0 <= k < |llms| ::
      (&& Attr(llms[k], "name") == Str(NormalName(modelName))
       && (forall j | 0 <= j < k :: Attr(llms[j], "name") != Str(NormalName(modelName)))
       && BuildConverse(llms[k]).Success?
       && agentFor(Attr(llms[k], "id").i) == None)
      ==> AgentOutcome(modelName, llms, tools, agentFor, nameOf)
          == Failure("[Agent] Agent not found: " + ShowInt(Attr(llms[k], "id").i))
  {
    var name := NormalName(modelName);
    forall k | 0 <= k < |llms| && Attr(llms[k], "name") == Str(name)
      && (forall j | 0 <= j < k :: Attr(llms[j], "name") != Str(name))
      ensures FirstWhere(llms, "name", Str(name)) == Some(k)
    {
      var f := FirstWhere(llms, "name", Str(name));
      assert f.Some?;
    }
  }

  /** The tools an assembled agent gets are exactly its declared tools whose name is
      among the names of the enabled tool classes, in declared order. */
  lemma AgentToolsSpec(modelName: Option<string>, llms: seq<Row>, tools: seq<Row>,
                       agentFor: int -> Option<Row>, nameOf: ToolClass -> string, c: ToolClass)
    requires forall j | 0 <= j < |llms| :: Attr(llms[j], "id").Int?
    requires AgentOutcome(modelName, llms, tools, agentFor, nameOf).Success?
    ensures var llm := GetByName(llms, NormalName(modelName)).value;
      var agent := agentFor(Attr(llm, "id").i).value;
      && DeclaredClasses(Attr(agent, "tools")).Success?
      && (c in AgentOutcome(modelName, llms, tools, agentFor, nameOf).value.tools <==>
          && Some(c) in DeclaredClasses(Attr(agent, "tools")).value
          && exists e | e in MappedTools(GetEnabled(tools)) :: nameOf(e) == nameOf(c))
  {
    var llm := GetByName(llms, NormalName(modelName)).value;
    var agent := agentFor(Attr(llm, "id").i).value;
    var declared := DeclaredClasses(Attr(agent, "tools")).value;
    var enabled := MappedTools(GetEnabled(tools));
    var names := set t | t in enabled :: nameOf(t);
    ActiveToolsMembers(declared, names, nameOf, c);
  }

  // ---------------------------------------------------------------------------
  // LLMFactory.llm

  /** What `self.chat_converse.claude_model_text()` does as written: `Converse`
      (bedrock/converse.py) defines no such method, so the attribute lookup raises. */
  const ClaudeModelTextAsWritten: Result<bool, string> :=
    Failure("'Converse' object has no attribute 'claude_model_text'")

  /** `LLMFactory.llm`: "claude" gives whatever the Claude constructor gives (`claude`:
      the model it returns, as the truthiness its callers test, or the exception it
      raises), "llama" and "gpt-oss" give None, anything else is unsupported; the
      name is compared lower-cased. */
  function LlmFactoryLlm(modelName: Option<string>, claude: Result<bool, string>): (r: Result<bool, string>)
    ensures NormalName(modelName) == "claude" ==> r == claude
    ensures NormalName(modelName) == "llama" || NormalName(modelName) == "gpt-oss" ==> r == Success(false)
    ensures NormalName(modelName) !in {"claude", "llama", "gpt-oss"} ==>
      r == Failure("[Agent] Unsupported model: " + NormalName(modelName))
    ensures r == Success(true) ==> NormalName(modelName) == "claude"
  {
    var name := NormalName(modelName);
    if name == "claude" then claude
    else if name == "llama" then Success(false)
    else if name == "gpt-oss" then Success(false)
    else Failure("[Agent] Unsupported model: " + name)
  }

  /** Names that differ only in letter case select the same model. */
  lemma LlmIgnoresCase(a: string, b: string)
    requires Lower(a) == Lower(b)
    ensures forall claude :: LlmFactoryLlm(Some(a), claude) == LlmFactoryLlm(Some(b), claude)
  {
  }
}
