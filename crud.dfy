/**
 * The CRUD functions of the persistence layer, one per entity and operation, over
 * the tables of `Tables`. The request payloads are the Pydantic create schemas;
 * `model_dump()` turns them into keyword arguments in field order.
 */
module Crud {
  import opened Wrappers
  import opened Values
  import opened Models
  import opened Tables

  function OptStr(o: Option<string>): Value {
    match o
    case Some(s) => Str(s)
    case None => Null
  }

  function OptBool(o: Option<bool>): Value {
    match o
    case Some(b) => Bool(b)
    case None => Null
  }

  /** `UserCreate`: the user fields, the client-chosen id included, then the hash. */
  datatype UserCreate = UserCreate(
    id: int, username: string, email: string, fullname: Option<string>,
    changedPassword: bool, activeStatus: string, trashed: bool, roleId: int,
    hashedPassword: string)
  {
    function Dump(): Fields {
      [ Field("id", Int(id)), Field("username", Str(username)), Field("email", Str(email)),
        Field("fullname", OptStr(fullname)), Field("changed_password", Bool(changedPassword)),
        Field("active_status", Str(activeStatus)), Field("trashed", Bool(trashed)),
        Field("role_id", Int(roleId)), Field("hashed_password", Str(hashedPassword)) ]
    }
  }

  /** `MessageCreate`. */
  datatype MessageCreate = MessageCreate(
    role: string, content: string, feedback: Option<bool>, status: string, trashed: bool, userId: int)
  {
    function Dump(): Fields {
      [ Field("role", Str(role)), Field("content", Str(content)), Field("feedback", OptBool(feedback)),
        Field("status", Str(status)), Field("trashed", Bool(trashed)), Field("user_id", Int(userId)) ]
    }
  }

  /** `ToolCreate`. */
  datatype ToolCreate = ToolCreate(
    name: string, displayName: string, status: string, logo: Option<string>,
    description: Option<string>, tags: Option<seq<string>>, trashed: bool,
    host: Option<string>, apiKey: Option<string>, cseId: Option<string>,
    clientId: Option<string>, clientSecret: Option<string>, userAgent: Option<string>)
  {
    function Dump(): Fields {
      [ Field("name", Str(name)), Field("display_name", Str(displayName)), Field("status", Str(status)),
        Field("logo", OptStr(logo)), Field("description", OptStr(description)),
        Field("tags", match tags case Some(ts) => List(seq(|ts|, i requires 0 <= i < |ts| => Str(ts[i]))) case None => Null),
        Field("trashed", Bool(trashed)), Field("host", OptStr(host)), Field("api_key", OptStr(apiKey)),
        Field("cse_id", OptStr(cseId)), Field("client_id", OptStr(clientId)),
        Field("client_secret", OptStr(clientSecret)), Field("user_agent", OptStr(userAgent)) ]
    }
  }

  /** `LLMCreate`. */
  datatype LlmCreate = LlmCreate(
    name: string, displayName: string, description: string, logo: string, provider: string,
    region: string, modelId: string, modelMaxTokens: string, modelTemperature: string,
    guardrailId: Option<string>, guardrailVersion: Option<string>, systemPrompt: string,
    status: string, trashed: bool)
  {
    function Dump(): Fields {
      [ Field("name", Str(name)), Field("display_name", Str(displayName)),
        Field("description", Str(description)), Field("logo", Str(logo)), Field("provider", Str(provider)),
        Field("region", Str(region)), Field("model_id", Str(modelId)),
        Field("model_max_tokens", Str(modelMaxTokens)), Field("model_temperature", Str(modelTemperature)),
        Field("guardrail_id", OptStr(guardrailId)), Field("guardrail_version", OptStr(guardrailVersion)),
        Field("system_prompt", Str(systemPrompt)), Field("status", Str(status)), Field("trashed", Bool(trashed)) ]
    }
  }

  /** `AgentCreate`, whose `default_agent` field has no column in `agents`. */
  datatype AgentCreate = AgentCreate(
    name: string, status: string, trashed: bool, defaultAgent: bool,
    knowledgeBaseId: Option<string>, llmId: int, systemPrompt: Option<string>, tools: Option<seq<Value>>)
  {
    function Dump(): Fields {
      [ Field("name", Str(name)), Field("status", Str(status)), Field("trashed", Bool(trashed)),
        Field("default_agent", Bool(defaultAgent)), Field("knowledge_base_id", OptStr(knowledgeBaseId)),
        Field("llm_id", Int(llmId)), Field("system_prompt", OptStr(systemPrompt)),
        Field("tools", match tools case Some(ts) => List(ts) case None => Null) ]
    }
  }

  // ---------------------------------------------------------------------------
  // Creates

  method CreateUser(users: Table, data: UserCreate) returns (r: Result<Row, DbError>)
    requires users.schema == UserSchema()
    modifies users
    ensures (r, users.rows, users.nextId) == InsertOutcome(UserSchema(), old(users.rows), old(users.nextId), data.Dump())
    ensures old(users.Valid()) ==> users.Valid()
  {
    r := users.Insert(data.Dump());
  }

  method CreateMessage(messages: Table, data: MessageCreate) returns (r: Result<Row, DbError>)
    requires messages.schema == MessageSchema()
    modifies messages
    ensures (r, messages.rows, messages.nextId) == InsertOutcome(MessageSchema(), old(messages.rows), old(messages.nextId), data.Dump())
    ensures old(messages.Valid()) ==> messages.Valid()
  {
    r := messages.Insert(data.Dump());
  }

  method CreateTool(tools: Table, data: ToolCreate) returns (r: Result<Row, DbError>)
    requires tools.schema == ToolSchema()
    modifies tools
    ensures (r, tools.rows, tools.nextId) == InsertOutcome(ToolSchema(), old(tools.rows), old(tools.nextId), data.Dump())
    ensures old(tools.Valid()) ==> tools.Valid()
  {
    r := tools.Insert(data.Dump());
  }

  method CreateLlm(llms: Table, data: LlmCreate) returns (r: Result<Row, DbError>)
    requires llms.schema == LlmSchema()
    modifies llms
    ensures (r, llms.rows, llms.nextId) == InsertOutcome(LlmSchema(), old(llms.rows), old(llms.nextId), data.Dump())
    ensures old(llms.Valid()) ==> llms.Valid()
  {
    r := llms.Insert(data.Dump());
  }

  method CreateAgent(agents: Table, data: AgentCreate) returns (r: Result<Row, DbError>)
    requires agents.schema == AgentSchema()
    modifies agents
    ensures (r, agents.rows, agents.nextId) == InsertOutcome(AgentSchema(), old(agents.rows), old(agents.nextId), data.Dump())
    ensures old(agents.Valid()) ==> agents.Valid()
  {
    r := agents.Insert(data.Dump());
  }

  /** `create_agent` can never succeed: the `default_agent` keyword is rejected by the
      model constructor before anything is written, whatever the payload. */
  lemma CreateAgentAlwaysFails(rows: seq<Row>, nextId: int, data: AgentCreate)
    ensures InsertOutcome(AgentSchema(), rows, nextId, data.Dump())
      == (Failure(InvalidKeyword("default_agent", "AgentModel")), rows, nextId)
  {
    var fs := data.Dump();
    var names := ColumnNames(AgentSchema().columns);
    assert names[1] == "name" && names[6] == "status" && names[7] == "trashed";
    AgentHasNoDefaultFlag();
    assert FirstInvalidKey(AgentSchema(), fs, 3) == Some("default_agent");
  }

  /** `create_user` stores the id the client chose and never draws from the `users`
      sequence. */
  lemma CreateUserKeepsSequence(rows: seq<Row>, nextId: int, data: UserCreate)
    ensures InsertOutcome(UserSchema(), rows, nextId, data.Dump()).2 == nextId
  {
    LookupAt(data.Dump(), 0);
  }

  /** A created user holds the id, username, email and role id of the payload. */
  lemma CreateUserStoresPayload(rows: seq<Row>, nextId: int, data: UserCreate)
    ensures var r := InsertOutcome(UserSchema(), rows, nextId, data.Dump()).0;
      r.Success? ==> (Attr(r.value, "id") == Int(data.id) && Attr(r.value, "username") == Str(data.username)
        && Attr(r.value, "email") == Str(data.email) && Attr(r.value, "role_id") == Int(data.roleId))
  {
    var fs := data.Dump();
    LookupAt(fs, 0);
    LookupAt(fs, 1);
    LookupAt(fs, 2);
    LookupAt(fs, 7);
    UserWellFormed();
    var names := ColumnNames(UserSchema().columns);
    assert names[0] == "id" && names[1] == "username" && names[2] == "email" && names[6] == "role_id";
    InsertSpec(UserSchema(), rows, nextId, fs);
    NewRowValue(UserSchema(), fs, nextId, "id");
    NewRowValue(UserSchema(), fs, nextId, "username");
    NewRowValue(UserSchema(), fs, nextId, "email");
    NewRowValue(UserSchema(), fs, nextId, "role_id");
  }

  // ---------------------------------------------------------------------------
  // Updates and deletes

  method UpdateUser(users: Table, userId: int, updates: Fields) returns (r: Result<Option<Row>, DbError>)
    requires users.schema == UserSchema()
    modifies users
    ensures (r, users.rows) == UpdateOutcome(UserSchema(), old(users.rows), userId, updates)
    ensures users.nextId == old(users.nextId)
    ensures old(users.Valid()) ==> users.Valid()
  {
    r := users.Update(userId, updates);
  }

  method UpdateTool(tools: Table, toolId: int, updates: Fields) returns (r: Result<Option<Row>, DbError>)
    requires tools.schema == ToolSchema()
    modifies tools
    ensures (r, tools.rows) == UpdateOutcome(ToolSchema(), old(tools.rows), toolId, updates)
    ensures tools.nextId == old(tools.nextId)
    ensures old(tools.Valid()) ==> tools.Valid()
  {
    r := tools.Update(toolId, updates);
  }

  method UpdateLlm(llms: Table, llmId: int, updates: Fields) returns (r: Result<Option<Row>, DbError>)
    requires llms.schema == LlmSchema()
    modifies llms
    ensures (r, llms.rows) == UpdateOutcome(LlmSchema(), old(llms.rows), llmId, updates)
    ensures llms.nextId == old(llms.nextId)
    ensures old(llms.Valid()) ==> llms.Valid()
  {
    r := llms.Update(llmId, updates);
  }

  method UpdateAgent(agents: Table, agentId: int, updates: Fields) returns (r: Result<Option<Row>, DbError>)
    requires agents.schema == AgentSchema()
    modifies agents
    ensures (r, agents.rows) == UpdateOutcome(AgentSchema(), old(agents.rows), agentId, updates)
    ensures agents.nextId == old(agents.nextId)
    ensures old(agents.Valid()) ==> agents.Valid()
  {
    r := agents.Update(agentId, updates);
  }

  /** `AgentUpdate` may carry `default_agent`; `setattr` accepts it, but it is not a
      column, so an update made of it alone stores nothing new. */
  lemma UpdateAgentIgnoresDefaultFlag(rows: seq<Row>, agentId: int, flag: bool)
    requires TableOk(AgentSchema(), rows)
    ensures UpdateOutcome(AgentSchema(), rows, agentId, [Field("default_agent", Bool(flag))]).1 == rows
  {
    var fs := [Field("default_agent", Bool(flag))];
    AgentHasNoDefaultFlag();
    var found := FirstWhere(rows, "id", Int(agentId));
    if found.Some? {
      var k := found.value;
      assert SetAttrs(AgentSchema(), rows[k], fs) == SetAttrs(AgentSchema(), rows[k], []);
      assert rows[k := rows[k]] == rows;
    }
  }

  /** `delete_user`. `UserModel.messages` has no delete cascade, so deleting the user
      through the session also detaches the user's messages: their `user_id` becomes
      NULL. */
  method DeleteUser(users: Table, messages: Table, userId: int) returns (deleted: bool)
    requires users.schema == UserSchema() && messages.schema == MessageSchema()
    modifies users, messages
    ensures (deleted, users.rows) == DeleteOutcome(old(users.rows), userId)
    ensures messages.rows == if deleted then Orphaned(old(messages.rows), "user_id", userId) else old(messages.rows)
    ensures old(users.Valid()) ==> users.Valid()
    ensures old(messages.Valid()) ==> messages.Valid()
  {
    assert users.schema.model != messages.schema.model;
    deleted := users.Delete(userId);
    if deleted {
      MessageConstraints();
      messages.Orphan("user_id", userId);
    }
  }

  method DeleteMessage(messages: Table, messageId: int) returns (deleted: bool)
    requires messages.schema == MessageSchema()
    modifies messages
    ensures (deleted, messages.rows) == DeleteOutcome(old(messages.rows), messageId)
    ensures old(messages.Valid()) ==> messages.Valid()
  {
    deleted := messages.Delete(messageId);
  }

  method DeleteTool(tools: Table, toolId: int) returns (deleted: bool)
    requires tools.schema == ToolSchema()
    modifies tools
    ensures (deleted, tools.rows) == DeleteOutcome(old(tools.rows), toolId)
    ensures old(tools.Valid()) ==> tools.Valid()
  {
    deleted := tools.Delete(toolId);
  }

  /** `delete_llm`. `LLMModel.agents` has no delete cascade, so deleting the LLM
      through the session also detaches its agents: their `llm_id` becomes NULL. */
  method DeleteLlm(llms: Table, agents: Table, llmId: int) returns (deleted: bool)
    requires llms.schema == LlmSchema() && agents.schema == AgentSchema()
    modifies llms, agents
    ensures (deleted, llms.rows) == DeleteOutcome(old(llms.rows), llmId)
    ensures agents.rows == if deleted then Orphaned(old(agents.rows), "llm_id", llmId) else old(agents.rows)
    ensures old(llms.Valid()) ==> llms.Valid()
    ensures old(agents.Valid()) ==> agents.Valid()
  {
    assert llms.schema.model != agents.schema.model;
    deleted := llms.Delete(llmId);
    if deleted {
      AgentConstraints();
      agents.Orphan("llm_id", llmId);
    }
  }

  method DeleteAgent(agents: Table, agentId: int) returns (deleted: bool)
    requires agents.schema == AgentSchema()
    modifies agents
    ensures (deleted, agents.rows) == DeleteOutcome(old(agents.rows), agentId)
    ensures old(agents.Valid()) ==> agents.Valid()
  {
    deleted := agents.Delete(agentId);
  }

  // ---------------------------------------------------------------------------
  // Queries

  /** `get_user`, `get_message`, `get_tool`, `get_llm`, `get_agent`: the record with
      the id, if any. */
  function GetById(rows: seq<Row>, id: int): (r: Option<Row>)
    ensures r.Some? ==> r.value in rows && Attr(r.value, "id") == Int(id)
    ensures r.None? <==> forall j | 0 <= j < |rows| :: Attr(rows[j], "id") != Int(id)
  {
    First(rows, "id", Int(id))
  }

  /** `get_user_by_username`: exact match, first in table order. */
  function GetUserByUsername(users: seq<Row>, username: string): (r: Option<Row>)
    ensures r.Some? ==> r.value in users && Attr(r.value, "username") == Str(username)
    ensures r.Some? ==> exists k | 0 <= k < |users| :: (users[k] == r.value &&
      forall j | 0 <= j < k :: Attr(users[j], "username") != Str(username))
    ensures r.None? <==> forall j | 0 <= j < |users| :: Attr(users[j], "username") != Str(username)
  {
    match FirstWhere(users, "username", Str(username))
    case Some(k) => Some(users[k])
    case None => None
  }

  /** `get_tool_by_name`, `get_llm_by_name`, `get_agent_by_name`: exact match on
      `name`, first in table order. */
  function GetByName(rows: seq<Row>, name: string): (r: Option<Row>)
    ensures r.Some? ==> r.value in rows && Attr(r.value, "name") == Str(name)
    ensures r.Some? ==> exists k | 0 <= k < |rows| :: (rows[k] == r.value &&
      forall j | 0 <= j < k :: Attr(rows[j], "name") != Str(name))
    ensures r.None? <==> forall j | 0 <= j < |rows| :: Attr(rows[j], "name") != Str(name)
  {
    match FirstWhere(rows, "name", Str(name))
    case Some(k) => Some(rows[k])
    case None => None
  }

  /** `get_enabled_tools` and `get_enabled_llms`: every record whose status is
      "enable", trashed or not, and nothing else, in table order. */
  function GetEnabled(rows: seq<Row>): (r: seq<Row>)
    ensures forall t | t in r :: t in rows && Attr(t, "status") == Str("enable")
    ensures forall j | 0 <= j < |rows| && Attr(rows[j], "status") == Str("enable") :: rows[j] in r
  {
    AllWhere(rows, "status", Str("enable"))
  }

  /** `get_user_messages`: every message with the user id, and only those. */
  function GetUserMessages(messages: seq<Row>, userId: int): (r: seq<Row>)
    ensures forall m | m in r :: m in messages && Attr(m, "user_id") == Int(userId)
    ensures forall j | 0 <= j < |messages| && Attr(messages[j], "user_id") == Int(userId) :: messages[j] in r
  {
    AllWhere(messages, "user_id", Int(userId))
  }

  /** `get_default_agent`: `AgentModel.default_agent` is looked up on the class before
      any query runs, and the class has no such attribute. */
  function GetDefaultAgent(agents: seq<Row>): (r: Result<Option<Row>, string>)
    ensures r == Failure("type object 'AgentModel' has no attribute 'default_agent'")
  {
    AgentHasNoDefaultFlag();
    if HasColumn(AgentSchema(), "default_agent") then Success(First(agents, "default_agent", Bool(true)))
    else Failure("type object 'AgentModel' has no attribute 'default_agent'")
  }
}
