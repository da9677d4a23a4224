/**
 * The declarative table definitions of the service: each ORM class is a list of
 * columns with their type, nullability, default and uniqueness.
 */
module Models {
  import opened Wrappers
  import opened Values

  /** The SQL type of a column, as far as the values it accepts are concerned. */
  datatype Kind = IntCol | StrCol | BoolCol | JsonCol

  /** `Column(type, nullable=..., default=..., unique=...)`. A primary key is
      not nullable and unique. */
  datatype Column = Column(name: string, kind: Kind, nullable: bool, default: Option<Value>, unique: bool)

  /** An ORM class: its Python name (quoted in error messages) and its columns. */
  datatype Schema = Schema(model: string, columns: seq<Column>)

  function ColumnNames(cols: seq<Column>): (ns: seq<string>)
    ensures |ns| == |cols|
    ensures forall i | 0 <= i < |cols| :: ns[i] == cols[i].name
  {
    seq(|cols|, i requires 0 <= i < |cols| => cols[i].name)
  }

  /** Column names are distinct and the first column is the integer primary key `id`. */
  predicate WellFormed(s: Schema) {
    && |s.columns| > 0
    && s.columns[0] == Column("id", IntCol, false, None, true)
    && (forall i, j | 0 <= i < j < |s.columns| :: s.columns[i].name != s.columns[j].name)
  }

  function PrimaryKey(): Column { Column("id", IntCol, false, None, true) }

  function Plain(name: string, kind: Kind): Column { Column(name, kind, true, None, false) }
  function Required(name: string, kind: Kind): Column { Column(name, kind, false, None, false) }
  function RequiredUnique(name: string): Column { Column(name, StrCol, false, None, true) }
  function Defaulted(name: string, kind: Kind, nullable: bool, d: Value): Column {
    Column(name, kind, nullable, Some(d), false)
  }

  /** `status = Column(String(16), default=d)`. */
  function Status(d: string): Column { Defaulted("status", StrCol, true, Str(d)) }

  /** `trashed = Column(Boolean, default=False)`. */
  function Trashed(): Column { Defaulted("trashed", BoolCol, true, Bool(false)) }

  /** `llms` (databases/models.py:6-39). */
  function LlmSchema(): Schema {
    Schema("LLMModel", [
      PrimaryKey(),
      RequiredUnique("name"),
      Required("display_name", StrCol),
      Plain("description", StrCol),
      Defaulted("logo", StrCol, false, Str("yang.png")),
      Plain("provider", StrCol),
      Defaulted("region", StrCol, false, Str("ap-southeast-1")),
      Required("model_id", StrCol),
      Defaulted("model_max_tokens", StrCol, false, Str("2048")),
      Defaulted("model_temperature", StrCol, false, Str("0.7")),
      Plain("guardrail_id", StrCol),
      Plain("guardrail_version", StrCol),
      Plain("system_prompt", StrCol),
      Status("enable"),
      Trashed()
    ])
  }

  /** `agents` (databases/models.py:41-67). */
  function AgentSchema(): Schema {
    Schema("AgentModel", [
      PrimaryKey(),
      RequiredUnique("name"),
      Plain("knowledge_base_id", StrCol),
      Plain("llm_id", IntCol),
      Plain("system_prompt", StrCol),
      Plain("tools", JsonCol),
      Status("enable"),
      Trashed()
    ])
  }

  /** `tools` (databases/models.py:69-93). */
  function ToolSchema(): Schema {
    Schema("ToolModel", [
      PrimaryKey(),
      RequiredUnique("name"),
      Plain("display_name", StrCol),
      Status("disable"),
      Plain("logo", StrCol),
      Plain("description", StrCol),
      Plain("tags", JsonCol),
      Trashed(),
      Plain("host", StrCol),
      Plain("api_key", StrCol),
      Plain("cse_id", StrCol),
      Plain("client_id", StrCol),
      Plain("client_secret", StrCol),
      Plain("user_agent", StrCol)
    ])
  }

  /** `roles` (databases/models.py:95-111). */
  function RoleSchema(): Schema {
    Schema("RoleModel", [
      PrimaryKey(),
      RequiredUnique("name"),
      Plain("description", StrCol),
      Status("enable"),
      Trashed()
    ])
  }

  /** `users` (databases/models.py:113-133). */
  function UserSchema(): Schema {
    Schema("UserModel", [
      PrimaryKey(),
      RequiredUnique("username"),
      RequiredUnique("email"),
      Required("hashed_password", StrCol),
      Plain("fullname", StrCol),
      Defaulted("changed_password", BoolCol, true, Bool(false)),
      Required("role_id", IntCol),
      Defaulted("active_status", StrCol, true, Str("enable")),
      Trashed()
    ])
  }

  /** `messages` (databases/models.py:135-148). */
  function MessageSchema(): Schema {
    Schema("MessageModel", [
      PrimaryKey(),
      Plain("user_id", IntCol),
      Plain("role", StrCol),
      Plain("content", StrCol),
      Plain("feedback", BoolCol),
      Status("enable"),
      Trashed()
    ])
  }

  /** The column of `s` named `name`, if there is one. */
  function ColumnOf(s: Schema, name: string): (r: Option<Column>)
    ensures r.Some? ==> r.value in s.columns && r.value.name == name
    ensures r.None? <==> name !in ColumnNames(s.columns)
  {
    ColumnFrom(s.columns, name, 0)
  }

  /** The first column named `name` at or after position `i`. */
  function ColumnFrom(cols: seq<Column>, name: string, i: nat): (r: Option<Column>)
    requires i <= |cols|
    ensures r.Some? ==> r.value in cols[i..] && r.value.name == name
    ensures r.None? <==> name !in ColumnNames(cols)[i..]
    decreases |cols| - i
  {
    if i == |cols| then None
    else if cols[i].name == name then Some(cols[i])
    else ColumnFrom(cols, name, i + 1)
  }

  /** The default a column takes when an insert does not mention it. */
  function DefaultOf(s: Schema, name: string): Option<Value> {
    match ColumnOf(s, name)
    case Some(c) => c.default
    case None => None
  }

  /** Is `name` a column of `s` declared `unique=True`? */
  predicate UniqueColumn(s: Schema, name: string) {
    ColumnOf(s, name).Some? && ColumnOf(s, name).value.unique
  }

  /** In a well-formed schema the lookup by name finds the one column with that name. */
  lemma ColumnOfIndex(s: Schema, i: nat)
    requires WellFormed(s) && i < |s.columns|
    ensures ColumnOf(s, s.columns[i].name) == Some(s.columns[i])
  {
    ColumnFromIndex(s.columns, i, 0);
  }

  /** ... and so the default it declares. */
  lemma DefaultOfIndex(s: Schema, i: nat)
    requires WellFormed(s) && i < |s.columns|
    ensures DefaultOf(s, s.columns[i].name) == s.columns[i].default
  {
    ColumnOfIndex(s, i);
  }

  lemma {:induction false} ColumnFromIndex(cols: seq<Column>, i: nat, k: nat)
    requires k <= i < |cols|
    requires forall a, b | 0 <= a < b < |cols| :: cols[a].name != cols[b].name
    ensures ColumnFrom(cols, cols[i].name, k) == Some(cols[i])
    decreases i - k
  {
    if k < i {
      ColumnFromIndex(cols, i, k + 1);
    }
  }

  // ---------------------------------------------------------------------------
  // What the declarations fix

  lemma LlmWellFormed() ensures WellFormed(LlmSchema()) {}
  lemma AgentWellFormed() ensures WellFormed(AgentSchema()) {}
  lemma ToolWellFormed() ensures WellFormed(ToolSchema()) {}
  lemma RoleWellFormed() ensures WellFormed(RoleSchema()) {}
  lemma UserWellFormed() ensures WellFormed(UserSchema()) {}
  lemma MessageWellFormed() ensures WellFormed(MessageSchema()) {}

  /** LLM model settings are strings with defaults "2048" tokens, temperature "0.7",
      region "ap-southeast-1". */
  lemma LlmDefaults()
    ensures DefaultOf(LlmSchema(), "model_max_tokens") == Some(Str("2048"))
    ensures DefaultOf(LlmSchema(), "model_temperature") == Some(Str("0.7"))
    ensures DefaultOf(LlmSchema(), "region") == Some(Str("ap-southeast-1"))
  {
    var s := LlmSchema();
    LlmWellFormed();
    DefaultOfIndex(s, 6);
    DefaultOfIndex(s, 8);
    DefaultOfIndex(s, 9);
  }

  /** An LLM record is enabled and not trashed by default. */
  lemma LlmStatusDefaults()
    ensures DefaultOf(LlmSchema(), "status") == Some(Str("enable"))
    ensures DefaultOf(LlmSchema(), "trashed") == Some(Bool(false))
  {
    LlmWellFormed();
    ColumnOfIndex(LlmSchema(), 13);
    ColumnOfIndex(LlmSchema(), 14);
  }

  /** The LLM name is unique and required; the guardrail id and version are separate
      nullable string columns with no constraint tying them together. */
  lemma LlmConstraints()
    ensures UniqueColumn(LlmSchema(), "name")
    ensures ColumnOf(LlmSchema(), "guardrail_id") == Some(Column("guardrail_id", StrCol, true, None, false))
    ensures ColumnOf(LlmSchema(), "guardrail_version") == Some(Column("guardrail_version", StrCol, true, None, false))
  {
    LlmWellFormed();
    ColumnOfIndex(LlmSchema(), 1);
    ColumnOfIndex(LlmSchema(), 10);
    ColumnOfIndex(LlmSchema(), 11);
  }

  /** An agent has a unique name, one integer `llm_id` and a nullable JSON tool list;
      it is enabled and not trashed by default. There is no `default_agent` column. */
  lemma AgentConstraints()
    ensures UniqueColumn(AgentSchema(), "name")
    ensures ColumnOf(AgentSchema(), "llm_id") == Some(Column("llm_id", IntCol, true, None, false))
    ensures ColumnOf(AgentSchema(), "tools") == Some(Column("tools", JsonCol, true, None, false))
    ensures DefaultOf(AgentSchema(), "status") == Some(Str("enable"))
    ensures DefaultOf(AgentSchema(), "trashed") == Some(Bool(false))
  {
    AgentWellFormed();
    ColumnOfIndex(AgentSchema(), 1);
    ColumnOfIndex(AgentSchema(), 3);
    ColumnOfIndex(AgentSchema(), 5);
    ColumnOfIndex(AgentSchema(), 6);
    ColumnOfIndex(AgentSchema(), 7);
  }

  lemma AgentHasNoDefaultFlag()
    ensures ColumnOf(AgentSchema(), "default_agent") == None
  {
    var names := ColumnNames(AgentSchema().columns);
    assert names == ["id", "name", "knowledge_base_id", "llm_id", "system_prompt", "tools", "status", "trashed"];
    assert forall i | 0 <= i < |names| :: |names[i]| != 13 || names[i][0] != 'd';
  }

  /** A tool has a unique name and is disabled and not trashed by default. */
  lemma ToolConstraints()
    ensures UniqueColumn(ToolSchema(), "name")
    ensures DefaultOf(ToolSchema(), "status") == Some(Str("disable"))
    ensures DefaultOf(ToolSchema(), "trashed") == Some(Bool(false))
  {
    ToolWellFormed();
    ColumnOfIndex(ToolSchema(), 1);
    ColumnOfIndex(ToolSchema(), 3);
    ColumnOfIndex(ToolSchema(), 7);
  }

  /** A role has a unique name and is enabled and not trashed by default. */
  lemma RoleConstraints()
    ensures UniqueColumn(RoleSchema(), "name")
    ensures DefaultOf(RoleSchema(), "status") == Some(Str("enable"))
    ensures DefaultOf(RoleSchema(), "trashed") == Some(Bool(false))
  {
    RoleWellFormed();
    ColumnOfIndex(RoleSchema(), 1);
    ColumnOfIndex(RoleSchema(), 3);
    ColumnOfIndex(RoleSchema(), 4);
  }

  /** Usernames and emails are unique; a user is active and not trashed by default. */
  lemma UserConstraints()
    ensures UniqueColumn(UserSchema(), "username")
    ensures UniqueColumn(UserSchema(), "email")
    ensures DefaultOf(UserSchema(), "active_status") == Some(Str("enable"))
    ensures DefaultOf(UserSchema(), "trashed") == Some(Bool(false))
  {
    UserWellFormed();
    ColumnOfIndex(UserSchema(), 1);
    ColumnOfIndex(UserSchema(), 2);
    ColumnOfIndex(UserSchema(), 7);
    ColumnOfIndex(UserSchema(), 8);
  }

  /** A message is enabled and not trashed by default. */
  lemma MessageConstraints()
    ensures ColumnOf(MessageSchema(), "user_id") == Some(Column("user_id", IntCol, true, None, false))
    ensures DefaultOf(MessageSchema(), "status") == Some(Str("enable"))
    ensures DefaultOf(MessageSchema(), "trashed") == Some(Bool(false))
  {
    MessageWellFormed();
    ColumnOfIndex(MessageSchema(), 1);
    ColumnOfIndex(MessageSchema(), 5);
    ColumnOfIndex(MessageSchema(), 6);
  }
  /** Roles and tools: `name` is the one required and the one unique column besides
      the primary key; every other column is nullable and not unique. */
  lemma RoleColumnFacts()
    ensures |RoleSchema().columns| >= 2
    ensures RoleSchema().columns[1] == RequiredUnique("name")
    ensures forall k | 2 <= k < |RoleSchema().columns| :: RoleSchema().columns[k].nullable && !RoleSchema().columns[k].unique
  {
  }

  lemma ToolColumnFacts()
    ensures |ToolSchema().columns| >= 2
    ensures ToolSchema().columns[1] == RequiredUnique("name")
    ensures forall k | 2 <= k < |ToolSchema().columns| :: ToolSchema().columns[k].nullable && !ToolSchema().columns[k].unique
  {
  }

  /** Agents: `name` is the one required and unique column besides the primary key. */
  lemma AgentColumnFacts()
    ensures |AgentSchema().columns| >= 2
    ensures AgentSchema().columns[1] == RequiredUnique("name")
    ensures forall k | 2 <= k < |AgentSchema().columns| :: AgentSchema().columns[k].nullable && !AgentSchema().columns[k].unique
  {
  }

  /** Users: username, email, password hash and role id are required; username and
      email are unique. */
  lemma UserColumnFacts()
    ensures forall k | 1 <= k < |UserSchema().columns| ::
      (UserSchema().columns[k].nullable || k in {1, 2, 3, 6}) && (!UserSchema().columns[k].unique || k in {1, 2})
  {
  }

  /** LLMs: name, display name and model id are required without a default; logo,
      region, token limit and temperature are required with a non-NULL default; only
      the name is unique. */
  lemma LlmColumnFacts()
    ensures forall k | 1 <= k < |LlmSchema().columns| ::
      (|| LlmSchema().columns[k].nullable || k in {1, 2, 7}
       || (LlmSchema().columns[k].default.Some? && LlmSchema().columns[k].default.value != Null))
      && (!LlmSchema().columns[k].unique || k == 1)
  {
  }
}
