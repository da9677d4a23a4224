/**
 * `seed_initial_data` (databases/seeds.py): the five seeders run one after the
 * other in one session. An exception from a seeder ends the run, so the later
 * seeders do not run; what earlier seeders committed stays committed.
 */
module InitialData {
  import opened Wrappers
  import opened Values
  import opened Models
  import opened Tables
  import opened Crud
  import opened Converse
  import opened Seeds
  import Factory

  /** The five tables the seeding touches. */
  datatype Db = Db(roles: Snapshot, users: Snapshot, tools: Snapshot, llms: Snapshot, agents: Snapshot)

  /** What the seeders take from outside: the configured administrator e-mail, the
      hash of the generated password and the two prompt files' contents. */
  datatype SeedConfig = SeedConfig(adminEmail: string, passwordHash: string, llmPrompt: string, agentPrompt: string)

  /** The literal data of the seeders that a correction changes: the tool list and
      the default LLM's keyword arguments. */
  datatype Plan = Plan(tools: seq<ToolSeed>, llm: Fields)

  function AsWritten(cfg: SeedConfig): Plan {
    Plan(ToolSeeds(), LlmSeedFields(cfg.llmPrompt))
  }

  function Corrected(cfg: SeedConfig): Plan {
    Plan(CorrectedToolSeeds(), CorrectedLlmSeedFields(cfg.llmPrompt))
  }

  /** One seeder's result: its own result, the records of its table and the
      table's sequence afterwards. */
  type Outcome = (Result<(), SeedError>, seq<Row>, int)

  /** `seed_initial_data`: roles, administrator, tools, default LLM, default agent;
      the first failure is the result, and the tables stay as they are then. */
  function InitialDataOutcome(db: Db, cfg: SeedConfig, plan: Plan): (Result<(), SeedError>, Db) {
    var (r1, roles, rolesNext) := SeedRoleOutcome(db.roles.rows, db.roles.nextId);
    var db1 := db.(roles := Snapshot(roles, rolesNext));
    if r1.Failure? then (r1, db1)
    else
      var (r2, users, usersNext) := SeedAdminOutcome(db1.users.rows, db1.users.nextId, db1.roles.rows, cfg.adminEmail, cfg.passwordHash);
      var db2 := db1.(users := Snapshot(users, usersNext));
      if r2.Failure? then (r2, db2)
      else
        var (r3, tools, toolsNext) := SeedToolOutcome(ToolSchema(), db2.tools.rows, db2.tools.nextId, plan.tools);
        var db3 := db2.(tools := Snapshot(tools, toolsNext));
        if r3.Failure? then (r3, db3)
        else
          var (r4, llms, llmsNext) := SeedLlmOutcome(db3.llms.rows, db3.llms.nextId, plan.llm);
          var db4 := db3.(llms := Snapshot(llms, llmsNext));
          if r4.Failure? then (r4, db4)
          else
            var (r5, agents, agentsNext) := SeedAgentOutcome(db4.agents.rows, db4.agents.nextId, db4.llms.rows, db4.tools.rows, cfg.agentPrompt);
            (r5, db4.(agents := Snapshot(agents, agentsNext)))
  }

  function DbOf(roles: Table, users: Table, tools: Table, llms: Table, agents: Table): Db
    reads roles, users, tools, llms, agents
  {
    Db(Snapshot(roles.rows, roles.nextId), Snapshot(users.rows, users.nextId), Snapshot(tools.rows, tools.nextId),
       Snapshot(llms.rows, llms.nextId), Snapshot(agents.rows, agents.nextId))
  }

  method SeedInitialData(roles: Table, users: Table, tools: Table, llms: Table, agents: Table, cfg: SeedConfig, plan: Plan)
    returns (r: Result<(), SeedError>)
    requires roles.schema == RoleSchema() && users.schema == UserSchema() && tools.schema == ToolSchema()
    requires llms.schema == LlmSchema() && agents.schema == AgentSchema()
    modifies roles, users, tools, llms, agents
    ensures (r, DbOf(roles, users, tools, llms, agents)) ==
      InitialDataOutcome(old(DbOf(roles, users, tools, llms, agents)), cfg, plan)
    ensures old(roles.Valid()) ==> roles.Valid()
    ensures old(users.Valid()) ==> users.Valid()
    ensures old(tools.Valid()) ==> tools.Valid()
    ensures old(llms.Valid()) ==> llms.Valid()
    ensures old(agents.Valid()) ==> agents.Valid()
  {
    ghost var db := DbOf(roles, users, tools, llms, agents);
    r := SeedRole(roles);
    ghost var db1 := db.(roles := Snapshot(roles.rows, roles.nextId));
    assert DbOf(roles, users, tools, llms, agents) == db1;
    if r.Failure? {
      return;
    }
    r := SeedAdmin(users, roles, cfg.adminEmail, cfg.passwordHash);
    ghost var db2 := db1.(users := Snapshot(users.rows, users.nextId));
    assert DbOf(roles, users, tools, llms, agents) == db2;
    if r.Failure? {
      return;
    }
    r := SeedTool(tools, plan.tools);
    ghost var db3 := db2.(tools := Snapshot(tools.rows, tools.nextId));
    assert DbOf(roles, users, tools, llms, agents) == db3;
    if r.Failure? {
      return;
    }
    r := SeedLlm(llms, plan.llm);
    ghost var db4 := db3.(llms := Snapshot(llms.rows, llms.nextId));
    assert DbOf(roles, users, tools, llms, agents) == db4;
    if r.Failure? {
      return;
    }
    r := SeedAgent(agents, llms, tools, cfg.agentPrompt);
  }

  /** No table holds a record yet (the sequences may stand anywhere). */
  predicate Fresh(db: Db) {
    db.roles.rows == [] && db.users.rows == [] && db.tools.rows == [] && db.llms.rows == [] && db.agents.rows == []
  }

  /** A run whose first three seeders succeed and whose LLM seeder fails ends there,
      with the agent table untouched. */
  lemma RunStopsAtLlm(db: Db, cfg: SeedConfig, plan: Plan, o1: Outcome, o2: Outcome, o3: Outcome, o4: Outcome)
    requires o1 == SeedRoleOutcome(db.roles.rows, db.roles.nextId) && o1.0.Success?
    requires o2 == SeedAdminOutcome(db.users.rows, db.users.nextId, o1.1, cfg.adminEmail, cfg.passwordHash) && o2.0.Success?
    requires o3 == SeedToolOutcome(ToolSchema(), db.tools.rows, db.tools.nextId, plan.tools) && o3.0.Success?
    requires o4 == SeedLlmOutcome(db.llms.rows, db.llms.nextId, plan.llm) && o4.0.Failure?
    ensures InitialDataOutcome(db, cfg, plan) ==
      (o4.0, Db(Snapshot(o1.1, o1.2), Snapshot(o2.1, o2.2), Snapshot(o3.1, o3.2), Snapshot(o4.1, o4.2), db.agents))
  {
  }

  /** A run whose five seeders all succeed. */
  lemma RunSucceeds(db: Db, cfg: SeedConfig, plan: Plan, o1: Outcome, o2: Outcome, o3: Outcome, o4: Outcome, o5: Outcome)
    requires o1 == SeedRoleOutcome(db.roles.rows, db.roles.nextId) && o1.0.Success?
    requires o2 == SeedAdminOutcome(db.users.rows, db.users.nextId, o1.1, cfg.adminEmail, cfg.passwordHash) && o2.0.Success?
    requires o3 == SeedToolOutcome(ToolSchema(), db.tools.rows, db.tools.nextId, plan.tools) && o3.0.Success?
    requires o4 == SeedLlmOutcome(db.llms.rows, db.llms.nextId, plan.llm) && o4.0.Success?
    requires o5 == SeedAgentOutcome(db.agents.rows, db.agents.nextId, o4.1, o3.1, cfg.agentPrompt) && o5.0.Success?
    ensures InitialDataOutcome(db, cfg, plan) ==
      (Success(()), Db(Snapshot(o1.1, o1.2), Snapshot(o2.1, o2.2), Snapshot(o3.1, o3.2), Snapshot(o4.1, o4.2), Snapshot(o5.1, o5.2)))
  {
  }

  /** The role and administrator seeders on empty tables. */
  lemma FreshAccounts(rolesNext: int, usersNext: int, cfg: SeedConfig)
    ensures var o1 := SeedRoleOutcome([], rolesNext);
      var o2 := SeedAdminOutcome([], usersNext, o1.1, cfg.adminEmail, cfg.passwordHash);
      && o1.0.Success? && |o1.1| == 2
      && Attr(o1.1[0], "name") == Str("admin") && Attr(o1.1[1], "name") == Str("user")
      && o2.0.Success? && |o2.1| == 1 && Attr(o2.1[0], "username") == Str("administrator")
      && Attr(o2.1[0], "role_id") == Int(rolesNext)
  {
    var roles := SeedRoleOutcome([], rolesNext).1;
    SeedRoleSpec([], rolesNext);
    assert FirstWhere(roles, "name", Str("admin")) == Some(0);
    SeedAdminFresh(usersNext, roles, cfg.adminEmail, cfg.passwordHash);
  }

  /** The tool seeder on an empty table stores every listed tool and nothing else. */
  lemma FreshTools(toolsNext: int, seeds: seq<ToolSeed>)
    ensures var o3 := SeedToolOutcome(ToolSchema(), [], toolsNext, seeds);
      && o3.0.Success?
      && (forall k | 0 <= k < |seeds| :: Present(o3.1, seeds[k].name))
      && (forall j | 0 <= j < |o3.1| :: FromSeed(o3.1[j], seeds))
  {
    assert TableOk(ToolSchema(), []) by { ToolWellFormed(); }
    SeedToolSpec([], toolsNext, seeds);
  }

  /** As written, seeding a fresh database commits the two roles, the administrator
      and the tool list, then fails on the default LLM's missing display name: no LLM
      is stored (its id is used up) and the default agent is never created. */
  lemma FreshSeedAsWritten(db: Db, cfg: SeedConfig)
    requires Fresh(db)
    ensures var (r, after) := InitialDataOutcome(db, cfg, AsWritten(cfg));
      && r == Failure(DbFailure(NotNullViolation("display_name")))
      && |after.roles.rows| == 2
      && Attr(after.roles.rows[0], "name") == Str("admin") && Attr(after.roles.rows[1], "name") == Str("user")
      && |after.users.rows| == 1 && Attr(after.users.rows[0], "username") == Str("administrator")
      && Attr(after.users.rows[0], "role_id") == Int(db.roles.nextId)
      && (forall k | 0 <= k < |ToolSeeds()| :: Present(after.tools.rows, ToolSeeds()[k].name))
      && after.llms == Snapshot([], db.llms.nextId + 1)
      && after.agents == db.agents
  {
    var o1 := SeedRoleOutcome([], db.roles.nextId);
    var o2 := SeedAdminOutcome([], db.users.nextId, o1.1, cfg.adminEmail, cfg.passwordHash);
    FreshAccounts(db.roles.nextId, db.users.nextId, cfg);
    var o3 := SeedToolOutcome(ToolSchema(), [], db.tools.nextId, ToolSeeds());
    FreshTools(db.tools.nextId, ToolSeeds());
    var o4 := SeedLlmOutcome([], db.llms.nextId, LlmSeedFields(cfg.llmPrompt));
    SeedLlmMissingDisplayName(db.llms.nextId, cfg.llmPrompt);
    RunStopsAtLlm(db, cfg, AsWritten(cfg), o1, o2, o3, o4);
  }

  /** With the corrections, seeding a fresh database succeeds: the administrator has
      the "admin" role, every listed tool is stored, and the default agent
      "Yang-Agent" uses the default LLM, lists the enabled tools and can be read
      back by the agent factory. */
  lemma FreshSeedCorrected(db: Db, cfg: SeedConfig)
    requires Fresh(db)
    ensures var (r, after) := InitialDataOutcome(db, cfg, Corrected(cfg));
      && r == Success(())
      && |after.roles.rows| == 2 && Attr(after.roles.rows[0], "name") == Str("admin")
      && |after.users.rows| == 1 && Attr(after.users.rows[0], "username") == Str("administrator")
      && Attr(after.users.rows[0], "role_id") == Int(db.roles.nextId)
      && (forall k | 0 <= k < |CorrectedToolSeeds()| :: Present(after.tools.rows, CorrectedToolSeeds()[k].name))
      && |after.llms.rows| == 1 && Attr(after.llms.rows[0], "id") == Int(db.llms.nextId)
      && |after.agents.rows| == 1 && Attr(after.agents.rows[0], "name") == Str("Yang-Agent")
      && Attr(after.agents.rows[0], "llm_id") == Int(db.llms.nextId)
      && Attr(after.agents.rows[0], "tools") == List(ToolEntries(GetEnabled(after.tools.rows)))
      && Factory.DeclaredClasses(Attr(after.agents.rows[0], "tools")).Success?
  {
    var o1 := SeedRoleOutcome([], db.roles.nextId);
    var o2 := SeedAdminOutcome([], db.users.nextId, o1.1, cfg.adminEmail, cfg.passwordHash);
    FreshAccounts(db.roles.nextId, db.users.nextId, cfg);
    var o3 := SeedToolOutcome(ToolSchema(), [], db.tools.nextId, CorrectedToolSeeds());
    FreshTools(db.tools.nextId, CorrectedToolSeeds());
    var o4 := SeedLlmOutcome([], db.llms.nextId, CorrectedLlmSeedFields(cfg.llmPrompt));
    var o5 := SeedAgentOutcome([], db.agents.nextId, o4.1, o3.1, cfg.agentPrompt);
    FreshDefaults(db.llms.nextId, db.agents.nextId, o3.1, cfg, CorrectedToolSeeds());
    RunSucceeds(db, cfg, Corrected(cfg), o1, o2, o3, o4, o5);
  }

  /** The corrected LLM seeder on an empty table, then the agent seeder on an empty
      table over seeded tools. */
  lemma FreshDefaults(llmsNext: int, agentsNext: int, tools: seq<Row>, cfg: SeedConfig, seeds: seq<ToolSeed>)
    requires forall j | 0 <= j < |tools| :: FromSeed(tools[j], seeds)
    ensures var o4 := SeedLlmOutcome([], llmsNext, CorrectedLlmSeedFields(cfg.llmPrompt));
      var o5 := SeedAgentOutcome([], agentsNext, o4.1, tools, cfg.agentPrompt);
      && o4.0.Success? && |o4.1| == 1 && Attr(o4.1[0], "id") == Int(llmsNext)
      && o5.0.Success? && |o5.1| == 1 && Attr(o5.1[0], "name") == Str("Yang-Agent")
      && Attr(o5.1[0], "llm_id") == Int(llmsNext)
      && Attr(o5.1[0], "tools") == List(ToolEntries(GetEnabled(tools)))
      && Factory.DeclaredClasses(Attr(o5.1[0], "tools")).Success?
  {
    var llms := SeedLlmOutcome([], llmsNext, CorrectedLlmSeedFields(cfg.llmPrompt)).1;
    SeedLlmCorrected(llmsNext, cfg.llmPrompt);
    SeedAgentSpec([], agentsNext, llms, tools, cfg.agentPrompt);
    var enabled := GetEnabled(tools);
    forall j | 0 <= j < |enabled| ensures Attr(enabled[j], "name").Str? {
      assert enabled[j] in tools;
      var i :| 0 <= i < |tools| && tools[i] == enabled[j];
      assert FromSeed(tools[i], seeds);
    }
    SeededToolsDecode(enabled);
  }

  /** As written, seeding never succeeds while the LLM table is empty: whatever the
      other tables hold, the run ends in an error before any agent is created. */
  lemma AsWrittenNeverSeedsLlm(db: Db, cfg: SeedConfig)
    requires db.llms.rows == []
    ensures var (r, after) := InitialDataOutcome(db, cfg, AsWritten(cfg));
      r.Failure? && after.llms.rows == [] && after.agents == db.agents
  {
    var plan := AsWritten(cfg);
    var o1 := SeedRoleOutcome(db.roles.rows, db.roles.nextId);
    var o2 := SeedAdminOutcome(db.users.rows, db.users.nextId, o1.1, cfg.adminEmail, cfg.passwordHash);
    var o3 := SeedToolOutcome(ToolSchema(), db.tools.rows, db.tools.nextId, plan.tools);
    var o4 := SeedLlmOutcome([], db.llms.nextId, LlmSeedFields(cfg.llmPrompt));
    SeedLlmMissingDisplayName(db.llms.nextId, cfg.llmPrompt);
    if o1.0.Success? && o2.0.Success? && o3.0.Success? {
      RunStopsAtLlm(db, cfg, plan, o1, o2, o3, o4);
    } else {
      RunFailsEarly(db, cfg, plan, o1, o2, o3);
    }
  }

  /** A run in which the role, administrator or tool seeder fails ends there and
      never reaches the LLM and agent tables. */
  lemma RunFailsEarly(db: Db, cfg: SeedConfig, plan: Plan, o1: Outcome, o2: Outcome, o3: Outcome)
    requires o1 == SeedRoleOutcome(db.roles.rows, db.roles.nextId)
    requires o2 == SeedAdminOutcome(db.users.rows, db.users.nextId, o1.1, cfg.adminEmail, cfg.passwordHash)
    requires o3 == SeedToolOutcome(ToolSchema(), db.tools.rows, db.tools.nextId, plan.tools)
    requires o1.0.Failure? || o2.0.Failure? || o3.0.Failure?
    ensures InitialDataOutcome(db, cfg, plan).0.Failure?
    ensures InitialDataOutcome(db, cfg, plan).1.llms == db.llms
    ensures InitialDataOutcome(db, cfg, plan).1.agents == db.agents
  {
  }

  /** After a successful run, running the seeding again, with any configuration,
      changes nothing: every seeder finds its records and adds none. */
  lemma SeedInitialDataRerun(db: Db, cfg: SeedConfig, cfg2: SeedConfig, plan: Plan)
    requires TableOk(ToolSchema(), db.tools.rows) && IdsBelow(db.tools.rows, db.tools.nextId)
    ensures InitialDataOutcome(db, cfg, plan).0.Success? ==>
      InitialDataOutcome(InitialDataOutcome(db, cfg, plan).1, cfg2, plan) == (Success(()), InitialDataOutcome(db, cfg, plan).1)
  {
    var o1 := SeedRoleOutcome(db.roles.rows, db.roles.nextId);
    var o2 := SeedAdminOutcome(db.users.rows, db.users.nextId, o1.1, cfg.adminEmail, cfg.passwordHash);
    var o3 := SeedToolOutcome(ToolSchema(), db.tools.rows, db.tools.nextId, plan.tools);
    var o4 := SeedLlmOutcome(db.llms.rows, db.llms.nextId, plan.llm);
    var o5 := SeedAgentOutcome(db.agents.rows, db.agents.nextId, o4.1, o3.1, cfg.agentPrompt);
    RunSuccessNeedsAll(db, cfg, plan, o1, o2, o3, o4, o5);
    if o1.0.Success? && o2.0.Success? && o3.0.Success? && o4.0.Success? && o5.0.Success? {
      RerunAfterSuccess(db, cfg, cfg2, plan, o1, o2, o3, o4, o5);
    }
  }

  /** The second run, seeder by seeder, after five successful seeders. */
  lemma RerunAfterSuccess(db: Db, cfg: SeedConfig, cfg2: SeedConfig, plan: Plan,
                          o1: Outcome, o2: Outcome, o3: Outcome, o4: Outcome, o5: Outcome)
    requires TableOk(ToolSchema(), db.tools.rows) && IdsBelow(db.tools.rows, db.tools.nextId)
    requires o1 == SeedRoleOutcome(db.roles.rows, db.roles.nextId) && o1.0.Success?
    requires o2 == SeedAdminOutcome(db.users.rows, db.users.nextId, o1.1, cfg.adminEmail, cfg.passwordHash) && o2.0.Success?
    requires o3 == SeedToolOutcome(ToolSchema(), db.tools.rows, db.tools.nextId, plan.tools) && o3.0.Success?
    requires o4 == SeedLlmOutcome(db.llms.rows, db.llms.nextId, plan.llm) && o4.0.Success?
    requires o5 == SeedAgentOutcome(db.agents.rows, db.agents.nextId, o4.1, o3.1, cfg.agentPrompt) && o5.0.Success?
    ensures InitialDataOutcome(db, cfg, plan).1 ==
      Db(Snapshot(o1.1, o1.2), Snapshot(o2.1, o2.2), Snapshot(o3.1, o3.2), Snapshot(o4.1, o4.2), Snapshot(o5.1, o5.2))
    ensures InitialDataOutcome(InitialDataOutcome(db, cfg, plan).1, cfg2, plan) == (Success(()), InitialDataOutcome(db, cfg, plan).1)
  {
    RunSucceeds(db, cfg, plan, o1, o2, o3, o4, o5);
    var after := Db(Snapshot(o1.1, o1.2), Snapshot(o2.1, o2.2), Snapshot(o3.1, o3.2), Snapshot(o4.1, o4.2), Snapshot(o5.1, o5.2));
    SecondRunIdle(db, cfg, cfg2, plan, o1, o2, o3, o4, o5);
    RunSucceeds(after, cfg2, plan, o1, o2, o3, o4, o5);
  }

  /** The run succeeds only when all five seeders do. */
  lemma RunSuccessNeedsAll(db: Db, cfg: SeedConfig, plan: Plan,
                           o1: Outcome, o2: Outcome, o3: Outcome, o4: Outcome, o5: Outcome)
    requires o1 == SeedRoleOutcome(db.roles.rows, db.roles.nextId)
    requires o2 == SeedAdminOutcome(db.users.rows, db.users.nextId, o1.1, cfg.adminEmail, cfg.passwordHash)
    requires o3 == SeedToolOutcome(ToolSchema(), db.tools.rows, db.tools.nextId, plan.tools)
    requires o4 == SeedLlmOutcome(db.llms.rows, db.llms.nextId, plan.llm)
    requires o5 == SeedAgentOutcome(db.agents.rows, db.agents.nextId, o4.1, o3.1, cfg.agentPrompt)
    ensures InitialDataOutcome(db, cfg, plan).0.Success? ==>
      o1.0.Success? && o2.0.Success? && o3.0.Success? && o4.0.Success? && o5.0.Success?
  {
  }

  /** After five successful seeders, each of them run again on the tables they left
      finds its records and returns what it returned before. */
  lemma SecondRunIdle(db: Db, cfg: SeedConfig, cfg2: SeedConfig, plan: Plan,
                      o1: Outcome, o2: Outcome, o3: Outcome, o4: Outcome, o5: Outcome)
    requires TableOk(ToolSchema(), db.tools.rows) && IdsBelow(db.tools.rows, db.tools.nextId)
    requires o1 == SeedRoleOutcome(db.roles.rows, db.roles.nextId) && o1.0.Success?
    requires o2 == SeedAdminOutcome(db.users.rows, db.users.nextId, o1.1, cfg.adminEmail, cfg.passwordHash) && o2.0.Success?
    requires o3 == SeedToolOutcome(ToolSchema(), db.tools.rows, db.tools.nextId, plan.tools) && o3.0.Success?
    requires o4 == SeedLlmOutcome(db.llms.rows, db.llms.nextId, plan.llm) && o4.0.Success?
    requires o5 == SeedAgentOutcome(db.agents.rows, db.agents.nextId, o4.1, o3.1, cfg.agentPrompt) && o5.0.Success?
    ensures SeedRoleOutcome(o1.1, o1.2) == (Success(()), o1.1, o1.2)
    ensures SeedAdminOutcome(o2.1, o2.2, o1.1, cfg2.adminEmail, cfg2.passwordHash) == (Success(()), o2.1, o2.2)
    ensures SeedToolOutcome(ToolSchema(), o3.1, o3.2, plan.tools) == (Success(()), o3.1, o3.2)
    ensures SeedLlmOutcome(o4.1, o4.2, plan.llm) == (Success(()), o4.1, o4.2)
    ensures SeedAgentOutcome(o5.1, o5.2, o4.1, o3.1, cfg2.agentPrompt) == (Success(()), o5.1, o5.2)
  {
    SeedAdminLeavesAdmin(db.users.rows, db.users.nextId, o1.1, cfg.adminEmail, cfg.passwordHash);
    SeedToolIdempotent(db.tools.rows, db.tools.nextId, plan.tools);
  }
}
