/**
 * `databases/seeds.py`: the start-up seeding of roles, the administrator, tools,
 * the default LLM and the default agent, run in that order in one session.
 *
 * Every seeder adds its records and commits; a failed flush rolls the session
 * back, so a seeder either commits all it added or nothing, and the exception ends
 * the seeding. Sequence values drawn by a rolled-back insert stay used. The
 * password hash, the administrator e-mail and the two prompts come from code that
 * is not part of this model and are parameters.
 */
module Seeds {
  import opened Wrappers
  import opened Values
  import opened Models
  import opened Tables
  import opened Crud
  import opened Converse
  import opened Factory
  import opened PyText

  /** What ends a seeder: a database error, or reading `.id` of a missing record
      (`AttributeError: 'NoneType' object has no attribute 'id'`). */
  datatype SeedError =
    | DbFailure(error: DbError)
    | NoneAttribute(attr: string)

  /** A table's records and the next value of its sequence. */
  datatype Snapshot = Snapshot(rows: seq<Row>, nextId: int)

  /** Every id in the table was drawn before `n`: the sequence is ahead of the records. */
  predicate IdBelow(r: Row, n: int) {
    match Attr(r, "id")
    case Int(i) => i < n
    case _ => true
  }

  predicate IdsBelow(rows: seq<Row>, n: int) {
    forall j | 0 <= j < |rows| :: IdBelow(rows[j], n)
  }

  // ---------------------------------------------------------------------------
  // Adding records and committing

  /** Flushing the records of `batch` from position `i` on, one after the other: the
      first error, the records and the sequence after the last attempted insert. */
  function AddAll(s: Schema, rows: seq<Row>, nextId: int, batch: seq<Fields>, i: nat): (out: (Option<DbError>, seq<Row>, int))
    requires i <= |batch|
    ensures out.0.None? ==> |out.1| == |rows| + |batch| - i && out.1[..|rows|] == rows
    decreases |batch| - i
  {
    if i == |batch| then (None, rows, nextId)
    else
      var (r, after, next) := InsertOutcome(s, rows, nextId, batch[i]);
      if r.Failure? then (Some(r.error), after, next)
      else AddAll(s, after, next, batch, i + 1)
  }

  /** `session.add_all(batch); await session.commit()`: all of the batch or, on an
      error, none of it. */
  function CommitOutcome(s: Schema, rows: seq<Row>, nextId: int, batch: seq<Fields>): (out: (Result<(), SeedError>, seq<Row>, int))
    ensures out.0.Failure? ==> out.1 == rows
    ensures out.0.Success? ==> |out.1| == |rows| + |batch| && out.1[..|rows|] == rows
  {
    var (e, after, next) := AddAll(s, rows, nextId, batch, 0);
    match e
    case Some(err) => (Failure(DbFailure(err)), rows, next)
    case None => (Success(()), after, next)
  }

  method Commit(t: Table, batch: seq<Fields>) returns (r: Result<(), SeedError>)
    modifies t
    ensures (r, t.rows, t.nextId) == CommitOutcome(t.schema, old(t.rows), old(t.nextId), batch)
    ensures old(t.Valid()) ==> t.Valid()
  {
    var saved := t.rows;
    var i := 0;
    while i < |batch|
      invariant 0 <= i <= |batch|
      invariant AddAll(t.schema, saved, old(t.nextId), batch, 0) == AddAll(t.schema, t.rows, t.nextId, batch, i)
      invariant old(t.Valid()) ==> t.Valid()
    {
      var res := t.Insert(batch[i]);
      if res.Failure? {
        t.rows := saved;
        return Failure(DbFailure(res.error));
      }
      i := i + 1;
    }
    r := Success(());
  }

  /** An insert that draws its id from a sequence ahead of the records, gives a value
      for every NOT NULL column without a default and clashes with no unique value
      succeeds, takes the next id and leaves the sequence ahead of the records. */
  lemma InsertFresh(s: Schema, rows: seq<Row>, nextId: int, fs: Fields)
    requires TableOk(s, rows) && IdsBelow(rows, nextId)
    requires forall k | 0 <= k < |fs| :: HasColumn(s, fs[k].key) && fs[k].value != Null
    requires DrawsId(fs)
    requires forall k | 1 <= k < |s.columns| && !s.columns[k].nullable ::
      s.columns[k].name in Keys(fs) || (s.columns[k].default.Some? && s.columns[k].default.value != Null)
    requires forall k | 1 <= k < |s.columns| && s.columns[k].unique ::
      !Taken(rows, -1, s.columns[k].name, InitialValue(s.columns[k], fs, nextId))
    ensures var (r, after, next) := InsertOutcome(s, rows, nextId, fs);
      && r.Success? && after == rows + [r.value] && next == nextId + 1
      && r.value == NewRow(s, fs, nextId) && Attr(r.value, "id") == Int(nextId)
      && TableOk(s, after) && IdsBelow(after, next)
  {
    forall j | 0 <= j < |rows| ensures Attr(rows[j], "id") != Int(nextId) {
      assert IdBelow(rows[j], nextId);
    }
    InsertSucceeds(s, rows, nextId, fs);
    InsertSpec(s, rows, nextId, fs);
    InsertKeepsOk(s, rows, nextId, fs);
    NewRowValue(s, fs, nextId, "id");
    var after := InsertOutcome(s, rows, nextId, fs).1;
    forall j | 0 <= j < |after| ensures IdBelow(after[j], nextId + 1) {
      if j < |rows| { assert after[j] == rows[j] && IdBelow(rows[j], nextId); }
    }
  }

  // ---------------------------------------------------------------------------
  // seed_role

  function RoleSeeds(): seq<Fields> {
    [ [Field("name", Str("admin")), Field("description", Str("Administrator with full access"))],
      [Field("name", Str("user")), Field("description", Str("Standard user with limited permissions"))] ]
  }

  /** `seed_role`: the two roles, only when the role table is empty. */
  function SeedRoleOutcome(rows: seq<Row>, nextId: int): (out: (Result<(), SeedError>, seq<Row>, int))
    ensures out.0.Failure? ==> out.1 == rows
    ensures out.0.Success? ==> out.1 != []
  {
    if rows != [] then (Success(()), rows, nextId)
    else CommitOutcome(RoleSchema(), rows, nextId, RoleSeeds())
  }

  method SeedRole(roles: Table) returns (r: Result<(), SeedError>)
    requires roles.schema == RoleSchema()
    modifies roles
    ensures (r, roles.rows, roles.nextId) == SeedRoleOutcome(old(roles.rows), old(roles.nextId))
    ensures old(roles.Valid()) ==> roles.Valid()
  {
    if roles.rows == [] {
      r := Commit(roles, RoleSeeds());
    } else {
      r := Success(());
    }
  }

  /** A table whose only required and only unique column, besides the key, is `name`. */
  predicate KeyedByName(s: Schema) {
    && WellFormed(s) && |s.columns| >= 2
    && s.columns[1] == RequiredUnique("name")
    && (forall k | 2 <= k < |s.columns| :: s.columns[k].nullable && !s.columns[k].unique)
  }

  /** Keyword arguments giving a name and one other non-NULL column. */
  predicate NameAndOne(s: Schema, fs: Fields) {
    && |fs| == 2 && fs[0].key == "name" && fs[1].key != "name" && fs[1].key != "id"
    && HasColumn(s, fs[1].key) && fs[0].value != Null && fs[1].value != Null
  }

  /** Such a record is accepted when no record has its name yet. */
  lemma InsertByName(s: Schema, rows: seq<Row>, nextId: int, fs: Fields)
    requires KeyedByName(s) && NameAndOne(s, fs)
    requires TableOk(s, rows) && IdsBelow(rows, nextId)
    requires forall j | 0 <= j < |rows| :: Attr(rows[j], "name") != fs[0].value
    ensures InsertOutcome(s, rows, nextId, fs).0.Success?
    ensures InsertOutcome(s, rows, nextId, fs).1 == rows + [InsertOutcome(s, rows, nextId, fs).0.value]
    ensures InsertOutcome(s, rows, nextId, fs).2 == nextId + 1
    ensures Attr(InsertOutcome(s, rows, nextId, fs).0.value, "id") == Int(nextId)
    ensures Attr(InsertOutcome(s, rows, nextId, fs).0.value, "name") == fs[0].value
    ensures Attr(InsertOutcome(s, rows, nextId, fs).0.value, fs[1].key) == fs[1].value
    ensures TableOk(s, InsertOutcome(s, rows, nextId, fs).1)
    ensures IdsBelow(InsertOutcome(s, rows, nextId, fs).1, nextId + 1)
  {
    LookupAt(fs, 0);
    LookupAt(fs, 1);
    assert ColumnNames(s.columns)[1] == "name";
    assert Keys(fs) == ["name", fs[1].key];
    InsertFresh(s, rows, nextId, fs);
    NewRowValue(s, fs, nextId, "name");
    NewRowValue(s, fs, nextId, fs[1].key);
  }

  /** Committing two such records with different names into an empty table. */
  lemma CommitTwoByName(s: Schema, nextId: int, a: Fields, b: Fields)
    requires KeyedByName(s) && NameAndOne(s, a) && NameAndOne(s, b) && a[0].value != b[0].value
    ensures CommitOutcome(s, [], nextId, [a, b]).0.Success?
    ensures CommitOutcome(s, [], nextId, [a, b]).2 == nextId + 2
    ensures |CommitOutcome(s, [], nextId, [a, b]).1| == 2
    ensures Attr(CommitOutcome(s, [], nextId, [a, b]).1[0], "name") == a[0].value
    ensures Attr(CommitOutcome(s, [], nextId, [a, b]).1[0], "id") == Int(nextId)
    ensures Attr(CommitOutcome(s, [], nextId, [a, b]).1[1], "name") == b[0].value
    ensures Attr(CommitOutcome(s, [], nextId, [a, b]).1[1], "id") == Int(nextId + 1)
    ensures TableOk(s, CommitOutcome(s, [], nextId, [a, b]).1)
    ensures IdsBelow(CommitOutcome(s, [], nextId, [a, b]).1, nextId + 2)
  {
    var batch := [a, b];
    assert TableOk(s, []);
    InsertByName(s, [], nextId, a);
    var o1 := InsertOutcome(s, [], nextId, a);
    assert o1.1 == [o1.0.value];
    InsertByName(s, o1.1, nextId + 1, b);
    var o2 := InsertOutcome(s, o1.1, nextId + 1, b);
    assert AddAll(s, [], nextId, batch, 0) == AddAll(s, o1.1, o1.2, batch, 1);
    assert AddAll(s, o1.1, o1.2, batch, 1) == AddAll(s, o2.1, o2.2, batch, 2);
  }

  /** On an empty role table `seed_role` commits exactly "admin" then "user", with
      the next two ids; on any other table it changes nothing. */
  lemma SeedRoleSpec(rows: seq<Row>, nextId: int)
    ensures rows != [] ==> SeedRoleOutcome(rows, nextId) == (Success(()), rows, nextId)
    ensures rows == [] ==>
      var (r, after, next) := SeedRoleOutcome(rows, nextId);
      && r.Success? && |after| == 2 && next == nextId + 2
      && Attr(after[0], "name") == Str("admin") && Attr(after[0], "id") == Int(nextId)
      && Attr(after[1], "name") == Str("user") && Attr(after[1], "id") == Int(nextId + 1)
      && TableOk(RoleSchema(), after) && IdsBelow(after, next)
  {
    if rows == [] {
      var s := RoleSchema();
      RoleWellFormed();
      RoleColumnFacts();
      assert ColumnNames(s.columns)[2] == "description";
      CommitTwoByName(s, nextId, RoleSeeds()[0], RoleSeeds()[1]);
    }
  }

  // ---------------------------------------------------------------------------
  // seed_admin

  function AdminFields(adminEmail: string, passwordHash: string, roleId: Value): Fields {
    [ Field("username", Str("administrator")), Field("email", Str(adminEmail)),
      Field("hashed_password", Str(passwordHash)), Field("fullname", Str("Administrator")),
      Field("role_id", roleId) ]
  }

  /** `seed_admin`: nothing when a user "administrator" exists; otherwise the
      administrator with the id of the first role named "admin", and an
      AttributeError when there is no such role. */
  function SeedAdminOutcome(users: seq<Row>, nextId: int, roles: seq<Row>, adminEmail: string, passwordHash: string)
    : (out: (Result<(), SeedError>, seq<Row>, int))
    ensures out.0.Failure? ==> out.1 == users
  {
    if First(users, "username", Str("administrator")).Some? then (Success(()), users, nextId)
    else
      match First(roles, "name", Str("admin"))
      case None => (Failure(NoneAttribute("id")), users, nextId)
      case Some(role) => CommitOutcome(UserSchema(), users, nextId, [AdminFields(adminEmail, passwordHash, Attr(role, "id"))])
  }

  method SeedAdmin(users: Table, roles: Table, adminEmail: string, passwordHash: string) returns (r: Result<(), SeedError>)
    requires users.schema == UserSchema() && roles.schema == RoleSchema()
    modifies users
    ensures (r, users.rows, users.nextId) == SeedAdminOutcome(old(users.rows), old(users.nextId), old(roles.rows), adminEmail, passwordHash)
    ensures old(users.Valid()) ==> users.Valid()
  {
    var admin := First(users.rows, "username", Str("administrator"));
    if admin.Some? {
      return Success(());
    }
    var role := First(roles.rows, "name", Str("admin"));
    if role.None? {
      return Failure(NoneAttribute("id"));
    }
    r := Commit(users, [AdminFields(adminEmail, passwordHash, Attr(role.value, "id"))]);
  }

  /** Committing one record: all of it or nothing. */
  lemma CommitOne(s: Schema, rows: seq<Row>, nextId: int, fs: Fields)
    requires WellFormed(s)
    ensures var (r, after, _) := CommitOutcome(s, rows, nextId, [fs]);
      && (r.Failure? ==> after == rows)
      && (r.Success? ==> InsertOutcome(s, rows, nextId, fs).0.Success? && after == rows + [InsertOutcome(s, rows, nextId, fs).0.value])
  {
    InsertSpec(s, rows, nextId, fs);
    var (r, after, next) := InsertOutcome(s, rows, nextId, fs);
    assert AddAll(s, after, next, [fs], 1) == (None, after, next);
    assert AddAll(s, rows, nextId, [fs], 0) == if r.Failure? then (Some(r.error), after, next) else (None, after, next);
  }

  /** An insert that succeeds was given a value for every NOT NULL column without a
      default. */
  lemma RequiredGiven(s: Schema, rows: seq<Row>, nextId: int, fs: Fields, k: nat)
    requires WellFormed(s) && 0 < k < |s.columns| && !s.columns[k].nullable && s.columns[k].default == None
    requires InsertOutcome(s, rows, nextId, fs).0.Success?
    ensures Given(fs, s.columns[k].name) != Null
  {
    var n := s.columns[k].name;
    var r := NewRow(s, fs, nextId);
    assert ColumnNames(s.columns)[k] == n;
    ColumnOfIndex(s, k);
    NewRowValue(s, fs, nextId, n);
    assert NullColumn(s.columns, r, 0).None?;
    assert Attr(r, n) != Null;
  }

  /** An existing administrator is left alone; a missing "admin" role is an error
      that adds nothing. */
  lemma SeedAdminSpec(users: seq<Row>, nextId: int, roles: seq<Row>, adminEmail: string, passwordHash: string)
    ensures (exists j | 0 <= j < |users| :: Attr(users[j], "username") == Str("administrator")) ==>
      SeedAdminOutcome(users, nextId, roles, adminEmail, passwordHash) == (Success(()), users, nextId)
    ensures (forall j | 0 <= j < |users| :: Attr(users[j], "username") != Str("administrator")) ==>
      (forall j | 0 <= j < |roles| :: Attr(roles[j], "name") != Str("admin")) ==>
      SeedAdminOutcome(users, nextId, roles, adminEmail, passwordHash) == (Failure(NoneAttribute("id")), users, nextId)
  {
  }

  /** Otherwise `seed_admin` commits exactly one user or nothing: "administrator",
      with the configured e-mail and password hash, the full name "Administrator"
      and the id of an "admin" role. */
  lemma SeedAdminAdds(users: seq<Row>, nextId: int, roles: seq<Row>, adminEmail: string, passwordHash: string)
    ensures var (r, after, _) := SeedAdminOutcome(users, nextId, roles, adminEmail, passwordHash);
      && (r.Failure? ==> after == users)
      && (r.Success? && after != users ==>
          exists role | role in roles && Attr(role, "name") == Str("admin") ::
            && |after| == |users| + 1 && after[..|users|] == users
            && Attr(after[|users|], "username") == Str("administrator")
            && Attr(after[|users|], "email") == Str(adminEmail)
            && Attr(after[|users|], "hashed_password") == Str(passwordHash)
            && Attr(after[|users|], "fullname") == Str("Administrator")
            && Attr(after[|users|], "role_id") == Attr(role, "id"))
  {
    if First(users, "username", Str("administrator")).None? {
      var role := First(roles, "name", Str("admin"));
      if role.Some? {
        UserColumnsNamed();
        AdminFieldsGiven(adminEmail, passwordHash, Attr(role.value, "id"));
        AdminCommitted(UserSchema(), users, nextId, AdminFields(adminEmail, passwordHash, Attr(role.value, "id")));
      }
    }
  }

  /** Committing the administrator's keyword arguments to a user table: nothing, or
      one appended record holding the given values, including the required role id. */
  lemma AdminCommitted(s: Schema, users: seq<Row>, nextId: int, fs: Fields)
    requires WellFormed(s) && |s.columns| > 6
    requires HasColumn(s, "username") && HasColumn(s, "email") && HasColumn(s, "hashed_password") && HasColumn(s, "fullname")
    requires s.columns[6].name == "role_id" && !s.columns[6].nullable && s.columns[6].default == None
    requires Given(fs, "username") != Null && Given(fs, "email") != Null
    requires Given(fs, "hashed_password") != Null && Given(fs, "fullname") != Null
    ensures var (r, after, _) := CommitOutcome(s, users, nextId, [fs]);
      && (r.Failure? ==> after == users)
      && (r.Success? ==>
          && |after| == |users| + 1 && after[..|users|] == users
          && Attr(after[|users|], "username") == Given(fs, "username")
          && Attr(after[|users|], "email") == Given(fs, "email")
          && Attr(after[|users|], "hashed_password") == Given(fs, "hashed_password")
          && Attr(after[|users|], "fullname") == Given(fs, "fullname")
          && Attr(after[|users|], "role_id") == Given(fs, "role_id"))
  {
    CommitOne(s, users, nextId, fs);
    var (r, after, _) := InsertOutcome(s, users, nextId, fs);
    if r.Success? {
      InsertSpec(s, users, nextId, fs);
      RequiredGiven(s, users, nextId, fs, 6);
      assert HasColumn(s, "role_id") by {
        assert ColumnNames(s.columns)[6] == "role_id";
      }
      assert after[..|users|] == users;
    }
  }

  /** The user table's columns that `seed_admin` sets, and its required role id. */
  lemma UserColumnsNamed()
    ensures WellFormed(UserSchema()) && |UserSchema().columns| > 6
    ensures HasColumn(UserSchema(), "username") && HasColumn(UserSchema(), "email")
    ensures HasColumn(UserSchema(), "hashed_password") && HasColumn(UserSchema(), "fullname")
    ensures UserSchema().columns[6].name == "role_id" && HasColumn(UserSchema(), "role_id")
    ensures !UserSchema().columns[6].nullable && UserSchema().columns[6].default == None
  {
    UserWellFormed();
    var names := ColumnNames(UserSchema().columns);
    assert names[1] == "username" && names[2] == "email" && names[3] == "hashed_password";
    assert names[4] == "fullname" && names[6] == "role_id";
  }

  /** After a successful `seed_admin` a user named "administrator" exists. */
  lemma SeedAdminLeavesAdmin(users: seq<Row>, nextId: int, roles: seq<Row>, adminEmail: string, passwordHash: string)
    ensures var (r, after, _) := SeedAdminOutcome(users, nextId, roles, adminEmail, passwordHash);
      r.Success? ==> exists j | 0 <= j < |after| :: Attr(after[j], "username") == Str("administrator")
  {
    if First(users, "username", Str("administrator")).None? {
      var role := First(roles, "name", Str("admin"));
      if role.Some? {
        var fs := AdminFields(adminEmail, passwordHash, Attr(role.value, "id"));
        UserColumnsNamed();
        AdminFieldsGiven(adminEmail, passwordHash, Attr(role.value, "id"));
        AdminCommitted(UserSchema(), users, nextId, fs);
        var (r, after, _) := CommitOutcome(UserSchema(), users, nextId, [fs]);
        if r.Success? {
          assert Attr(after[|users|], "username") == Str("administrator");
        }
      }
    }
  }

  /** The administrator's keyword arguments, with a role id, fit the user table:
      every keyword is a column, every NOT NULL column is given, the id is drawn. */
  lemma AdminFieldsFit(adminEmail: string, passwordHash: string, roleId: Value)
    requires roleId != Null
    ensures var fs := AdminFields(adminEmail, passwordHash, roleId);
      ColumnsGiven(UserSchema(), fs) && RequiredCovered(UserSchema(), fs) && DrawsId(fs)
  {
    var fs := AdminFields(adminEmail, passwordHash, roleId);
    assert Keys(fs) == ["username", "email", "hashed_password", "fullname", "role_id"];
    assert ColumnsGiven(UserSchema(), fs) by {
      UserColumnsNamed();
    }
    assert RequiredCovered(UserSchema(), fs) by {
      UserColumnFacts();
      var names := ColumnNames(UserSchema().columns);
      assert names[1] == "username" && names[2] == "email" && names[3] == "hashed_password" && names[6] == "role_id";
    }
  }

  /** On an empty user table, with an "admin" role stored, `seed_admin` commits the
      administrator as the only user, on the id of the first "admin" role. */
  lemma SeedAdminFresh(nextId: int, roles: seq<Row>, adminEmail: string, passwordHash: string)
    requires TableOk(RoleSchema(), roles)
    requires exists j | 0 <= j < |roles| :: Attr(roles[j], "name") == Str("admin")
    ensures var (r, after, next) := SeedAdminOutcome([], nextId, roles, adminEmail, passwordHash);
      && r.Success? && |after| == 1 && next == nextId + 1
      && Attr(after[0], "username") == Str("administrator") && Attr(after[0], "email") == Str(adminEmail)
      && Attr(after[0], "role_id") == Attr(First(roles, "name", Str("admin")).value, "id")
      && Attr(after[0], "role_id") != Null
      && TableOk(UserSchema(), after) && IdsBelow(after, next)
  {
    var k := FirstWhere(roles, "name", Str("admin")).value;
    var roleId := Attr(roles[k], "id");
    assert roleId != Null by {
      assert Shaped(RoleSchema(), roles[k]);
      assert !RoleSchema().columns[0].nullable;
    }
    var fs := AdminFields(adminEmail, passwordHash, roleId);
    AdminFieldsFit(adminEmail, passwordHash, roleId);
    assert WellFormed(UserSchema()) by { UserWellFormed(); }
    InsertIntoEmpty(UserSchema(), nextId, fs);
    assert Attr(NewRow(UserSchema(), fs, nextId), "username") == Str("administrator")
        && Attr(NewRow(UserSchema(), fs, nextId), "email") == Str(adminEmail)
        && Attr(NewRow(UserSchema(), fs, nextId), "role_id") == roleId by {
      UserColumnsNamed();
      AdminFieldsGiven(adminEmail, passwordHash, roleId);
      NewRowValue(UserSchema(), fs, nextId, "username");
      NewRowValue(UserSchema(), fs, nextId, "email");
      NewRowValue(UserSchema(), fs, nextId, "role_id");
    }
  }

  lemma AdminFieldsGiven(adminEmail: string, passwordHash: string, roleId: Value)
    ensures var fs := AdminFields(adminEmail, passwordHash, roleId);
      && Given(fs, "username") == Str("administrator") && Given(fs, "email") == Str(adminEmail)
      && Given(fs, "hashed_password") == Str(passwordHash) && Given(fs, "fullname") == Str("Administrator")
      && Given(fs, "role_id") == roleId
  {
    var fs := AdminFields(adminEmail, passwordHash, roleId);
    LookupAt(fs, 0);
    LookupAt(fs, 1);
    LookupAt(fs, 2);
    LookupAt(fs, 3);
    LookupAt(fs, 4);
  }

  // ---------------------------------------------------------------------------
  // seed_tool

  /** One `{"name": ..., "status": ...}` entry of the seeded tool list. */
  datatype ToolSeed = ToolSeed(name: string, status: string)
  {
    function Fields(): Fields {
      [Field("name", Str(name)), Field("status", Str(status))]
    }
  }

  /** The tool list `seed_tool` seeds, as written. */
  function ToolSeeds(): seq<ToolSeed> {
    [ ToolSeed("duckduckgo", "enable"), ToolSeed("arxiv", "enable"), ToolSeed("wikipedia", "enable"),
      ToolSeed("google_search", "disable"), ToolSeed("google_scholar", "disable"),
      ToolSeed("google_trend", "disable"), ToolSeed("asknews", "disable"), ToolSeed("reddit", "disable"),
      ToolSeed("searx", "disable"), ToolSeed("openweather", "disable") ]
  }

  /** The tool list with the sixth name spelled as the tool table's key. */
  function CorrectedToolSeeds(): seq<ToolSeed> {
    ToolSeeds()[5 := ToolSeed("google_trends", "disable")]
  }

  /** `select(ToolModel).where(ToolModel.name == name)` finds a record. */
  predicate Present(rows: seq<Row>, name: string) {
    FirstWhere(rows, "name", Str(name)).Some?
  }

  /** The tool table: keyed by name, with a `status` column. */
  predicate ToolShaped(s: Schema) {
    KeyedByName(s) && HasColumn(s, "status")
  }

  lemma ToolTableShaped()
    ensures ToolShaped(ToolSchema())
  {
    ToolWellFormed();
    ToolColumnFacts();
    assert ColumnNames(ToolSchema().columns)[3] == "status";
  }

  /** `for t in tools: if no tool has the name: session.add(ToolModel(**t))`, from
      position `i` on. Queries flush what was added before, so each check sees the
      records added earlier in the loop. */
  function SeedToolsFrom(s: Schema, seeds: seq<ToolSeed>, i: nat, rows: seq<Row>, nextId: int): (Option<DbError>, seq<Row>, int)
    requires i <= |seeds|
    decreases |seeds| - i
  {
    if i == |seeds| then (None, rows, nextId)
    else if Present(rows, seeds[i].name) then SeedToolsFrom(s, seeds, i + 1, rows, nextId)
    else
      var (r, after, next) := InsertOutcome(s, rows, nextId, seeds[i].Fields());
      if r.Failure? then (Some(r.error), after, next)
      else SeedToolsFrom(s, seeds, i + 1, after, next)
  }

  /** `seed_tool`: every listed tool that is not there yet, committed together. */
  function SeedToolOutcome(s: Schema, rows: seq<Row>, nextId: int, seeds: seq<ToolSeed>): (out: (Result<(), SeedError>, seq<Row>, int))
    ensures out.0.Failure? ==> out.1 == rows
  {
    var (e, after, next) := SeedToolsFrom(s, seeds, 0, rows, nextId);
    match e
    case Some(err) => (Failure(DbFailure(err)), rows, next)
    case None => (Success(()), after, next)
  }

  method SeedTool(tools: Table, seeds: seq<ToolSeed>) returns (r: Result<(), SeedError>)
    modifies tools
    ensures (r, tools.rows, tools.nextId) == SeedToolOutcome(tools.schema, old(tools.rows), old(tools.nextId), seeds)
    ensures old(tools.Valid()) ==> tools.Valid()
  {
    var saved := tools.rows;
    var i := 0;
    while i < |seeds|
      invariant 0 <= i <= |seeds|
      invariant SeedToolsFrom(tools.schema, seeds, 0, saved, old(tools.nextId)) == SeedToolsFrom(tools.schema, seeds, i, tools.rows, tools.nextId)
      invariant old(tools.Valid()) ==> tools.Valid()
    {
      ghost var before := (tools.rows, tools.nextId);
      if !Present(tools.rows, seeds[i].name) {
        var res := tools.Insert(seeds[i].Fields());
        if res.Failure? {
          tools.rows := saved;
          return Failure(DbFailure(res.error));
        }
      }
      assert SeedToolsFrom(tools.schema, seeds, i, before.0, before.1) == SeedToolsFrom(tools.schema, seeds, i + 1, tools.rows, tools.nextId);
      i := i + 1;
    }
    r := Success(());
  }

  /** The record carries the name and status of a listed entry. */
  predicate FromSeed(r: Row, seeds: seq<ToolSeed>) {
    exists t | t in seeds :: Attr(r, "name") == Str(t.name) && Attr(r, "status") == Str(t.status)
  }

  /** A successful insert of a seed entry appends one record with its name and status. */
  lemma ToolInserted(s: Schema, rows: seq<Row>, nextId: int, t: ToolSeed)
    requires ToolShaped(s)
    ensures var (r, after, _) := InsertOutcome(s, rows, nextId, t.Fields());
      r.Success? ==>
        && after == rows + [r.value]
        && Attr(r.value, "name") == Str(t.name) && Attr(r.value, "status") == Str(t.status)
  {
    var fs := t.Fields();
    InsertSpec(s, rows, nextId, fs);
    LookupAt(fs, 0);
    LookupAt(fs, 1);
    assert ColumnNames(s.columns)[1] == "name";
  }

  /** On a valid table the seeding loop never fails and keeps the table valid. */
  lemma {:induction false} SeedToolsFromOk(s: Schema, seeds: seq<ToolSeed>, i: nat, rows: seq<Row>, nextId: int)
    requires i <= |seeds| && ToolShaped(s)
    requires TableOk(s, rows) && IdsBelow(rows, nextId)
    ensures var (e, after, next) := SeedToolsFrom(s, seeds, i, rows, nextId);
      e.None? && TableOk(s, after) && IdsBelow(after, next)
    decreases |seeds| - i
  {
    if i < |seeds| {
      if Present(rows, seeds[i].name) {
        SeedToolsFromOk(s, seeds, i + 1, rows, nextId);
      } else {
        InsertByName(s, rows, nextId, seeds[i].Fields());
        var (_, rows1, next1) := InsertOutcome(s, rows, nextId, seeds[i].Fields());
        SeedToolsFromOk(s, seeds, i + 1, rows1, next1);
      }
    }
  }

  /** A loop that ends without error only appended records, each of them a listed
      entry. */
  lemma {:induction false} SeedToolsFromAppends(s: Schema, seeds: seq<ToolSeed>, i: nat, rows: seq<Row>, nextId: int)
    requires i <= |seeds| && ToolShaped(s)
    ensures var (e, after, _) := SeedToolsFrom(s, seeds, i, rows, nextId);
      e.None? ==>
        && |rows| <= |after| && after[..|rows|] == rows
        && forall j | |rows| <= j < |after| :: FromSeed(after[j], seeds)
    decreases |seeds| - i
  {
    if i < |seeds| && SeedToolsFrom(s, seeds, i, rows, nextId).0.None? {
      var rows1, next1 := SeedToolStep(s, seeds, i, rows, nextId);
      SeedToolsFromAppends(s, seeds, i + 1, rows1, next1);
      AppendedChain(rows, rows1, SeedToolsFrom(s, seeds, i + 1, rows1, next1).1, seeds);
    }
  }

  /** One step of the seeding loop that does not fail: the loop goes on from a table
      that is the old one, maybe with one listed entry appended. */
  lemma SeedToolStep(s: Schema, seeds: seq<ToolSeed>, i: nat, rows: seq<Row>, nextId: int)
    returns (rows1: seq<Row>, next1: int)
    requires i < |seeds| && ToolShaped(s)
    requires SeedToolsFrom(s, seeds, i, rows, nextId).0.None?
    ensures SeedToolsFrom(s, seeds, i, rows, nextId) == SeedToolsFrom(s, seeds, i + 1, rows1, next1)
    ensures |rows| <= |rows1| && rows1[..|rows|] == rows
    ensures forall j | |rows| <= j < |rows1| :: FromSeed(rows1[j], seeds)
  {
    var t := seeds[i];
    if Present(rows, t.name) {
      rows1, next1 := rows, nextId;
    } else {
      var out := InsertOutcome(s, rows, nextId, t.Fields());
      assert out.0.Success?;
      ToolAppended(s, rows, nextId, t, seeds);
      rows1, next1 := out.1, out.2;
    }
  }

  /** Inserting a listed entry appends one record that comes from the list. */
  lemma ToolAppended(s: Schema, rows: seq<Row>, nextId: int, t: ToolSeed, seeds: seq<ToolSeed>)
    requires ToolShaped(s) && t in seeds
    requires InsertOutcome(s, rows, nextId, t.Fields()).0.Success?
    ensures |rows| <= |InsertOutcome(s, rows, nextId, t.Fields()).1|
    ensures InsertOutcome(s, rows, nextId, t.Fields()).1[..|rows|] == rows
    ensures forall j | |rows| <= j < |InsertOutcome(s, rows, nextId, t.Fields()).1| ::
      FromSeed(InsertOutcome(s, rows, nextId, t.Fields()).1[j], seeds)
  {
    var (r, after, _) := InsertOutcome(s, rows, nextId, t.Fields());
    ToolInserted(s, rows, nextId, t);
    assert after == rows + [r.value];
    assert FromSeed(after[|rows|], seeds);
  }

  /** Appending twice, each time only listed entries, appends only listed entries. */
  lemma AppendedChain(rows: seq<Row>, mid: seq<Row>, after: seq<Row>, seeds: seq<ToolSeed>)
    requires |rows| <= |mid| && mid[..|rows|] == rows
    requires forall j | |rows| <= j < |mid| :: FromSeed(mid[j], seeds)
    requires |mid| <= |after| && after[..|mid|] == mid
    requires forall j | |mid| <= j < |after| :: FromSeed(after[j], seeds)
    ensures after[..|rows|] == rows
    ensures forall j | |rows| <= j < |after| :: FromSeed(after[j], seeds)
  {
    assert after[..|mid|][..|rows|] == after[..|rows|];
    forall j | |rows| <= j < |after| ensures FromSeed(after[j], seeds) {
      if j < |mid| {
        assert after[j] == after[..|mid|][j];
      }
    }
  }

  /** A record found by name is still found once records are appended. */
  lemma NameKept(rows: seq<Row>, after: seq<Row>, name: string)
    requires |rows| <= |after| && after[..|rows|] == rows
    requires Present(rows, name)
    ensures Present(after, name)
  {
    var j := FirstWhere(rows, "name", Str(name)).value;
    assert after[j] == after[..|rows|][j];
  }

  /** A loop that ends without error leaves every listed name from position `i` on
      in the table. */
  lemma {:induction false} SeedToolsFromListed(s: Schema, seeds: seq<ToolSeed>, i: nat, rows: seq<Row>, nextId: int)
    requires i <= |seeds| && ToolShaped(s)
    ensures SeedToolsFrom(s, seeds, i, rows, nextId).0.None? ==> ListedIn(SeedToolsFrom(s, seeds, i, rows, nextId).1, seeds, i)
    decreases |seeds| - i
  {
    if i < |seeds| {
      var t := seeds[i];
      var (r, rows1, next1) := InsertOutcome(s, rows, nextId, t.Fields());
      if Present(rows, t.name) {
        rows1, next1 := rows, nextId;
      } else if r.Success? {
        ToolInserted(s, rows, nextId, t);
        assert rows1[|rows|] == r.value;
      }
      if Present(rows, t.name) || r.Success? {
        assert SeedToolsFrom(s, seeds, i, rows, nextId) == SeedToolsFrom(s, seeds, i + 1, rows1, next1);
        assert Present(rows1, t.name);
        SeedToolsFromListed(s, seeds, i + 1, rows1, next1);
        var out := SeedToolsFrom(s, seeds, i + 1, rows1, next1);
        if out.0.None? {
          SeedToolsFromKeeps(s, seeds, i + 1, rows1, next1);
          NameKept(rows1, out.1, t.name);
          ListedFrom(out.1, seeds, i);
        }
      }
    }
  }

  /** Every listed name from position `i` on is in the table. */
  predicate ListedIn(rows: seq<Row>, seeds: seq<ToolSeed>, i: nat) {
    forall k | i <= k < |seeds| :: Present(rows, seeds[k].name)
  }

  lemma ListedFrom(rows: seq<Row>, seeds: seq<ToolSeed>, i: nat)
    requires i < |seeds| && Present(rows, seeds[i].name) && ListedIn(rows, seeds, i + 1)
    ensures ListedIn(rows, seeds, i)
  {
  }

  /** A loop that ends without error keeps the records that were there, in place. */
  lemma SeedToolsFromKeeps(s: Schema, seeds: seq<ToolSeed>, i: nat, rows: seq<Row>, nextId: int)
    requires i <= |seeds| && ToolShaped(s)
    requires SeedToolsFrom(s, seeds, i, rows, nextId).0.None?
    ensures |rows| <= |SeedToolsFrom(s, seeds, i, rows, nextId).1|
    ensures SeedToolsFrom(s, seeds, i, rows, nextId).1[..|rows|] == rows
  {
    SeedToolsFromAppends(s, seeds, i, rows, nextId);
  }

  /** When every listed name is already there, the loop changes nothing. */
  lemma {:induction false} SeedToolsFromPresent(s: Schema, seeds: seq<ToolSeed>, i: nat, rows: seq<Row>, nextId: int)
    requires i <= |seeds|
    requires forall k | i <= k < |seeds| :: Present(rows, seeds[k].name)
    ensures SeedToolsFrom(s, seeds, i, rows, nextId) == (None, rows, nextId)
    decreases |seeds| - i
  {
    if i < |seeds| {
      SeedToolsFromPresent(s, seeds, i + 1, rows, nextId);
    }
  }

  /** On a valid tool table `seed_tool` always succeeds: afterwards every listed name
      is there, the records that were there are kept unchanged and in place, and
      every added record carries the name and status of a listed entry. */
  lemma SeedToolSpec(rows: seq<Row>, nextId: int, seeds: seq<ToolSeed>)
    requires TableOk(ToolSchema(), rows) && IdsBelow(rows, nextId)
    ensures var (r, after, next) := SeedToolOutcome(ToolSchema(), rows, nextId, seeds);
      && r.Success? && TableOk(ToolSchema(), after) && IdsBelow(after, next)
      && |rows| <= |after| && after[..|rows|] == rows
      && (forall k | 0 <= k < |seeds| :: Present(after, seeds[k].name))
      && (forall j | |rows| <= j < |after| :: FromSeed(after[j], seeds))
  {
    ToolTableShaped();
    SeedToolsFromOk(ToolSchema(), seeds, 0, rows, nextId);
    SeedToolsFromAppends(ToolSchema(), seeds, 0, rows, nextId);
    SeedToolsFromListed(ToolSchema(), seeds, 0, rows, nextId);
  }

  /** `seed_tool` is idempotent: a second run after a successful one leaves the tool
      table and its sequence as the first run left them. */
  lemma SeedToolIdempotent(rows: seq<Row>, nextId: int, seeds: seq<ToolSeed>)
    requires TableOk(ToolSchema(), rows) && IdsBelow(rows, nextId)
    ensures var (r, after, next) := SeedToolOutcome(ToolSchema(), rows, nextId, seeds);
      r.Success? && SeedToolOutcome(ToolSchema(), after, next, seeds) == (Success(()), after, next)
  {
    ToolTableShaped();
    SeedToolsFromOk(ToolSchema(), seeds, 0, rows, nextId);
    SeedToolsFromListed(ToolSchema(), seeds, 0, rows, nextId);
    var (_, after, next) := SeedToolsFrom(ToolSchema(), seeds, 0, rows, nextId);
    SeedToolsFromPresent(ToolSchema(), seeds, 0, after, next);
  }

  /** The seeded statuses: exactly duckduckgo, arxiv and wikipedia are enabled. */
  lemma ToolSeedStatuses()
    ensures forall k | 0 <= k < |ToolSeeds()| ::
      (ToolSeeds()[k].status == "enable" <==> ToolSeeds()[k].name in {"duckduckgo", "arxiv", "wikipedia"})
    ensures forall k | 0 <= k < |ToolSeeds()| :: ToolSeeds()[k].status in {"enable", "disable"}
  {
  }

  /** As written, the seeded name "google_trend" is not a key of the tool table, so
      that record can never select a tool class; every other seeded name can. */
  lemma ToolSeedUnmapped()
    ensures ToolSeeds()[5].name == "google_trend" && ToolClassOf(ToolSeeds()[5].name) == None
    ensures forall k | 0 <= k < |ToolSeeds()| && k != 5 :: ToolClassOf(ToolSeeds()[k].name).Some?
  {
  }

  /** With the corrected spelling the seeded names are distinct. */
  lemma CorrectedToolSeedsDistinct()
    ensures |CorrectedToolSeeds()| == 10
    ensures forall a, b | 0 <= a < b < 10 :: CorrectedToolSeeds()[a].name != CorrectedToolSeeds()[b].name
  {
  }

  /** With the corrected spelling every seeded name selects a tool class and every
      tool class is seeded. */
  lemma CorrectedToolSeedsCoverMap()
    ensures |CorrectedToolSeeds()| == 10
    ensures forall k | 0 <= k < 10 :: CorrectedToolSeeds()[k].name in ToolClassMap()
    ensures forall n | n in ToolClassMap() :: exists k | 0 <= k < 10 :: CorrectedToolSeeds()[k].name == n
  {
    var cs := CorrectedToolSeeds();
    forall n | n in ToolClassMap() ensures exists k | 0 <= k < 10 :: cs[k].name == n {
      assert n in {"duckduckgo", "arxiv", "wikipedia", "google_search", "google_scholar",
                   "google_trends", "asknews", "reddit", "searx", "openweather"};
      if n == "duckduckgo" { assert cs[0].name == n; }
      else if n == "arxiv" { assert cs[1].name == n; }
      else if n == "wikipedia" { assert cs[2].name == n; }
      else if n == "google_search" { assert cs[3].name == n; }
      else if n == "google_scholar" { assert cs[4].name == n; }
      else if n == "google_trends" { assert cs[5].name == n; }
      else if n == "asknews" { assert cs[6].name == n; }
      else if n == "reddit" { assert cs[7].name == n; }
      else if n == "searx" { assert cs[8].name == n; }
      else { assert cs[9].name == n; }
    }
  }

  // ---------------------------------------------------------------------------
  // Inserting into an empty table, and a NOT NULL failure

  /** Every keyword is a column and carries a value. */
  predicate ColumnsGiven(s: Schema, fs: Fields) {
    forall k | 0 <= k < |fs| :: HasColumn(s, fs[k].key) && fs[k].value != Null
  }

  /** Every NOT NULL column is given a value or has a non-NULL default. */
  predicate RequiredCovered(s: Schema, fs: Fields) {
    forall k | 1 <= k < |s.columns| && !s.columns[k].nullable ::
      s.columns[k].name in Keys(fs) || (s.columns[k].default.Some? && s.columns[k].default.value != Null)
  }

  /** Into an empty table, a record that gives every NOT NULL column without a
      default is committed as the only record, with the next id. */
  lemma InsertIntoEmpty(s: Schema, nextId: int, fs: Fields)
    requires WellFormed(s) && ColumnsGiven(s, fs) && DrawsId(fs) && RequiredCovered(s, fs)
    ensures var (r, after, next) := CommitOutcome(s, [], nextId, [fs]);
      && r.Success? && after == [NewRow(s, fs, nextId)] && next == nextId + 1
      && TableOk(s, after) && IdsBelow(after, next)
  {
    assert TableOk(s, []);
    InsertFresh(s, [], nextId, fs);
    var (r, after, next) := InsertOutcome(s, [], nextId, fs);
    assert AddAll(s, after, next, [fs], 1) == (None, after, next);
  }

  lemma {:induction false} NullColumnAt(cols: seq<Column>, r: Row, i: nat, k: nat)
    requires i <= k < |cols|
    requires forall j | i <= j < k :: cols[j].nullable || Attr(r, cols[j].name) != Null
    requires !cols[k].nullable && Attr(r, cols[k].name) == Null
    ensures NullColumn(cols, r, i) == Some(k)
    decreases k - i
  {
    if i < k {
      NullColumnAt(cols, r, i + 1, k);
    }
  }

  /** An insert that leaves the NOT NULL column `k` without a value or a default, and
      every NOT NULL column before it set, fails on column `k`; the id it drew stays
      drawn. */
  lemma InsertNotNull(s: Schema, rows: seq<Row>, nextId: int, fs: Fields, k: nat)
    requires WellFormed(s) && 0 < k < |s.columns|
    requires ColumnsGiven(s, fs) && DrawsId(fs)
    requires forall j | 1 <= j < k :: s.columns[j].nullable || Given(fs, s.columns[j].name) != Null
    requires !s.columns[k].nullable && s.columns[k].default == None && Given(fs, s.columns[k].name) == Null
    ensures InsertOutcome(s, rows, nextId, fs) == (Failure(NotNullViolation(s.columns[k].name)), rows, nextId + 1)
    ensures CommitOutcome(s, rows, nextId, [fs]) == (Failure(DbFailure(NotNullViolation(s.columns[k].name))), rows, nextId + 1)
  {
    var r := NewRow(s, fs, nextId);
    forall j | 0 <= j <= k
      ensures j < k ==> s.columns[j].nullable || Attr(r, s.columns[j].name) != Null
      ensures j == k ==> Attr(r, s.columns[j].name) == Null
    {
      assert ColumnNames(s.columns)[j] == s.columns[j].name;
      ColumnOfIndex(s, j);
      NewRowValue(s, fs, nextId, s.columns[j].name);
    }
    NullColumnAt(s.columns, r, 0, k);
    assert AddAll(s, rows, nextId, [fs], 0) == (Some(NotNullViolation(s.columns[k].name)), rows, nextId + 1);
  }

  // ---------------------------------------------------------------------------
  // seed_llm

  /** The keyword arguments `seed_llm` builds the default LLM with, as written: they
      leave out the display name. */
  function LlmSeedFields(prompt: string): Fields {
    [ Field("name", Str("Claude Sonet 4.5")), Field("region", Str("ap-southeast-1")),
      Field("model_id", Str("global.anthropic.claude-sonnet-4-5-20250929-v1:0")),
      Field("model_max_tokens", Str("4096")), Field("model_temperature", Str("0.7")),
      Field("system_prompt", Str(prompt)) ]
  }

  /** The same arguments with the display name the `display_name` column requires. */
  function CorrectedLlmSeedFields(prompt: string): Fields {
    [ Field("name", Str("Claude Sonet 4.5")), Field("display_name", Str("Claude Sonet 4.5")),
      Field("region", Str("ap-southeast-1")),
      Field("model_id", Str("global.anthropic.claude-sonnet-4-5-20250929-v1:0")),
      Field("model_max_tokens", Str("4096")), Field("model_temperature", Str("0.7")),
      Field("system_prompt", Str(prompt)) ]
  }

  /** `seed_llm`: the default LLM, only when the LLM table is empty. */
  function SeedLlmOutcome(rows: seq<Row>, nextId: int, fields: Fields): (out: (Result<(), SeedError>, seq<Row>, int))
    ensures out.0.Failure? ==> out.1 == rows
    ensures out.0.Success? ==> out.1 != []
  {
    if rows != [] then (Success(()), rows, nextId)
    else CommitOutcome(LlmSchema(), rows, nextId, [fields])
  }

  method SeedLlm(llms: Table, fields: Fields) returns (r: Result<(), SeedError>)
    requires llms.schema == LlmSchema()
    modifies llms
    ensures (r, llms.rows, llms.nextId) == SeedLlmOutcome(old(llms.rows), old(llms.nextId), fields)
    ensures old(llms.Valid()) ==> llms.Valid()
  {
    if llms.rows == [] {
      r := Commit(llms, [fields]);
    } else {
      r := Success(());
    }
  }

  /** The LLM columns the seed names. */
  lemma LlmColumnsNamed()
    ensures WellFormed(LlmSchema())
    ensures HasColumn(LlmSchema(), "name") && HasColumn(LlmSchema(), "display_name")
    ensures HasColumn(LlmSchema(), "region") && HasColumn(LlmSchema(), "model_id")
    ensures HasColumn(LlmSchema(), "model_max_tokens") && HasColumn(LlmSchema(), "model_temperature")
    ensures HasColumn(LlmSchema(), "system_prompt") && HasColumn(LlmSchema(), "guardrail_id")
  {
    LlmWellFormed();
    var names := ColumnNames(LlmSchema().columns);
    assert names[1] == "name" && names[2] == "display_name" && names[6] == "region" && names[7] == "model_id";
    assert names[8] == "model_max_tokens" && names[9] == "model_temperature" && names[12] == "system_prompt";
    assert names[10] == "guardrail_id";
  }

  /** The name and display name columns come first and are required; the guardrail
      has no default. */
  lemma LlmLeadingColumns()
    ensures |LlmSchema().columns| == 15
    ensures LlmSchema().columns[1] == RequiredUnique("name")
    ensures LlmSchema().columns[2] == Required("display_name", StrCol)
    ensures DefaultOf(LlmSchema(), "guardrail_id") == None
  {
    LlmConstraints();
  }

  predicate LlmSeedKey(n: string) {
    n in {"name", "display_name", "region", "model_id", "model_max_tokens", "model_temperature", "system_prompt"}
  }

  /** A table with the seed's columns accepts all of its keywords. */
  lemma LlmSeedColumnsGiven(s: Schema, fs: Fields)
    requires HasColumn(s, "name") && HasColumn(s, "display_name")
    requires HasColumn(s, "region") && HasColumn(s, "model_id")
    requires HasColumn(s, "model_max_tokens") && HasColumn(s, "model_temperature")
    requires HasColumn(s, "system_prompt")
    requires forall k | 0 <= k < |fs| :: fs[k].value != Null && LlmSeedKey(fs[k].key)
    ensures ColumnsGiven(s, fs)
  {
  }

  /** As written, `seed_llm` on an empty LLM table always fails: the display name
      is NOT NULL and has no default. Nothing is stored; the id it drew is used up. */
  lemma SeedLlmMissingDisplayName(nextId: int, prompt: string)
    ensures SeedLlmOutcome([], nextId, LlmSeedFields(prompt)) ==
      (Failure(DbFailure(NotNullViolation("display_name"))), [], nextId + 1)
  {
    var s := LlmSchema();
    var fs := LlmSeedFields(prompt);
    assert ColumnsGiven(s, fs) by {
      LlmColumnsNamed();
      LlmSeedFieldsGiven(prompt);
      LlmSeedColumnsGiven(s, fs);
    }
    assert WellFormed(s) && |s.columns| == 15 by {
      LlmWellFormed();
      LlmLeadingColumns();
    }
    assert s.columns[1].name == "name" && !s.columns[2].nullable && s.columns[2].default == None
        && s.columns[2].name == "display_name" by {
      LlmLeadingColumns();
    }
    assert DrawsId(fs) && Given(fs, "name") != Null && Given(fs, "display_name") == Null by {
      LlmSeedFieldsGiven(prompt);
    }
    InsertNotNull(s, [], nextId, fs, 2);
  }

  lemma LlmSeedFieldsGiven(prompt: string)
    ensures var fs := LlmSeedFields(prompt);
      && Given(fs, "name") == Str("Claude Sonet 4.5") && Given(fs, "display_name") == Null && DrawsId(fs)
      && (forall k | 0 <= k < |fs| :: fs[k].value != Null && LlmSeedKey(fs[k].key))
  {
    var fs := LlmSeedFields(prompt);
    assert Keys(fs) == ["name", "region", "model_id", "model_max_tokens", "model_temperature", "system_prompt"];
    LookupAt(fs, 0);
  }

  /** With the display name given, `seed_llm` on an empty table stores the default
      LLM as the only record, with the next id, and the settings built from it are
      region "ap-southeast-1", the Claude Sonnet 4.5 model id, temperature "0.7",
      4096 tokens and no guardrail. */
  lemma SeedLlmCorrected(nextId: int, prompt: string)
    ensures var (r, after, next) := SeedLlmOutcome([], nextId, CorrectedLlmSeedFields(prompt));
      && r.Success? && |after| == 1 && next == nextId + 1
      && Attr(after[0], "id") == Int(nextId) && Attr(after[0], "name") == Str("Claude Sonet 4.5")
      && Attr(after[0], "system_prompt") == Str(prompt)
      && TableOk(LlmSchema(), after) && IdsBelow(after, next)
      && BuildConverse(after[0]) == Success(ConverseConfig(Str("ap-southeast-1"),
           Str("global.anthropic.claude-sonnet-4-5-20250929-v1:0"), Str("0.7"), 4096, None))
  {
    var s := LlmSchema();
    var fs := CorrectedLlmSeedFields(prompt);
    LlmColumnsNamed();
    LlmLeadingColumns();
    CorrectedLlmFieldsGiven(prompt);
    CorrectedLlmFieldsKeys(prompt);
    LlmSeedColumnsGiven(s, fs);
    LlmRequiredCovered(fs);
    InsertIntoEmpty(s, nextId, fs);
    LlmRowStored(s, fs, nextId);
    SeededLlmConverse(NewRow(s, fs, nextId));
  }

  lemma CorrectedLlmFieldsGiven(prompt: string)
    ensures var fs := CorrectedLlmSeedFields(prompt);
      && Given(fs, "name") == Str("Claude Sonet 4.5") && Given(fs, "region") == Str("ap-southeast-1")
      && Given(fs, "model_id") == Str("global.anthropic.claude-sonnet-4-5-20250929-v1:0")
      && Given(fs, "model_max_tokens") == Str("4096") && Given(fs, "model_temperature") == Str("0.7")
      && Given(fs, "system_prompt") == Str(prompt)
  {
    var fs := CorrectedLlmSeedFields(prompt);
    assert Given(fs, "name") == Str("Claude Sonet 4.5") by { LookupAt(fs, 0); }
    assert Given(fs, "region") == Str("ap-southeast-1") by { LookupAt(fs, 2); }
    assert Given(fs, "model_id") == Str("global.anthropic.claude-sonnet-4-5-20250929-v1:0") by { LookupAt(fs, 3); }
    assert Given(fs, "model_max_tokens") == Str("4096") by { LookupAt(fs, 4); }
    assert Given(fs, "model_temperature") == Str("0.7") by { LookupAt(fs, 5); }
    assert Given(fs, "system_prompt") == Str(prompt) by { LookupAt(fs, 6); }
  }

  lemma CorrectedLlmFieldsKeys(prompt: string)
    ensures var fs := CorrectedLlmSeedFields(prompt);
      && "name" in Keys(fs) && "display_name" in Keys(fs) && "model_id" in Keys(fs)
      && Given(fs, "guardrail_id") == Null && DrawsId(fs)
      && (forall k | 0 <= k < |fs| :: fs[k].value != Null && LlmSeedKey(fs[k].key))
  {
    var fs := CorrectedLlmSeedFields(prompt);
    assert Keys(fs) == ["name", "display_name", "region", "model_id", "model_max_tokens", "model_temperature", "system_prompt"];
  }

  /** Name, display name and model id given: every NOT NULL LLM column is covered. */
  lemma LlmRequiredCovered(fs: Fields)
    requires "name" in Keys(fs) && "display_name" in Keys(fs) && "model_id" in Keys(fs)
    ensures RequiredCovered(LlmSchema(), fs)
  {
    LlmWellFormed();
    LlmColumnFacts();
    var names := ColumnNames(LlmSchema().columns);
    assert names[1] == "name" && names[2] == "display_name" && names[7] == "model_id";
  }

  /** The stored default LLM holds the given settings and no guardrail. */
  lemma LlmRowStored(s: Schema, fs: Fields, nextId: int)
    requires WellFormed(s) && DrawsId(fs)
    requires HasColumn(s, "name") && HasColumn(s, "region") && HasColumn(s, "model_id")
    requires HasColumn(s, "model_max_tokens") && HasColumn(s, "model_temperature") && HasColumn(s, "system_prompt")
    requires Given(fs, "name") != Null && Given(fs, "region") != Null && Given(fs, "model_id") != Null
    requires Given(fs, "model_max_tokens") != Null && Given(fs, "model_temperature") != Null && Given(fs, "system_prompt") != Null
    requires HasColumn(s, "guardrail_id") && Given(fs, "guardrail_id") == Null && DefaultOf(s, "guardrail_id") == None
    ensures var row := NewRow(s, fs, nextId);
      && Attr(row, "id") == Int(nextId)
      && Attr(row, "name") == Given(fs, "name") && Attr(row, "region") == Given(fs, "region")
      && Attr(row, "model_id") == Given(fs, "model_id") && Attr(row, "model_max_tokens") == Given(fs, "model_max_tokens")
      && Attr(row, "model_temperature") == Given(fs, "model_temperature")
      && Attr(row, "system_prompt") == Given(fs, "system_prompt")
      && Attr(row, "guardrail_id") == Null
  {
    NewRowValue(s, fs, nextId, "id");
    NewRowValue(s, fs, nextId, "guardrail_id");
    NewRowValue(s, fs, nextId, "name");
    NewRowValue(s, fs, nextId, "region");
    NewRowValue(s, fs, nextId, "model_id");
    NewRowValue(s, fs, nextId, "model_max_tokens");
    NewRowValue(s, fs, nextId, "model_temperature");
    NewRowValue(s, fs, nextId, "system_prompt");
  }

  lemma SeededLlmConverse(llm: Row)
    requires Attr(llm, "region") == Str("ap-southeast-1")
    requires Attr(llm, "model_id") == Str("global.anthropic.claude-sonnet-4-5-20250929-v1:0")
    requires Attr(llm, "model_temperature") == Str("0.7") && Attr(llm, "model_max_tokens") == Str("4096")
    requires Attr(llm, "guardrail_id") == Null
    ensures BuildConverse(llm) == Success(ConverseConfig(Str("ap-southeast-1"),
      Str("global.anthropic.claude-sonnet-4-5-20250929-v1:0"), Str("0.7"), 4096, None))
  {
    assert ShowInt(4096) == "4096";
    MaxTokensRoundTrip(llm, 4096);
  }

  // ---------------------------------------------------------------------------
  // seed_agent

  /** `[{"id": t.id, "name": t.name} for t in enabled_tools]`. */
  function ToolEntries(ts: seq<Row>): (items: seq<Value>)
    ensures |items| == |ts|
  {
    seq(|ts|, j requires 0 <= j < |ts| => Dict(map["id" := Attr(ts[j], "id"), "name" := Attr(ts[j], "name")]))
  }

  function AgentSeedFields(llmId: Value, prompt: string, tools: seq<Row>): Fields {
    [ Field("name", Str("Yang-Agent")), Field("llm_id", llmId), Field("system_prompt", Str(prompt)),
      Field("tools", List(ToolEntries(tools))) ]
  }

  /** `seed_agent`: only when the agent table is empty, the agent "Yang-Agent" on
      the first LLM with every enabled tool; an AttributeError when there is no LLM. */
  function SeedAgentOutcome(agents: seq<Row>, nextId: int, llms: seq<Row>, tools: seq<Row>, prompt: string)
    : (out: (Result<(), SeedError>, seq<Row>, int))
    ensures out.0.Failure? ==> out.1 == agents
    ensures out.0.Success? ==> out.1 != []
  {
    if agents != [] then (Success(()), agents, nextId)
    else if llms == [] then (Failure(NoneAttribute("id")), agents, nextId)
    else CommitOutcome(AgentSchema(), agents, nextId, [AgentSeedFields(Attr(llms[0], "id"), prompt, GetEnabled(tools))])
  }

  method SeedAgent(agents: Table, llms: Table, tools: Table, prompt: string) returns (r: Result<(), SeedError>)
    requires agents.schema == AgentSchema()
    modifies agents
    ensures (r, agents.rows, agents.nextId) == SeedAgentOutcome(old(agents.rows), old(agents.nextId), old(llms.rows), old(tools.rows), prompt)
    ensures old(agents.Valid()) ==> agents.Valid()
  {
    if agents.rows != [] {
      return Success(());
    }
    if llms.rows == [] {
      return Failure(NoneAttribute("id"));
    }
    var llm := llms.rows[0];
    var enabled := GetEnabled(tools.rows);
    r := Commit(agents, [AgentSeedFields(Attr(llm, "id"), prompt, enabled)]);
  }

  lemma AgentFieldsGiven(llmId: Value, prompt: string, tools: seq<Row>)
    ensures var fs := AgentSeedFields(llmId, prompt, tools);
      && Keys(fs) == ["name", "llm_id", "system_prompt", "tools"]
      && Given(fs, "name") == Str("Yang-Agent") && Given(fs, "llm_id") == llmId
      && Given(fs, "system_prompt") == Str(prompt) && Given(fs, "tools") == List(ToolEntries(tools))
      && DrawsId(fs)
  {
    var fs := AgentSeedFields(llmId, prompt, tools);
    LookupAt(fs, 0);
    LookupAt(fs, 1);
    LookupAt(fs, 2);
    LookupAt(fs, 3);
    assert Keys(fs) == ["name", "llm_id", "system_prompt", "tools"];
  }

  lemma AgentColumnsNamed()
    ensures KeyedByName(AgentSchema())
    ensures HasColumn(AgentSchema(), "llm_id") && HasColumn(AgentSchema(), "system_prompt") && HasColumn(AgentSchema(), "tools")
  {
    AgentWellFormed();
    AgentColumnFacts();
    var names := ColumnNames(AgentSchema().columns);
    assert names[3] == "llm_id" && names[4] == "system_prompt" && names[5] == "tools";
  }

  /** On an empty agent table with at least one stored LLM, `seed_agent` stores
      exactly one agent: "Yang-Agent", on the first LLM's id, with the configured
      prompt and an `{id, name}` entry for every enabled tool. Without an LLM it
      fails and stores nothing; with an agent present it changes nothing. */
  lemma SeedAgentSpec(agents: seq<Row>, nextId: int, llms: seq<Row>, tools: seq<Row>, prompt: string)
    requires TableOk(LlmSchema(), llms)
    ensures agents != [] ==> SeedAgentOutcome(agents, nextId, llms, tools, prompt) == (Success(()), agents, nextId)
    ensures agents == [] && llms == [] ==>
      SeedAgentOutcome(agents, nextId, llms, tools, prompt) == (Failure(NoneAttribute("id")), agents, nextId)
    ensures agents == [] && llms != [] ==>
      var (r, after, next) := SeedAgentOutcome(agents, nextId, llms, tools, prompt);
      && r.Success? && |after| == 1 && next == nextId + 1
      && Attr(after[0], "id") == Int(nextId) && Attr(after[0], "name") == Str("Yang-Agent")
      && Attr(after[0], "llm_id") == Attr(llms[0], "id")
      && Attr(after[0], "system_prompt") == Str(prompt)
      && Attr(after[0], "tools") == List(ToolEntries(GetEnabled(tools)))
      && TableOk(AgentSchema(), after) && IdsBelow(after, next)
  {
    if agents == [] && llms != [] {
      var s := AgentSchema();
      var llmId := Attr(llms[0], "id");
      assert llmId != Null by {
        assert Shaped(LlmSchema(), llms[0]);
        assert !LlmSchema().columns[0].nullable;
      }
      var fs := AgentSeedFields(llmId, prompt, GetEnabled(tools));
      AgentColumnsNamed();
      AgentFieldsGiven(llmId, prompt, GetEnabled(tools));
      assert ColumnsGiven(s, fs);
      assert RequiredCovered(s, fs);
      InsertIntoEmpty(s, nextId, fs);
      NewRowValue(s, fs, nextId, "id");
      NewRowValue(s, fs, nextId, "name");
      NewRowValue(s, fs, nextId, "llm_id");
      NewRowValue(s, fs, nextId, "system_prompt");
      NewRowValue(s, fs, nextId, "tools");
    }
  }

  /** The tool list `seed_agent` stores is read back by `AgentFactory.agent` as the
      classes of the enabled tool records, in order: the `{id, name}` entries round-
      trip through the agent's JSON column. */
  lemma SeededToolsDecode(ts: seq<Row>)
    requires forall j | 0 <= j < |ts| :: Attr(ts[j], "name").Str?
    ensures DeclaredClasses(List(ToolEntries(ts))).Success?
    ensures forall j | 0 <= j < |ts| :: DeclaredClasses(List(ToolEntries(ts))).value[j] == RecordClass(ts[j])
  {
    var items := ToolEntries(ts);
    EntriesDecode(ts, 0);
    assert DeclaredClasses(List(items)) == EntriesClasses(items, 0);
  }

  lemma {:induction false} EntriesDecode(ts: seq<Row>, i: nat)
    requires i <= |ts|
    requires forall j | 0 <= j < |ts| :: Attr(ts[j], "name").Str?
    ensures EntriesClasses(ToolEntries(ts), i).Success?
    ensures forall j | i <= j < |ts| :: EntriesClasses(ToolEntries(ts), i).value[j - i] == RecordClass(ts[j])
    decreases |ts| - i
  {
    if i < |ts| {
      EntriesDecode(ts, i + 1);
      var items := ToolEntries(ts);
      assert EntryName(items[i]) == Success(Attr(ts[i], "name"));
    }
  }
}
