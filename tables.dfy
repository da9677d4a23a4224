/**
 * The ORM table semantics the CRUD layer relies on: constructing a record from
 * keyword arguments (`Model(**data)`), committing it (`db.add` + `db.commit`),
 * `setattr` updates, deletes and `select(...).where(column == value)` queries.
 *
 * A table is the sequence of its records in insertion order, plus the next value
 * of its primary-key sequence.
 */
module Tables {
  import opened Wrappers
  import opened Values
  import opened Models

  /** What a failed create or update raises. */
  datatype DbError =
    | InvalidKeyword(key: string, model: string)  // TypeError from the model constructor
    | NotNullViolation(column: string)            // IntegrityError: NULL in a NOT NULL column
    | UniqueViolation(column: string)             // IntegrityError: duplicate in a unique column

  predicate HasColumn(s: Schema, n: string) {
    n in ColumnNames(s.columns)
  }

  /** The first keyword, in argument order, that is not a column of `s`. */
  function FirstInvalidKey(s: Schema, fs: Fields, i: nat): (r: Option<string>)
    requires i <= |fs|
    ensures r.None? <==> forall k | i <= k < |fs| :: HasColumn(s, fs[k].key)
    ensures r.Some? ==> !HasColumn(s, r.value) && exists k | i <= k < |fs| :: fs[k].key == r.value
    decreases |fs| - i
  {
    if i == |fs| then None
    else if !HasColumn(s, fs[i].key) then Some(fs[i].key)
    else FirstInvalidKey(s, fs, i + 1)
  }

  /** The value given for column `n`; an absent keyword and an explicit `None` are alike. */
  function Given(fs: Fields, n: string): Value {
    Lookup(fs, n).GetOr(Null)
  }

  /** Does the insert draw its primary key from the table's sequence? */
  predicate DrawsId(fs: Fields) {
    Given(fs, "id") == Null
  }

  /** The value a new record holds in column `c`: the value given for it; otherwise
      the next sequence value for the primary key, the column default for the others,
      or NULL. */
  function InitialValue(c: Column, fs: Fields, id: int): Value {
    if Given(fs, c.name) != Null then Given(fs, c.name)
    else if c.name == "id" then Int(id)
    else c.default.GetOr(Null)
  }

  /** The record an insert of `fs` writes when the sequence stands at `id`. */
  function NewRow(s: Schema, fs: Fields, id: int): Row {
    map n | n in ColumnNames(s.columns) :: InitialValue(ColumnOf(s, n).value, fs, id)
  }

  /** The position of the first NOT NULL column, at or after `i`, that `r` leaves NULL. */
  function NullColumn(cols: seq<Column>, r: Row, i: nat): (k: Option<nat>)
    requires i <= |cols|
    ensures k.Some? ==> i <= k.value < |cols| && !cols[k.value].nullable && Attr(r, cols[k.value].name) == Null
    ensures k.None? <==> forall j | i <= j < |cols| :: cols[j].nullable || Attr(r, cols[j].name) != Null
    decreases |cols| - i
  {
    if i == |cols| then None
    else if !cols[i].nullable && Attr(r, cols[i].name) == Null then Some(i)
    else NullColumn(cols, r, i + 1)
  }

  /** Does a record other than the one at position `skip` already hold the non-NULL
      value `v` in `column`? */
  predicate Taken(rows: seq<Row>, skip: int, column: string, v: Value) {
    v != Null && exists j | 0 <= j < |rows| && j != skip :: Attr(rows[j], column) == v
  }

  /** The position of the first unique column, at or after `i`, whose value in `r` is taken. */
  function TakenColumn(cols: seq<Column>, rows: seq<Row>, r: Row, skip: int, i: nat): (k: Option<nat>)
    requires i <= |cols|
    ensures k.Some? ==> i <= k.value < |cols| && cols[k.value].unique && Taken(rows, skip, cols[k.value].name, Attr(r, cols[k.value].name))
    ensures k.None? <==> forall j | i <= j < |cols| :: !cols[j].unique || !Taken(rows, skip, cols[j].name, Attr(r, cols[j].name))
    decreases |cols| - i
  {
    if i == |cols| then None
    else if cols[i].unique && Taken(rows, skip, cols[i].name, Attr(r, cols[i].name)) then Some(i)
    else TakenColumn(cols, rows, r, skip, i + 1)
  }

  /** The constraint the database rejects `r` for, when it is stored at position
      `skip` (or appended, when `skip` is -1): NOT NULL is checked before uniqueness. */
  function Violation(s: Schema, rows: seq<Row>, r: Row, skip: int): Option<DbError> {
    match NullColumn(s.columns, r, 0)
    case Some(k) => Some(NotNullViolation(s.columns[k].name))
    case None =>
      match TakenColumn(s.columns, rows, r, skip, 0)
      case Some(k) => Some(UniqueViolation(s.columns[k].name))
      case None => None
  }

  /** No two records share a non-NULL value in `column`. */
  predicate Distinct(rows: seq<Row>, column: string) {
    forall a, b | 0 <= a < |rows| && 0 <= b < |rows| && a != b ::
      Attr(rows[a], column) == Null || Attr(rows[a], column) != Attr(rows[b], column)
  }

  /** A stored record has exactly the columns of its table, none of its NOT NULL ones NULL. */
  ghost predicate Shaped(s: Schema, r: Row) {
    && (forall n :: n in r <==> n in ColumnNames(s.columns))
    && (forall k | 0 <= k < |s.columns| && !s.columns[k].nullable :: Attr(r, s.columns[k].name) != Null)
  }

  /** The table invariant the database maintains: well-shaped records and unique
      columns without duplicates. */
  ghost predicate TableOk(s: Schema, rows: seq<Row>) {
    && WellFormed(s)
    && (forall j | 0 <= j < |rows| :: Shaped(s, rows[j]))
    && (forall k | 0 <= k < |s.columns| && s.columns[k].unique :: Distinct(rows, s.columns[k].name))
  }

  // ---------------------------------------------------------------------------
  // Queries

  /** `select(Model).where(Model.column == v)`, first result; comparing with `None`
      becomes `IS NULL`, so the comparison is plain equality of values. */
  function FirstWhere(rows: seq<Row>, column: string, v: Value): (k: Option<nat>)
    ensures k.Some? ==> k.value < |rows| && Attr(rows[k.value], column) == v
    ensures k.Some? ==> forall j | 0 <= j < k.value :: Attr(rows[j], column) != v
    ensures k.None? <==> forall j | 0 <= j < |rows| :: Attr(rows[j], column) != v
  {
    FirstFrom(rows, column, v, 0)
  }

  function FirstFrom(rows: seq<Row>, column: string, v: Value, i: nat): (k: Option<nat>)
    requires i <= |rows|
    ensures k.Some? ==> i <= k.value < |rows| && Attr(rows[k.value], column) == v
    ensures k.Some? ==> forall j | i <= j < k.value :: Attr(rows[j], column) != v
    ensures k.None? <==> forall j | i <= j < |rows| :: Attr(rows[j], column) != v
    decreases |rows| - i
  {
    if i == |rows| then None
    else if Attr(rows[i], column) == v then Some(i)
    else FirstFrom(rows, column, v, i + 1)
  }

  /** `.scalars().first()` of that query. */
  function First(rows: seq<Row>, column: string, v: Value): (r: Option<Row>)
    ensures r.Some? <==> exists j | 0 <= j < |rows| :: Attr(rows[j], column) == v
    ensures r.Some? ==> r.value in rows && Attr(r.value, column) == v
  {
    match FirstWhere(rows, column, v)
    case Some(k) => Some(rows[k])
    case None => None
  }

  /** `.scalars().all()` of that query, in table order. */
  function AllWhere(rows: seq<Row>, column: string, v: Value): (out: seq<Row>)
    ensures |out| <= |rows|
    ensures forall r | r in out :: r in rows && Attr(r, column) == v
    ensures forall j | 0 <= j < |rows| && Attr(rows[j], column) == v :: rows[j] in out
  {
    if rows == [] then []
    else
      var init := AllWhere(rows[..|rows| - 1], column, v);
      var last := rows[|rows| - 1];
      assert forall j | 0 <= j < |rows| - 1 :: rows[j] == rows[..|rows| - 1][j];
      if Attr(last, column) == v then init + [last] else init
  }

  // ---------------------------------------------------------------------------
  // Changes

  /** The outcome of `db.add(Model(**fs)); db.commit()`: the result, the table
      afterwards and the sequence afterwards. A rejected keyword fails before any SQL
      runs; a constraint violation rolls the insert back but the sequence value it
      drew stays used. */
  function InsertOutcome(s: Schema, rows: seq<Row>, nextId: int, fs: Fields): (out: (Result<Row, DbError>, seq<Row>, int))
    ensures out.0.Success? ==> out.1 == rows + [out.0.value]
    ensures out.0.Failure? ==> out.1 == rows
  {
    match FirstInvalidKey(s, fs, 0)
    case Some(key) => (Failure(InvalidKeyword(key, s.model)), rows, nextId)
    case None =>
      var next := if DrawsId(fs) then nextId + 1 else nextId;
      var r := NewRow(s, fs, nextId);
      match Violation(s, rows, r, -1)
      case Some(e) => (Failure(e), rows, next)
      case None => (Success(r), rows + [r], next)
  }

  /** `for key, value in updates.items(): setattr(record, key, value)`. A key that is
      not a column only sets a plain Python attribute, which is never stored. */
  function SetAttrs(s: Schema, r: Row, fs: Fields): Row
    decreases |fs|
  {
    if fs == [] then r
    else
      var before := SetAttrs(s, r, fs[..|fs| - 1]);
      var f := fs[|fs| - 1];
      if HasColumn(s, f.key) then before[f.key := f.value] else before
  }

  /** The outcome of the `update_*` functions: `Success(None)` when no record has the
      id, otherwise the updated record, or the error that rolled the update back. */
  function UpdateOutcome(s: Schema, rows: seq<Row>, id: int, fs: Fields): (Result<Option<Row>, DbError>, seq<Row>) {
    match FirstWhere(rows, "id", Int(id))
    case None => (Success(None), rows)
    case Some(k) =>
      var r := SetAttrs(s, rows[k], fs);
      match Violation(s, rows, r, k)
      case Some(e) => (Failure(e), rows)
      case None => (Success(Some(r)), rows[k := r])
  }

  /** The outcome of the `delete_*` functions: `true` for their `True`, `false` for
      their `None`, and the table afterwards. */
  function DeleteOutcome(rows: seq<Row>, id: int): (bool, seq<Row>) {
    match FirstWhere(rows, "id", Int(id))
    case None => (false, rows)
    case Some(k) => (true, Without(rows, k))
  }

  /** The table with the record at position `k` removed. */
  function Without(rows: seq<Row>, k: nat): seq<Row>
    requires k < |rows|
  {
    rows[..k] + rows[k + 1..]
  }

  /** A child table after the session deletes the parent record `id` through a
      relationship without a delete cascade: every child that pointed at the parent
      through the foreign key `column` keeps its other columns and has the key set
      to NULL; the other records stay as they were. */
  function Orphaned(rows: seq<Row>, column: string, id: int): (after: seq<Row>)
    ensures |after| == |rows|
    ensures forall j | 0 <= j < |rows| :: Attr(after[j], column) != Int(id)
    ensures forall j | 0 <= j < |rows| && Attr(rows[j], column) != Int(id) :: after[j] == rows[j]
    ensures forall j | 0 <= j < |rows| && Attr(rows[j], column) == Int(id) ::
      && Attr(after[j], column) == Null
      && after[j].Keys == rows[j].Keys
      && (forall n | n != column :: Attr(after[j], n) == Attr(rows[j], n))
  {
    seq(|rows|, j requires 0 <= j < |rows| =>
      if Attr(rows[j], column) == Int(id) then rows[j][column := Null] else rows[j])
  }

  // ---------------------------------------------------------------------------
  // Properties of the outcomes

  lemma NewRowShape(s: Schema, fs: Fields, id: int)
    ensures forall n :: n in NewRow(s, fs, id) <==> n in ColumnNames(s.columns)
  {
  }

  /** The value a new record holds in each column. */
  lemma NewRowValue(s: Schema, fs: Fields, id: int, n: string)
    requires WellFormed(s) && HasColumn(s, n)
    ensures n == "id" ==> NewRow(s, fs, id)[n] == (if DrawsId(fs) then Int(id) else Given(fs, n))
    ensures n != "id" && Given(fs, n) != Null ==> NewRow(s, fs, id)[n] == Given(fs, n)
    ensures n != "id" && Given(fs, n) == Null ==> NewRow(s, fs, id)[n] == DefaultOf(s, n).GetOr(Null)
  {
  }

  /** A create either fails and leaves the table as it was, or appends exactly one
      record, which it returns; the record holds every value given for a column and
      the column's default (or NULL) for the others. An unknown keyword is always
      rejected. */
  lemma InsertSpec(s: Schema, rows: seq<Row>, nextId: int, fs: Fields)
    requires WellFormed(s)
    ensures var (r, after, _) := InsertOutcome(s, rows, nextId, fs);
      && (r.Failure? ==> after == rows)
      && (r.Success? ==> after == rows + [r.value] && r.value == NewRow(s, fs, nextId))
    ensures (exists k | 0 <= k < |fs| :: !HasColumn(s, fs[k].key)) ==>
      InsertOutcome(s, rows, nextId, fs).0.Failure? && InsertOutcome(s, rows, nextId, fs).0.error.InvalidKeyword?
    ensures InsertOutcome(s, rows, nextId, fs).0.Success? ==>
      forall n | HasColumn(s, n) && n != "id" && Given(fs, n) != Null :: InsertOutcome(s, rows, nextId, fs).0.value[n] == Given(fs, n)
  {
    var (r, after, _) := InsertOutcome(s, rows, nextId, fs);
    if r.Success? {
      forall n | HasColumn(s, n) && n != "id" && Given(fs, n) != Null
        ensures r.value[n] == Given(fs, n)
      {
        NewRowValue(s, fs, nextId, n);
      }
    }
  }

  /** Conditions under which a create is accepted: every keyword is a column and
      carries a value, the new id is free, every NOT NULL column is given or has a
      default, and no unique column clashes. */
  lemma InsertSucceeds(s: Schema, rows: seq<Row>, nextId: int, fs: Fields)
    requires WellFormed(s)
    requires forall k | 0 <= k < |fs| :: HasColumn(s, fs[k].key) && fs[k].value != Null
    requires DrawsId(fs)
    requires forall j | 0 <= j < |rows| :: Attr(rows[j], "id") != Int(nextId)
    requires forall k | 1 <= k < |s.columns| && !s.columns[k].nullable ::
      s.columns[k].name in Keys(fs) || (s.columns[k].default.Some? && s.columns[k].default.value != Null)
    requires forall k | 1 <= k < |s.columns| && s.columns[k].unique ::
      !Taken(rows, -1, s.columns[k].name, InitialValue(s.columns[k], fs, nextId))
    ensures InsertOutcome(s, rows, nextId, fs).0.Success?
    ensures InsertOutcome(s, rows, nextId, fs).2 == nextId + 1
  {
    var cols := s.columns;
    var r := NewRow(s, fs, nextId);
    assert FirstInvalidKey(s, fs, 0).None?;
    forall k | 0 <= k < |cols| ensures Attr(r, cols[k].name) == InitialValue(cols[k], fs, nextId) {
      ColumnOfIndex(s, k);
    }
    forall k | 0 <= k < |cols| && !cols[k].nullable ensures Attr(r, cols[k].name) != Null {
      if k > 0 && cols[k].name in Keys(fs) {
        GivenNotNull(fs, cols[k].name);
      }
    }
    assert NullColumn(cols, r, 0).None?;
    assert TakenColumn(cols, rows, r, -1, 0).None?;
  }

  /** When no keyword carries None, a given key has a non-NULL value. */
  lemma GivenNotNull(fs: Fields, key: string)
    requires forall k | 0 <= k < |fs| :: fs[k].value != Null
    requires key in Keys(fs)
    ensures Given(fs, key) != Null
  {
    LookupFrom(fs, key, |fs|);
  }

  /** A record that passes the constraint checks keeps the table invariant when it is
      appended. */
  lemma {:induction false} AppendKeepsOk(s: Schema, rows: seq<Row>, r: Row)
    requires TableOk(s, rows)
    requires forall n :: n in r <==> n in ColumnNames(s.columns)
    requires Violation(s, rows, r, -1).None?
    ensures TableOk(s, rows + [r])
  {
    var cols := s.columns;
    var after := rows + [r];
    assert NullColumn(cols, r, 0).None?;
    assert TakenColumn(cols, rows, r, -1, 0).None?;
    assert Shaped(s, r);
    forall j | 0 <= j < |after| ensures Shaped(s, after[j]) {
      if j < |rows| { assert after[j] == rows[j]; }
    }
    forall k | 0 <= k < |cols| && cols[k].unique ensures Distinct(after, cols[k].name) {
      var c := cols[k].name;
      assert Distinct(rows, c);
      assert !Taken(rows, -1, c, Attr(r, c));
      forall a, b | 0 <= a < |after| && 0 <= b < |after| && a != b
        ensures Attr(after[a], c) == Null || Attr(after[a], c) != Attr(after[b], c)
      {
        if a == |rows| {
          assert after[b] == rows[b];
        } else if b == |rows| {
          assert after[a] == rows[a];
        } else {
          assert after[a] == rows[a] && after[b] == rows[b];
        }
      }
    }
  }

  /** Creates keep the table invariant. */
  lemma InsertKeepsOk(s: Schema, rows: seq<Row>, nextId: int, fs: Fields)
    requires TableOk(s, rows)
    ensures TableOk(s, InsertOutcome(s, rows, nextId, fs).1)
  {
    if FirstInvalidKey(s, fs, 0).None? {
      var r := NewRow(s, fs, nextId);
      if Violation(s, rows, r, -1).None? {
        NewRowShape(s, fs, nextId);
        AppendKeepsOk(s, rows, r);
      }
    }
  }

  /** `setattr` leaves the set of stored columns alone and gives each column named in
      the update its last value there. */
  lemma {:induction false} SetAttrsSpec(s: Schema, r: Row, fs: Fields, n: string)
    ensures n in SetAttrs(s, r, fs) <==> n in r || (HasColumn(s, n) && n in Keys(fs))
    ensures HasColumn(s, n) && n in Keys(fs) ==> SetAttrs(s, r, fs)[n] == Lookup(fs, n).value
    ensures !(HasColumn(s, n) && n in Keys(fs)) ==> Attr(SetAttrs(s, r, fs), n) == Attr(r, n)
    decreases |fs|
  {
    if fs != [] {
      var init := fs[..|fs| - 1];
      assert Keys(fs) == Keys(init) + [fs[|fs| - 1].key];
      LookupPrefix(fs, n, |fs| - 1, |fs| - 1);
      SetAttrsSpec(s, r, init, n);
    }
  }

  /** An update stores exactly the column values it is given: every column named in
      the update holds its last given value, every other column and every other
      record is unchanged. An unknown id, or a rejected update, changes nothing. */
  lemma UpdateSpec(s: Schema, rows: seq<Row>, id: int, fs: Fields)
    ensures var (r, after) := UpdateOutcome(s, rows, id, fs);
      && (r.Success? && r.value.None? <==> forall j | 0 <= j < |rows| :: Attr(rows[j], "id") != Int(id))
      && (r.Failure? || r.value.None? ==> after == rows)
    ensures var (r, after) := UpdateOutcome(s, rows, id, fs);
      r.Success? && r.value.Some? ==>
        exists k | 0 <= k < |rows| :: && Attr(rows[k], "id") == Int(id)
          && after == rows[k := r.value.value]
          && (forall n | HasColumn(s, n) && n in Keys(fs) :: Attr(r.value.value, n) == Lookup(fs, n).value)
          && (forall n | !(HasColumn(s, n) && n in Keys(fs)) :: Attr(r.value.value, n) == Attr(rows[k], n))
  {
    var (r, after) := UpdateOutcome(s, rows, id, fs);
    if r.Success? && r.value.Some? {
      var k := FirstWhere(rows, "id", Int(id)).value;
      forall n ensures (HasColumn(s, n) && n in Keys(fs) ==> Attr(r.value.value, n) == Lookup(fs, n).value)
        && (!(HasColumn(s, n) && n in Keys(fs)) ==> Attr(r.value.value, n) == Attr(rows[k], n))
      {
        SetAttrsSpec(s, rows[k], fs, n);
      }
    }
  }

  /** Updates keep the table invariant. */
  lemma {:induction false} UpdateKeepsOk(s: Schema, rows: seq<Row>, id: int, fs: Fields)
    requires TableOk(s, rows)
    ensures TableOk(s, UpdateOutcome(s, rows, id, fs).1)
  {
    var found := FirstWhere(rows, "id", Int(id));
    if found.Some? {
      var k := found.value;
      var r := SetAttrs(s, rows[k], fs);
      if Violation(s, rows, r, k).None? {
        var cols := s.columns;
        var after := rows[k := r];
        assert NullColumn(cols, r, 0).None?;
        assert TakenColumn(cols, rows, r, k, 0).None?;
        forall n ensures n in r <==> n in ColumnNames(cols) {
          SetAttrsSpec(s, rows[k], fs, n);
        }
        assert Shaped(s, r);
        forall j | 0 <= j < |after| ensures Shaped(s, after[j]) {
          if j != k { assert after[j] == rows[j]; }
        }
        forall i | 0 <= i < |cols| && cols[i].unique ensures Distinct(after, cols[i].name) {
          var c := cols[i].name;
          assert Distinct(rows, c);
          assert !Taken(rows, k, c, Attr(r, c));
          forall a, b | 0 <= a < |after| && 0 <= b < |after| && a != b
            ensures Attr(after[a], c) == Null || Attr(after[a], c) != Attr(after[b], c)
          {
            if a == k {
              assert after[b] == rows[b];
            } else if b == k {
              assert after[a] == rows[a];
            } else {
              assert after[a] == rows[a] && after[b] == rows[b];
            }
          }
        }
      }
    }
  }

  /** Under the table invariant at most one record holds a given id. */
  lemma IdIsKey(s: Schema, rows: seq<Row>, id: int, a: nat, b: nat)
    requires TableOk(s, rows)
    requires a < |rows| && b < |rows| && Attr(rows[a], "id") == Int(id) && Attr(rows[b], "id") == Int(id)
    ensures a == b
  {
    assert s.columns[0].unique && s.columns[0].name == "id";
    assert Distinct(rows, "id");
  }

  /** A delete on an unknown id returns None and changes nothing; otherwise it
      returns True, removes one record and keeps every record with another id. */
  lemma DeleteSpec(rows: seq<Row>, id: int)
    ensures var (found, after) := DeleteOutcome(rows, id);
      && (found <==> exists j | 0 <= j < |rows| :: Attr(rows[j], "id") == Int(id))
      && (!found ==> after == rows)
      && (found ==> |after| == |rows| - 1)
      && (forall r | r in rows && Attr(r, "id") != Int(id) :: r in after)
  {
    var (found, after) := DeleteOutcome(rows, id);
    if found {
      var k := FirstWhere(rows, "id", Int(id)).value;
      RemoveAt(rows, k);
      forall r | r in rows && Attr(r, "id") != Int(id) ensures r in after {
        var i :| 0 <= i < |rows| && rows[i] == r;
        assert i != k;
        if i < k { assert after[i] == r; } else { assert after[i - 1] == r; }
      }
    }
  }

  /** Under the table invariant a delete leaves no record with the deleted id, and
      keeps the invariant. */
  lemma DeleteKeepsOk(s: Schema, rows: seq<Row>, id: int)
    requires TableOk(s, rows)
    ensures forall r | r in DeleteOutcome(rows, id).1 :: Attr(r, "id") != Int(id)
    ensures TableOk(s, DeleteOutcome(rows, id).1)
  {
    var (found, after) := DeleteOutcome(rows, id);
    if found {
      var k := FirstWhere(rows, "id", Int(id)).value;
      RemoveAt(rows, k);
      assert s.columns[0].unique && s.columns[0].name == "id";
      assert Distinct(rows, "id");
      forall r | r in after ensures Attr(r, "id") != Int(id) {
        var j :| 0 <= j < |after| && after[j] == r;
        assert after[j] == rows[if j < k then j else j + 1];
      }
      forall i | 0 <= i < |s.columns| && s.columns[i].unique ensures Distinct(after, s.columns[i].name) {
        assert Distinct(rows, s.columns[i].name);
      }
    }
  }

  /** Detaching the children keeps the table invariant when the foreign key is a
      nullable column: NULL never clashes in a unique column. */
  lemma OrphanedKeepsOk(s: Schema, rows: seq<Row>, column: string, id: int)
    requires TableOk(s, rows)
    requires ColumnOf(s, column).Some? && ColumnOf(s, column).value.nullable
    ensures TableOk(s, Orphaned(rows, column, id))
  {
    var after := Orphaned(rows, column, id);
    forall k | 0 <= k < |s.columns| && !s.columns[k].nullable
      ensures s.columns[k].name != column
    {
      ColumnOfIndex(s, k);
    }
    forall j | 0 <= j < |after| ensures Shaped(s, after[j]) {
      assert Shaped(s, rows[j]);
    }
    forall i | 0 <= i < |s.columns| && s.columns[i].unique ensures Distinct(after, s.columns[i].name) {
      var c := s.columns[i].name;
      assert Distinct(rows, c);
      forall a, b | 0 <= a < |after| && 0 <= b < |after| && a != b && Attr(after[a], c) != Null
        ensures Attr(after[a], c) != Attr(after[b], c)
      {
        assert Attr(after[a], c) == Attr(rows[a], c);
        assert Attr(after[b], c) == Attr(rows[b], c) || Attr(after[b], c) == Null;
      }
    }
  }

  lemma RemoveAt(rows: seq<Row>, k: nat)
    requires k < |rows|
    ensures |Without(rows, k)| == |rows| - 1
    ensures forall j | 0 <= j < k :: Without(rows, k)[j] == rows[j]
    ensures forall j | k <= j < |rows| - 1 :: Without(rows, k)[j] == rows[j + 1]
  {
  }

  // ---------------------------------------------------------------------------
  // A table as the session changes it

  /** One table of the database: its committed records in insertion order and the
      next value of its primary-key sequence. */
  class Table {
    const schema: Schema
    var rows: seq<Row>
    var nextId: int

    ghost predicate Valid()
      reads this
    {
      TableOk(schema, rows)
    }

    /** A freshly created, empty table whose sequence starts at 1. */
    constructor (s: Schema)
      requires WellFormed(s)
      ensures schema == s && rows == [] && nextId == 1
      ensures Valid()
    {
      schema := s;
      rows := [];
      nextId := 1;
    }

    /** `db.add(Model(**fs)); await db.commit(); await db.refresh(record)`. */
    method Insert(fs: Fields) returns (r: Result<Row, DbError>)
      modifies this
      ensures (r, rows, nextId) == InsertOutcome(schema, old(rows), old(nextId), fs)
      ensures old(Valid()) ==> Valid()
    {
      ghost var before := rows;
      ghost var id := nextId;
      var bad := FirstInvalidKey(schema, fs, 0);
      if bad.Some? {
        return Failure(InvalidKeyword(bad.value, schema.model));
      }
      var record := NewRow(schema, fs, nextId);
      if DrawsId(fs) {
        nextId := nextId + 1;
      }
      var e := Violation(schema, rows, record, -1);
      if e.Some? {
        return Failure(e.value);
      }
      rows := rows + [record];
      r := Success(record);
      if TableOk(schema, before) {
        InsertKeepsOk(schema, before, id, fs);
      }
    }

    /** The `update_*` functions: look the record up by id, `setattr` each update entry
        in order, then commit. */
    method Update(id: int, fs: Fields) returns (r: Result<Option<Row>, DbError>)
      modifies this
      ensures (r, rows) == UpdateOutcome(schema, old(rows), id, fs)
      ensures nextId == old(nextId)
      ensures old(Valid()) ==> Valid()
    {
      ghost var before := rows;
      var found := FirstWhere(rows, "id", Int(id));
      if found.None? {
        return Success(None);
      }
      var k := found.value;
      var record := rows[k];
      var i := 0;
      while i < |fs|
        invariant 0 <= i <= |fs|
        invariant record == SetAttrs(schema, rows[k], fs[..i])
      {
        assert fs[..i + 1][..i] == fs[..i];
        if HasColumn(schema, fs[i].key) {
          record := record[fs[i].key := fs[i].value];
        }
        i := i + 1;
      }
      assert fs[..|fs|] == fs;
      var e := Violation(schema, rows, record, k);
      if e.Some? {
        return Failure(e.value);
      }
      rows := rows[k := record];
      r := Success(Some(record));
      if TableOk(schema, before) {
        UpdateKeepsOk(schema, before, id, fs);
      }
    }

    /** What the session does to this table, as the child side of a relationship
        without a delete cascade, when it deletes the parent record `id`: the
        children's foreign key `column` becomes NULL. */
    method Orphan(column: string, id: int)
      modifies this
      ensures rows == Orphaned(old(rows), column, id)
      ensures nextId == old(nextId)
      ensures old(Valid()) && ColumnOf(schema, column).Some? && ColumnOf(schema, column).value.nullable ==> Valid()
    {
      ghost var before := rows;
      rows := Orphaned(rows, column, id);
      if TableOk(schema, before) && ColumnOf(schema, column).Some? && ColumnOf(schema, column).value.nullable {
        OrphanedKeepsOk(schema, before, column, id);
      }
    }

    /** The `delete_*` functions: `true` when a record with the id was deleted (their
        `True`), `false` when there was none (their `None`). */
    method Delete(id: int) returns (deleted: bool)
      modifies this
      ensures (deleted, rows) == DeleteOutcome(old(rows), id)
      ensures nextId == old(nextId)
      ensures old(Valid()) ==> Valid()
    {
      ghost var before := rows;
      var found := FirstWhere(rows, "id", Int(id));
      if found.None? {
        return false;
      }
      rows := Without(rows, found.value);
      deleted := true;
      if TableOk(schema, before) {
        DeleteKeepsOk(schema, before, id);
      }
    }
  }
}
