/** sqlite_cache.py: the local SQLite cache of Alma users and of the LibCal
    bookings already sent to PassagePoint. A database file is modelled by its
    two tables, each of which may be missing; a table is the set of rows it
    holds, indexed by the text of their primary key. */
module SqliteCache {
  import opened Py

  /** A row of `users`, as `dict(row)` returns it. */
  datatype UserRow = UserRow(primaryId: Json, barcode: Json, visitorId: Json)

  /** A row of `appts`, as `dict(row)` returns it. */
  datatype ApptRow = ApptRow(apptId: Json, preregId: Json)

  /** A table whose primary key is a TEXT column. SQLite lets such a key be
      NULL, and NULL keys never collide nor match, so those rows are kept
      apart from the indexed ones. */
  datatype Table<R> = Table(keyed: map<string, R>, unkeyed: multiset<R>)

  /** The database file as found on disk. */
  datatype DbFile = DbFile(users: Option<Table<UserRow>>, appts: Option<Table<ApptRow>>)

  const UserColumns: seq<string> := ["primary_id", "barcode", "visitor_id"]
  const ApptColumns: seq<string> := ["appt_id", "prereg_id"]

  function EmptyTable<R>(): Table<R> {
    Table(map[], multiset{})
  }

  // ---- parameter binding and column affinity ----

  /** Values the sqlite3 module has an adapter for (floats and bytes are
      not modelled). */
  predicate SqlType(v: Json) {
    v.JNull? || v.JBool? || v.JInt? || v.JStr?
  }

  /** SQLite integers are signed 64-bit. */
  predicate Int64(i: int) {
    -0x8000_0000_0000_0000 <= i < 0x8000_0000_0000_0000
  }

  /** Values that bind to a placeholder: an SQL type, and an integer only
      within 64 bits. */
  predicate Bindable(v: Json) {
    SqlType(v) && (v.JInt? ==> Int64(v.i))
  }

  /** What binding an unbindable value raises: OverflowError for an integer
      too large for SQLite, ProgrammingError for an unsupported type (the
      error kinds of Python 3.11 and later; earlier versions raise
      InterfaceError for the latter). */
  function BindError(v: Json): (e: Exc)
    ensures !Bindable(v) ==> (e == OverflowError <==> v.JInt? && !Int64(v.i))
    ensures !Bindable(v) ==> (e == ProgrammingError <==> !SqlType(v))
  {
    if SqlType(v) then OverflowError else ProgrammingError
  }

  /** What a TEXT column stores for a bound value: integers (and booleans,
      which bind as 0 and 1) become their decimal text. */
  function TextAffinity(v: Json): Json {
    match v
    case JInt(i) => JStr(IntToStr(i))
    case JBool(b) => JStr(if b then "1" else "0")
    case _ => v
  }

  /** The primary-key text a bound value is stored and compared as; None for NULL. */
  function Key(v: Json): Option<string> {
    match TextAffinity(v)
    case JStr(s) => Some(s)
    case _ => None
  }

  /** What binding the value for placeholder `n` from the dict `m` raises,
      if it fails: a missing name is a ProgrammingError. */
  function NamedError(m: map<string, Json>, n: string): Exc {
    if n !in m then ProgrammingError else BindError(m[n])
  }

  /** Placeholder `i` is the first of `names` that `m` cannot bind. */
  predicate FirstUnboundName(m: map<string, Json>, names: seq<string>, i: int) {
    && 0 <= i < |names|
    && (forall j :: 0 <= j < i ==> names[j] in m && Bindable(m[names[j]]))
    && !(names[i] in m && Bindable(m[names[i]]))
  }

  /** Named binding takes the placeholders in order and raises for the first
      one that fails. */
  function BindNamed(m: map<string, Json>, names: seq<string>): (r: Result<seq<Json>>)
    ensures r.Ok? <==> forall n :: n in names ==> n in m && Bindable(m[n])
    ensures r.Ok? ==> |r.value| == |names| && forall i :: 0 <= i < |names| ==> r.value[i] == m[names[i]]
    ensures r.Err? ==> r.error == ProgrammingError || r.error == OverflowError
  {
    if names == [] then Ok([])
    else if names[0] !in m || !Bindable(m[names[0]]) then Err(NamedError(m, names[0]))
    else
      var rest :- BindNamed(m, names[1..]);
      Ok([m[names[0]]] + rest)
  }

  /** The error named binding raises is that of the first placeholder that fails. */
  lemma {:induction false} BindNamedFirstError(m: map<string, Json>, names: seq<string>, i: int)
    requires FirstUnboundName(m, names, i)
    ensures BindNamed(m, names) == Err(NamedError(m, names[i]))
    decreases |names|
  {
    if i > 0 {
      assert FirstUnboundName(m, names[1..], i - 1);
      BindNamedFirstError(m, names[1..], i - 1);
    }
  }

  /** Element `i` is the first of `xs` that cannot be bound. */
  predicate FirstUnbindable(xs: seq<Json>, i: int) {
    && 0 <= i < |xs|
    && (forall j :: 0 <= j < i ==> Bindable(xs[j]))
    && !Bindable(xs[i])
  }

  /** Binds a sequence element by element, raising for the first element
      that fails. */
  function BindEach(xs: seq<Json>): (r: Result<seq<Json>>)
    ensures r.Ok? <==> forall i :: 0 <= i < |xs| ==> Bindable(xs[i])
    ensures r.Ok? ==> r.value == xs
    ensures r.Err? ==> r.error == ProgrammingError || r.error == OverflowError
  {
    if xs == [] then Ok([])
    else if !Bindable(xs[0]) then Err(BindError(xs[0]))
    else
      var rest :- BindEach(xs[1..]);
      assert xs == [xs[0]] + xs[1..];
      Ok([xs[0]] + rest)
  }

  /** The error element-wise binding raises is that of the first element that fails. */
  lemma {:induction false} BindEachFirstError(xs: seq<Json>, i: int)
    requires FirstUnbindable(xs, i)
    ensures BindEach(xs) == Err(BindError(xs[i]))
    decreases |xs|
  {
    if i > 0 {
      assert FirstUnbindable(xs[1..], i - 1);
      BindEachFirstError(xs[1..], i - 1);
    }
  }

  /** Positional binding: the number of values must match the placeholders
      (a ProgrammingError before anything is bound), then each value binds
      in order. */
  function BindPositional(xs: seq<Json>, n: nat): (r: Result<seq<Json>>)
    ensures r.Ok? <==> |xs| == n && forall i :: 0 <= i < |xs| ==> Bindable(xs[i])
    ensures r.Ok? ==> r.value == xs
    ensures |xs| != n ==> r == Err(ProgrammingError)
    ensures r.Err? ==> r.error == ProgrammingError || r.error == OverflowError
  {
    if |xs| != n then Err(ProgrammingError) else BindEach(xs)
  }

  /** With the right number of values, positional binding raises the error of
      the first value that fails. */
  lemma BindPositionalFirstError(xs: seq<Json>, n: nat, i: int)
    requires |xs| == n && FirstUnbindable(xs, i)
    ensures BindPositional(xs, n) == Err(BindError(xs[i]))
  {
    BindEachFirstError(xs, i);
  }

  /** Binding `params` to the named placeholders `names`: a dict binds by
      name, any other sequence (a list, or a string's characters) binds by
      position, and nothing else binds. */
  function BindParams(params: Json, names: seq<string>): (r: Result<seq<Json>>)
    ensures r.Ok? ==> |r.value| == |names| && forall i :: 0 <= i < |names| ==> Bindable(r.value[i])
    ensures r.Err? ==> r.error == ProgrammingError || r.error == OverflowError
    ensures params.JObj? ==>
      && (r.Ok? <==> forall n :: n in names ==> n in params.fields && Bindable(params.fields[n]))
      && (r.Ok? ==> forall i :: 0 <= i < |names| ==> r.value[i] == params.fields[names[i]])
    ensures params.JList? ==>
      && (r.Ok? <==> |params.items| == |names| && forall x :: x in params.items ==> Bindable(x))
      && (r.Ok? ==> r.value == params.items)
      && (|params.items| != |names| ==> r == Err(ProgrammingError))
    ensures !params.JObj? && !params.JList? && !params.JStr? ==> r == Err(ProgrammingError)
  {
    match params
    case JObj(m) => BindNamed(m, names)
    case JList(xs) => BindPositional(xs, |names|)
    case JStr(s) => BindPositional(Chars(s), |names|)
    case _ => Err(ProgrammingError)
  }

  /** Binding a dict raises OverflowError exactly when the first
      placeholder that fails is present and holds an integer outside 64
      bits; any other failure is a ProgrammingError. */
  lemma BindNamedOverflow(m: map<string, Json>, names: seq<string>, i: int)
    requires FirstUnboundName(m, names, i)
    ensures BindParams(JObj(m), names).Err?
    ensures BindParams(JObj(m), names).error
            == if names[i] in m && m[names[i]].JInt? && !Int64(m[names[i]].i) then OverflowError else ProgrammingError
  {
    BindNamedFirstError(m, names, i);
  }

  // ---- the tables as values ----

  /** `_create_tables`: CREATE TABLE users, then CREATE TABLE appts. The first
      "already exists" error ends the attempt, so an existing `users` table
      means `appts` is not created even when it is missing. */
  function CreateTables(f: DbFile): (r: DbFile)
    ensures r.users.Some?
    ensures f.users.Some? ==> r == f
    ensures f.users.None? ==> r.users == Some(EmptyTable()) && r.appts.Some?
    ensures f.appts.Some? ==> r.appts == f.appts
    ensures f.users.None? && f.appts.None? ==> r.appts == Some(EmptyTable())
  {
    if f.users.Some? then f
    else if f.appts.Some? then DbFile(Some(EmptyTable()), f.appts)
    else DbFile(Some(EmptyTable()), Some(EmptyTable()))
  }

  /** Opening a database twice creates nothing the second time. */
  lemma CreateTablesIdempotent(f: DbFile)
    ensures CreateTables(CreateTables(f)) == CreateTables(f)
  {
  }

  /** `SELECT * ... WHERE <key> = :param` for a single bound value: the row
      whose key is the value's text, if any. A NULL value matches nothing. */
  function Select<R>(t: Option<Table<R>>, param: string, v: Json): (r: Result<Option<R>>)
    ensures t.None? ==> r == Err(OperationalError)
    ensures t.Some? && !Bindable(v) ==> r == Err(BindError(v))
    ensures t.Some? && Bindable(v) ==> r.Ok?
    ensures r.Ok? ==> (r.value.Some? <==> Key(v).Some? && Key(v).value in t.value.keyed)
    ensures r.Ok? && r.value.Some? ==> r.value.value == t.value.keyed[Key(v).value]
  {
    if t.None? then Err(OperationalError)
    else
      var vals :- BindParams(JObj(map[param := v]), [param]);
      var k := Key(vals[0]);
      if k.Some? && k.value in t.value.keyed then Ok(Some(t.value.keyed[k.value])) else Ok(None)
  }

  /** The row a bound `users` record is stored as, with its key. */
  function UserRecord(data: Json): (r: Result<(Option<string>, UserRow)>)
    ensures r.Ok? <==> BindParams(data, UserColumns).Ok?
    ensures data.JObj? && r.Ok? ==>
      && r.value.0 == Key(data.fields["primary_id"])
      && r.value.1 == UserRow(TextAffinity(data.fields["primary_id"]),
                              TextAffinity(data.fields["barcode"]),
                              TextAffinity(data.fields["visitor_id"]))
  {
    var vals :- BindParams(data, UserColumns);
    Ok((Key(vals[0]), UserRow(TextAffinity(vals[0]), TextAffinity(vals[1]), TextAffinity(vals[2]))))
  }

  /** INSERT OR REPLACE of one row: a row with the same key is replaced. */
  function Upsert<R>(t: Table<R>, key: Option<string>, row: R): Table<R> {
    if key.Some? then Table(t.keyed[key.value := row], t.unkeyed)
    else Table(t.keyed, t.unkeyed + multiset{row})
  }

  /** `executemany` of INSERT OR REPLACE over `rows` in order; the first row
      that does not bind aborts the statement. */
  function ReplaceAll(t: Table<UserRow>, rows: seq<Json>): Result<Table<UserRow>>
    decreases |rows|
  {
    if rows == [] then Ok(t)
    else
      var before :- ReplaceAll(t, rows[..|rows| - 1]);
      var rec :- UserRecord(rows[|rows| - 1]);
      Ok(Upsert(before, rec.0, rec.1))
  }

  /** The keys the rows of `rows` that bind are stored under. */
  function RowKeys(rows: seq<Json>): set<string>
    decreases |rows|
  {
    if rows == [] then {}
    else
      var last := UserRecord(rows[|rows| - 1]);
      RowKeys(rows[..|rows| - 1]) + if last.Ok? && last.value.0.Some? then {last.value.0.value} else {}
  }

  /** `add_users` is all or nothing: it succeeds exactly when every row binds. */
  lemma {:induction false} ReplaceAllSucceeds(t: Table<UserRow>, rows: seq<Json>)
    ensures ReplaceAll(t, rows).Ok? <==> forall i :: 0 <= i < |rows| ==> UserRecord(rows[i]).Ok?
    decreases |rows|
  {
    if rows != [] {
      var init := rows[..|rows| - 1];
      ReplaceAllSucceeds(t, init);
      ReplaceAllStepOk(t, rows);
      if ReplaceAll(t, rows).Ok? {
        forall i | 0 <= i < |rows|
          ensures UserRecord(rows[i]).Ok?
        {
          if i < |init| {
            assert rows[i] == init[i];
          }
        }
      } else if ReplaceAll(t, init).Err? {
        var i :| 0 <= i < |init| && !UserRecord(init[i]).Ok?;
        assert rows[i] == init[i];
      }
    }
  }

  /** One more row succeeds exactly when the rows before it did and it binds. */
  lemma ReplaceAllStepOk(t: Table<UserRow>, rows: seq<Json>)
    requires rows != []
    ensures ReplaceAll(t, rows).Ok?
        <==> ReplaceAll(t, rows[..|rows| - 1]).Ok? && UserRecord(rows[|rows| - 1]).Ok?
  {
  }

  /** After `add_users`, the indexed keys are the old ones plus those of the
      rows, and a key no row names keeps its old row. */
  lemma {:induction false} ReplaceAllFrame(t: Table<UserRow>, rows: seq<Json>, k: string)
    requires ReplaceAll(t, rows).Ok?
    ensures k in ReplaceAll(t, rows).value.keyed <==> k in t.keyed || k in RowKeys(rows)
    ensures k !in RowKeys(rows) && k in t.keyed ==> ReplaceAll(t, rows).value.keyed[k] == t.keyed[k]
    decreases |rows|
  {
    if rows != [] {
      ReplaceAllStepValue(t, rows);
      ReplaceAllFrame(t, rows[..|rows| - 1], k);
    }
  }

  /** A successful statement is the one before its last row, then that row. */
  lemma ReplaceAllStepValue(t: Table<UserRow>, rows: seq<Json>)
    requires rows != [] && ReplaceAll(t, rows).Ok?
    ensures ReplaceAll(t, rows[..|rows| - 1]).Ok? && UserRecord(rows[|rows| - 1]).Ok?
    ensures var rec := UserRecord(rows[|rows| - 1]).value;
      ReplaceAll(t, rows).value == Upsert(ReplaceAll(t, rows[..|rows| - 1]).value, rec.0, rec.1)
  {
  }

  /** The last row bound to a key is the one stored under it. */
  lemma {:induction false} ReplaceAllLastWins(t: Table<UserRow>, rows: seq<Json>, i: int, k: string)
    requires ReplaceAll(t, rows).Ok?
    requires 0 <= i < |rows| && UserRecord(rows[i]).Ok? && UserRecord(rows[i]).value.0 == Some(k)
    requires forall j :: i < j < |rows| && UserRecord(rows[j]).Ok? ==> UserRecord(rows[j]).value.0 != Some(k)
    ensures k in ReplaceAll(t, rows).value.keyed
    ensures ReplaceAll(t, rows).value.keyed[k] == UserRecord(rows[i]).value.1
    decreases |rows|
  {
    var init := rows[..|rows| - 1];
    if i < |rows| - 1 {
      assert forall j :: 0 <= j < |init| ==> init[j] == rows[j];
      ReplaceAllLastWins(t, init, i, k);
    }
  }

  /** The `appts` INSERT of one mapping: it fails to bind, or hits an existing
      key (where the error handler itself fails on the undefined name
      `appd_data`), or adds the row. */
  function InsertAppt(t: Option<Table<ApptRow>>, data: Json): (r: Result<Table<ApptRow>>)
    ensures t.None? ==> r == Err(OperationalError)
    ensures t.Some? && BindParams(data, ApptColumns).Err? ==> r == Err(BindParams(data, ApptColumns).error)
    ensures r.Err? ==> r.error in {OperationalError, ProgrammingError, OverflowError, NameError("appd_data")}
    ensures t.Some? && BindParams(data, ApptColumns).Ok? ==>
      var k := Key(BindParams(data, ApptColumns).value[0]);
      (r.Err? <==> k.Some? && k.value in t.value.keyed)
    ensures r.Ok? ==>
      && t.Some? && BindParams(data, ApptColumns).Ok?
      && (forall k :: k in t.value.keyed ==> k in r.value.keyed && r.value.keyed[k] == t.value.keyed[k])
      && t.value.unkeyed <= r.value.unkeyed
      && |r.value.keyed| + |r.value.unkeyed| == |t.value.keyed| + |t.value.unkeyed| + 1
    ensures r.Ok? ==>
      var vals := BindParams(data, ApptColumns).value;
      var row := ApptRow(TextAffinity(vals[0]), TextAffinity(vals[1]));
      match Key(vals[0])
      case Some(k) => r.value.keyed == t.value.keyed[k := row] && r.value.unkeyed == t.value.unkeyed
      case None => r.value.keyed == t.value.keyed && r.value.unkeyed == t.value.unkeyed + multiset{row}
  {
    if t.None? then Err(OperationalError)
    else
      var vals :- BindParams(data, ApptColumns);
      var k := Key(vals[0]);
      if k.Some? && k.value in t.value.keyed then Err(NameError("appd_data"))
      else Ok(Upsert(t.value, k, ApptRow(TextAffinity(vals[0]), TextAffinity(vals[1]))))
  }

  /** A stored mapping is found again by its LibCal id. */
  lemma InsertApptThenSelect(t: Table<ApptRow>, apptId: Json, preregId: Json)
    requires Bindable(apptId) && Bindable(preregId) && Key(apptId).Some?
    requires Key(apptId).value !in t.keyed
    ensures var data := JObj(map["appt_id" := apptId, "prereg_id" := preregId]);
      && InsertAppt(Some(t), data).Ok?
      && Select(Some(InsertAppt(Some(t), data).value), "appt_id", apptId)
         == Ok(Some(ApptRow(TextAffinity(apptId), TextAffinity(preregId))))
  {
  }

  /** A duplicate LibCal id is rejected with NameError, never IntegrityError,
      and the other mappings are kept. */
  lemma InsertApptDuplicate(t: Table<ApptRow>, data: Json)
    requires BindParams(data, ApptColumns).Ok?
    requires var k := Key(BindParams(data, ApptColumns).value[0]); k.Some? && k.value in t.keyed
    ensures InsertAppt(Some(t), data) == Err(NameError("appd_data"))
  {
  }

  /** A list of dicts never binds, whatever its length. */
  lemma InsertApptRejectsListOfDicts(t: Table<ApptRow>, xs: seq<Json>)
    requires forall x :: x in xs ==> x.JObj?
    ensures InsertAppt(Some(t), JList(xs)) == Err(ProgrammingError)
  {
    if |xs| == 2 {
      assert xs[0] in xs;
    }
  }

  // ---- the connection ----

  /** A connection to the cache database. */
  class SQLiteCache {
    var users: Option<Table<UserRow>>
    var appts: Option<Table<ApptRow>>

    /** `__init__`: opens the file and creates the missing tables. */
    constructor (file: DbFile)
      ensures DbFile(users, appts) == CreateTables(file)
    {
      var created := CreateTables(file);
      users := created.users;
      appts := created.appts;
    }

    /** `user_lookup`. */
    method UserLookup(primaryId: Json) returns (r: Result<Option<UserRow>>)
      ensures r == Select(users, "primary_id", primaryId)
    {
      r := Select(users, "primary_id", primaryId);
    }

    /** `appt_lookup`. */
    method ApptLookup(apptId: Json) returns (r: Result<Option<ApptRow>>)
      ensures r == Select(appts, "appt_id", apptId)
    {
      r := Select(appts, "appt_id", apptId);
    }

    /** `add_users`: INSERT OR REPLACE of every row inside one transaction,
        rolled back when a row fails to bind. */
    method AddUsers(userData: seq<Json>) returns (r: Result<()>)
      modifies this
      ensures appts == old(appts)
      ensures old(users).None? ==> r == Err(OperationalError) && users == old(users)
      ensures old(users).Some? ==>
        var s := ReplaceAll(old(users).value, userData);
        && (r.Ok? <==> s.Ok?)
        && (r.Err? ==> r.error == s.error)
        && users == if s.Ok? then Some(s.value) else old(users)
    {
      if users.None? {
        return Err(OperationalError);
      }
      var t := users.value;
      var i := 0;
      while i < |userData|
        invariant 0 <= i <= |userData|
        invariant ReplaceAll(users.value, userData[..i]) == Ok(t)
      {
        assert userData[..i + 1][..i] == userData[..i];
        var rec := UserRecord(userData[i]);
        if rec.Err? {
          ReplaceAllPrefixFails(users.value, userData, i + 1);
          return Err(rec.error);
        }
        t := Upsert(t, rec.value.0, rec.value.1);
        i := i + 1;
      }
      assert userData[..i] == userData;
      users := Some(t);
      r := Ok(());
    }

    /** `add_appt`. */
    method AddAppt(apptData: Json) returns (r: Result<()>)
      modifies this
      ensures users == old(users)
      ensures var s := InsertAppt(old(appts), apptData);
        && (r.Ok? <==> s.Ok?)
        && (r.Err? ==> r.error == s.error)
        && appts == if s.Ok? then Some(s.value) else old(appts)
    {
      var s := InsertAppt(appts, apptData);
      if s.Err? {
        return Err(s.error);
      }
      appts := Some(s.value);
      r := Ok(());
    }

    /** `delete_appts` does nothing. */
    method DeleteAppts()
      ensures users == old(users) && appts == old(appts)
    {
    }
  }

  /** A failure in a prefix of the rows is the whole statement's failure. */
  lemma {:induction false} ReplaceAllPrefixFails(t: Table<UserRow>, rows: seq<Json>, n: int)
    requires 0 < n <= |rows|
    requires ReplaceAll(t, rows[..n - 1]).Ok? && UserRecord(rows[n - 1]).Err?
    ensures ReplaceAll(t, rows) == Err(UserRecord(rows[n - 1]).error)
    decreases |rows|
  {
    assert rows[..n][..n - 1] == rows[..n - 1];
    if n < |rows| {
      assert rows[..|rows| - 1][..n - 1] == rows[..n - 1];
      assert rows[..|rows| - 1][n - 1] == rows[n - 1];
      ReplaceAllPrefixFails(t, rows[..|rows| - 1], n);
    } else {
      assert rows[..n] == rows;
    }
  }
}
