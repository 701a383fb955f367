// The schema migrations of internal/store: each is one transaction that runs its
// statements and records its version, and the loop that brings any store up to
// date. Rows are modelled, so that what a migration does to them is too.
module Migrations {
  import opened Common

  datatype Column = Column(name: string, declaration: string)

  // A row: its columns that are not NULL.
  type Record = map<string, int>

  datatype Table = Table(columns: seq<Column>, rows: seq<Record>)

  datatype Index = Index(table: string, columns: seq<string>)

  // ledger is whether schema_migrations exists, and applied the versions in it.
  datatype Database = Database(tables: map<string, Table>, indexes: map<string, Index>, ledger: bool, applied: set<int>)

  datatype Statement =
    | CreateTable(name: string, columns: seq<Column>)
    | CreateIndex(name: string, table: string, on: seq<string>)
    | RenameTable(name: string, to: string)
    | CopyRows(name: string, to: string, on: seq<string>)
    | DropTable(name: string)
    | AddColumn(name: string, column: Column)

  datatype Migration = Migration(version: int, statements: seq<Statement>)

  // ---- statements -----------------------------------------------------------

  function Names(columns: seq<Column>): set<string> {
    set c | c in columns :: c.name
  }

  function Project(r: Record, columns: seq<string>): Record {
    map c | c in r && c in columns :: r[c]
  }

  function ProjectAll(rows: seq<Record>, columns: seq<string>): (out: seq<Record>)
    ensures |out| == |rows|
  {
    seq(|rows|, i requires 0 <= i < |rows| => Project(rows[i], columns))
  }

  function Reindexed(indexes: map<string, Index>, name: string, to: string): map<string, Index> {
    map i | i in indexes :: if indexes[i].table == name then indexes[i].(table := to) else indexes[i]
  }

  function Unindexed(indexes: map<string, Index>, name: string): map<string, Index> {
    map i | i in indexes && indexes[i].table != name :: indexes[i]
  }

  predicate HasColumns(t: Table, columns: seq<string>) {
    forall c :: c in columns ==> c in Names(t.columns)
  }

  // A statement the database refuses has no result.
  function Execute(db: Database, s: Statement): Option<Database> {
    match s
    case CreateTable(name, columns) =>
      if name in db.tables then None else Some(db.(tables := db.tables[name := Table(columns, [])]))
    case CreateIndex(name, table, columns) =>
      if name in db.indexes || table !in db.tables || !HasColumns(db.tables[table], columns) then None
      else Some(db.(indexes := db.indexes[name := Index(table, columns)]))
    case RenameTable(name, to) =>
      if name !in db.tables || to in db.tables then None
      else Some(db.(tables := (db.tables - {name})[to := db.tables[name]], indexes := Reindexed(db.indexes, name, to)))
    case CopyRows(name, to, columns) =>
      if name !in db.tables || to !in db.tables
         || !HasColumns(db.tables[name], columns) || !HasColumns(db.tables[to], columns) then None
      else
        var rows := db.tables[to].rows + ProjectAll(db.tables[name].rows, columns);
        Some(db.(tables := db.tables[to := db.tables[to].(rows := rows)]))
    case DropTable(name) =>
      if name !in db.tables then None
      else Some(db.(tables := db.tables - {name}, indexes := Unindexed(db.indexes, name)))
    case AddColumn(name, column) =>
      if name !in db.tables || column.name in Names(db.tables[name].columns) then None
      else Some(db.(tables := db.tables[name := db.tables[name].(columns := db.tables[name].columns + [column])]))
  }

  // The statements from the i-th on.
  function Run(db: Database, ss: seq<Statement>, i: nat := 0): Option<Database>
    requires i <= |ss|
    decreases |ss| - i
  {
    if i == |ss| then Some(db)
    else
      match Execute(db, ss[i])
      case None => None
      case Some(next) => Run(next, ss, i + 1)
  }

  // ---- the list -------------------------------------------------------------

  const AGENTS_1 := [
    Column("agent_id", "TEXT PRIMARY KEY"), Column("signing_public_key", "BLOB NOT NULL"),
    Column("encryption_public_key", "BLOB NOT NULL"), Column("state", "TEXT NOT NULL"),
    Column("created_at", "INTEGER NOT NULL")]

  const ENROLLMENT_1 := [
    Column("token_id", "TEXT PRIMARY KEY"), Column("agent_id", "TEXT"), Column("status", "TEXT NOT NULL"),
    Column("issued_at", "INTEGER NOT NULL"), Column("denied_at", "INTEGER")]

  const JOBS := [
    Column("job_id", "TEXT PRIMARY KEY"), Column("correlation_id", "TEXT NOT NULL"), Column("target", "TEXT NOT NULL"),
    Column("argv_json", "TEXT NOT NULL"), Column("execution_user", "TEXT NOT NULL"), Column("state", "TEXT NOT NULL"),
    Column("accepted_at", "INTEGER NOT NULL")]

  const RESULTS := [
    Column("job_id", "TEXT PRIMARY KEY REFERENCES jobs(job_id)"), Column("state", "TEXT NOT NULL"),
    Column("exit_status", "INTEGER NOT NULL"), Column("stdout", "BLOB NOT NULL"), Column("stderr", "BLOB NOT NULL"),
    Column("truncated", "INTEGER NOT NULL"), Column("discarded_bytes", "INTEGER NOT NULL"),
    Column("recorded_at", "INTEGER NOT NULL")]

  const AUDIT_1 := [
    Column("id", "INTEGER PRIMARY KEY AUTOINCREMENT"), Column("timestamp", "INTEGER NOT NULL"),
    Column("job_id", "TEXT NOT NULL"),
    Column("correlation_id", "TEXT NOT NULL"), Column("actor", "TEXT NOT NULL"), Column("target", "TEXT NOT NULL"),
    Column("action", "TEXT NOT NULL"), Column("result", "TEXT NOT NULL")]

  const AUDIT_3 := [
    Column("id", "INTEGER PRIMARY KEY AUTOINCREMENT"), Column("timestamp", "INTEGER NOT NULL"),
    Column("job_id", "TEXT"),
    Column("correlation_id", "TEXT"), Column("actor", "TEXT"), Column("actor_uid", "INTEGER"),
    Column("actor_username_snapshot", "TEXT"), Column("target", "TEXT"), Column("action", "TEXT NOT NULL"),
    Column("result", "TEXT NOT NULL")]

  const COPIED := ["id", "timestamp", "job_id", "correlation_id", "actor", "target", "action", "result"]

  const ENROLLMENT_4 := [
    Column("token_id", "TEXT PRIMARY KEY"), Column("agent_id", "TEXT NOT NULL UNIQUE"),
    Column("agent_name", "TEXT NOT NULL"),
    Column("bootstrap_public_key", "TEXT NOT NULL UNIQUE"),
    Column("state", "TEXT NOT NULL CHECK (state IN ('issued', 'spent'))"),
    Column("issued_at", "INTEGER NOT NULL"), Column("expires_at", "INTEGER NOT NULL"),
    Column("issued_by_uid", "INTEGER NOT NULL"),
    Column("nats_public_key", "TEXT"), Column("signing_public_key", "BLOB"), Column("encryption_public_key", "BLOB"),
    Column("permanent_jwt", "TEXT"), Column("credential_issued_at", "INTEGER"), Column("spent_at", "INTEGER"),
    Column("", "CHECK ((nats_public_key IS NULL) = (permanent_jwt IS NULL))"),
    Column("", "CHECK ((state = 'spent') = (spent_at IS NOT NULL))")]

  const NATS_COLUMN := Column("nats_public_key", "TEXT")
  const NAME_COLUMN := Column("agent_name", "TEXT")

  const AUDIT_INDEX := Index("audit", ["job_id", "timestamp"])
  const JOBS_INDEX := Index("jobs", ["state"])

  const LAST: int := 4

  function Statements(version: int): seq<Statement> {
    if version == 1 then
      [CreateTable("agents", AGENTS_1), CreateTable("enrollment", ENROLLMENT_1), CreateTable("jobs", JOBS),
       CreateTable("results", RESULTS), CreateTable("audit", AUDIT_1)]
    else if version == 2 then
      [CreateIndex("audit_job_time", "audit", AUDIT_INDEX.columns),
       CreateIndex("jobs_state", "jobs", JOBS_INDEX.columns)]
    else if version == 3 then
      [RenameTable("audit", "audit_v2"), CreateTable("audit", AUDIT_3), CopyRows("audit_v2", "audit", COPIED),
       DropTable("audit_v2"), CreateIndex("audit_job_time", "audit", AUDIT_INDEX.columns)]
    else if version == 4 then
      [DropTable("enrollment"), CreateTable("enrollment", ENROLLMENT_4), AddColumn("agents", NATS_COLUMN),
       AddColumn("agents", NAME_COLUMN)]
    else []
  }

  // ---- the schema each version leaves ---------------------------------------

  datatype Schema = Schema(tables: map<string, seq<Column>>, indexes: map<string, Index>)

  function SchemaOf(db: Database): Schema {
    Schema(map t | t in db.tables :: db.tables[t].columns, db.indexes)
  }

  const AGENTS_4: seq<Column> := AGENTS_1 + [NATS_COLUMN, NAME_COLUMN]

  // Written out, not computed: what the tables and indexes are after each version.
  function SchemaAfter(version: int): Schema {
    if version <= 0 then Schema(map[], map[])
    else
      Schema(
        map["agents" := if version < 4 then AGENTS_1 else AGENTS_4,
            "enrollment" := if version < 4 then ENROLLMENT_1 else ENROLLMENT_4,
            "jobs" := JOBS,
            "results" := RESULTS,
            "audit" := if version < 3 then AUDIT_1 else AUDIT_3],
        if version < 2 then map[] else map["audit_job_time" := AUDIT_INDEX, "jobs_state" := JOBS_INDEX])
  }

  // A migration leaves every row of every table it does not replace.
  ghost predicate RowsKept(db: Database, db': Database) {
    forall t :: t in ["agents", "jobs", "results", "audit"] && t in db.tables && t in db'.tables
      ==> db'.tables[t].rows == db.tables[t].rows
  }

  // No row has a column its table lacks.
  ghost predicate Typed(db: Database) {
    forall t, i :: t in db.tables && 0 <= i < |db.tables[t].rows| ==>
                     db.tables[t].rows[i].Keys <= Names(db.tables[t].columns)
  }

  // What one statement does to the schema.
  lemma CreateTableSchema(db: Database, name: string, columns: seq<Column>)
    requires name !in SchemaOf(db).tables && Typed(db)
    ensures var d := Execute(db, CreateTable(name, columns));
            && d.Some? && Typed(d.value)
            && SchemaOf(d.value) == Schema(SchemaOf(db).tables[name := columns], db.indexes)
            && d.value == db.(tables := db.tables[name := Table(columns, [])])
  {}

  lemma AddColumnSchema(db: Database, name: string, column: Column)
    requires name in SchemaOf(db).tables && column.name !in Names(SchemaOf(db).tables[name]) && Typed(db)
    ensures var d := Execute(db, AddColumn(name, column)); var columns := SchemaOf(db).tables[name];
            && d.Some? && Typed(d.value)
            && SchemaOf(d.value) == Schema(SchemaOf(db).tables[name := columns + [column]], db.indexes)
            && d.value == db.(tables := db.tables[name := Table(columns + [column], db.tables[name].rows)])
  {
    var columns := db.tables[name].columns;
    assert Names(columns) <= Names(columns + [column]) by {
      forall n | n in Names(columns)
        ensures n in Names(columns + [column])
      {
        var c :| c in columns && c.name == n;
        assert c in columns + [column];
      }
    }
  }

  lemma First(db: Database)
    requires SchemaOf(db) == SchemaAfter(0) && Typed(db)
    ensures Run(db, Statements(1)).Some?
    ensures var d := Run(db, Statements(1)).value;
            SchemaOf(d) == SchemaAfter(1) && Typed(d) && RowsKept(db, d) && d.applied == db.applied
            && d.ledger == db.ledger
  {
    var ss := Statements(1);
    assert |ss| == 5 && ss[0] == CreateTable("agents", AGENTS_1);
    hide AGENTS_1, AGENTS_4, ENROLLMENT_1, ENROLLMENT_4, JOBS, RESULTS, AUDIT_1, AUDIT_3;
    hide Execute, Typed, SchemaOf;
    CreateTableSchema(db, "agents", AGENTS_1);
    var d1 := Execute(db, ss[0]).value;
    CreateTableSchema(d1, "enrollment", ENROLLMENT_1);
    var d2 := Execute(d1, ss[1]).value;
    CreateTableSchema(d2, "jobs", JOBS);
    var d3 := Execute(d2, ss[2]).value;
    CreateTableSchema(d3, "results", RESULTS);
    var d4 := Execute(d3, ss[3]).value;
    CreateTableSchema(d4, "audit", AUDIT_1);
    var d5 := Execute(d4, ss[4]).value;
    assert Run(d5, ss, 5) == Some(d5);
    assert Run(d3, ss, 3) == Some(d5);
    assert Run(d1, ss, 1) == Some(d5);
  }

  lemma Second(db: Database)
    requires SchemaOf(db) == SchemaAfter(1) && Typed(db)
    ensures Run(db, Statements(2)).Some?
    ensures var d := Run(db, Statements(2)).value;
            SchemaOf(d) == SchemaAfter(2) && Typed(d) && RowsKept(db, d) && d.applied == db.applied
            && d.ledger == db.ledger
  {
    var ss := Statements(2);
    assert |ss| == 2;
    assert SchemaOf(db).tables["audit"] == AUDIT_1 && SchemaOf(db).tables["jobs"] == JOBS;
    assert AUDIT_1[2].name == "job_id" && AUDIT_1[1].name == "timestamp" && JOBS[5].name == "state";
    var d1 := Execute(db, ss[0]).value;
    assert d1 == db.(indexes := db.indexes["audit_job_time" := AUDIT_INDEX]);
    var d2 := Execute(d1, ss[1]).value;
    assert d2 == d1.(indexes := d1.indexes["jobs_state" := JOBS_INDEX]);
    assert Run(d2, ss, 2) == Some(d2);
    assert Run(d1, ss, 1) == Some(d2);
  }

  lemma ProjectAllSame(rows: seq<Record>, columns: seq<string>)
    requires forall i, k :: 0 <= i < |rows| && k in rows[i] ==> k in columns
    ensures ProjectAll(rows, columns) == rows
  {
    forall i | 0 <= i < |rows|
      ensures ProjectAll(rows, columns)[i] == rows[i]
    {
      assert Project(rows[i], columns) == rows[i];
    }
  }

  lemma RenameSchema(db: Database, name: string, to: string)
    requires name in SchemaOf(db).tables && to !in SchemaOf(db).tables && Typed(db)
    ensures var d := Execute(db, RenameTable(name, to)); var t := SchemaOf(db).tables;
            && d.Some? && Typed(d.value)
            && SchemaOf(d.value) == Schema((t - {name})[to := t[name]], Reindexed(db.indexes, name, to))
            && d.value == db.(tables := (db.tables - {name})[to := db.tables[name]],
                              indexes := Reindexed(db.indexes, name, to))
  {}

  lemma DropSchema(db: Database, name: string)
    requires name in SchemaOf(db).tables && Typed(db)
    ensures var d := Execute(db, DropTable(name));
            && d.Some? && Typed(d.value)
            && SchemaOf(d.value) == Schema(SchemaOf(db).tables - {name}, Unindexed(db.indexes, name))
            && d.value == db.(tables := db.tables - {name}, indexes := Unindexed(db.indexes, name))
  {}

  // Copying into an empty table every column the source's rows have copies the rows.
  lemma CopySchema(db: Database, name: string, to: string, columns: seq<string>)
    requires name in db.tables && to in db.tables && name != to && Typed(db) && db.tables[to].rows == []
    requires Names(db.tables[name].columns) == (set c | c in columns)
    requires Names(db.tables[name].columns) <= Names(db.tables[to].columns)
    ensures var d := Execute(db, CopyRows(name, to, columns));
            && d.Some? && Typed(d.value) && SchemaOf(d.value) == SchemaOf(db)
            && d.value == db.(tables := db.tables[to := db.tables[to].(rows := db.tables[name].rows)])
  {
    var rows := db.tables[name].rows;
    forall i, k | 0 <= i < |rows| && k in rows[i]
      ensures k in columns
    {
      assert k in rows[i].Keys && k in Names(db.tables[name].columns);
    }
    ProjectAllSame(rows, columns);
    assert [] + rows == rows;
    forall i | 0 <= i < |rows|
      ensures rows[i].Keys <= Names(db.tables[to].columns)
    {}
  }

  lemma AuditColumns()
    ensures Names(AUDIT_1) == (set c | c in COPIED)
    ensures Names(AUDIT_1) <= Names(AUDIT_3)
  {
    assert forall i :: 0 <= i < 8 ==> AUDIT_1[i].name == COPIED[i];
    forall n | n in Names(AUDIT_1)
      ensures n in COPIED
    {
      var c :| c in AUDIT_1 && c.name == n;
      var i :| 0 <= i < 8 && AUDIT_1[i] == c;
      assert COPIED[i] == n;
    }
    forall n | n in COPIED
      ensures n in Names(AUDIT_1) && n in Names(AUDIT_3)
    {
      var i :| 0 <= i < 8 && COPIED[i] == n;
      assert AUDIT_1[i] in AUDIT_1;
      var j := if i < 5 then i else i + 2;
      assert AUDIT_3[j].name == n && AUDIT_3[j] in AUDIT_3;
    }
  }

  // A table moved aside, replaced, copied from and dropped keeps its rows under
  // its new columns; its indexes follow the renamed table and go with it.
  lemma Replaced(db: Database, name: string, aside: string, columns: seq<Column>, copied: seq<string>,
                 ss: seq<Statement>)
    requires Typed(db) && name in db.tables && aside !in db.tables && name != aside
    requires Names(db.tables[name].columns) == (set c | c in copied) && Names(db.tables[name].columns) <= Names(columns)
    requires ss == [RenameTable(name, aside), CreateTable(name, columns), CopyRows(aside, name, copied),
                    DropTable(aside)]
    requires forall i :: i in db.indexes ==> db.indexes[i].table != aside
    ensures Run(db, ss) == Some(db.(tables := db.tables[name := Table(columns, db.tables[name].rows)],
                                    indexes := Unindexed(db.indexes, name)))
    ensures var d := Run(db, ss).value;
            && Typed(d) && SchemaOf(d) == Schema(SchemaOf(db).tables[name := columns], Unindexed(db.indexes, name))
            && (forall n :: n in db.tables ==> n in d.tables && d.tables[n].rows == db.tables[n].rows)
  {
    hide Execute, Typed, SchemaOf, Names, Reindexed, Unindexed;
    SchemaTables(db);
    RenameSchema(db, name, aside);
    var d1 := Execute(db, ss[0]).value;
    CreateTableSchema(d1, name, columns);
    var d2 := Execute(d1, ss[1]).value;
    CopySchema(d2, aside, name, copied);
    var d3 := Execute(d2, ss[2]).value;
    DropSchema(d3, aside);
    var d4 := Execute(d3, ss[3]).value;
    MovedAside(db.indexes, name, aside);
    assert d4.tables == db.tables[name := Table(columns, db.tables[name].rows)];
    assert Run(d4, ss, 4) == Some(d4);
    assert Run(d2, ss, 2) == Some(d4);
  }

  lemma SchemaTables(db: Database)
    ensures forall t :: t in SchemaOf(db).tables <==> t in db.tables
    ensures forall t :: t in db.tables ==> SchemaOf(db).tables[t] == db.tables[t].columns
  {}

  lemma MovedAside(indexes: map<string, Index>, name: string, aside: string)
    requires name != aside && forall i :: i in indexes ==> indexes[i].table != aside
    ensures Unindexed(Reindexed(indexes, name, aside), aside) == Unindexed(indexes, name)
  {}

  lemma SchemasDiffer()
    ensures SchemaAfter(3) == Schema(SchemaAfter(2).tables["audit" := AUDIT_3], SchemaAfter(2).indexes)
    ensures SchemaAfter(4) == Schema(SchemaAfter(3).tables["enrollment" := ENROLLMENT_4]["agents" := AGENTS_4],
                                     SchemaAfter(3).indexes)
    ensures SchemaAfter(3).indexes == map["jobs_state" := JOBS_INDEX]["audit_job_time" := AUDIT_INDEX]
    ensures "audit" in SchemaAfter(3).tables && SchemaAfter(3).tables["audit"] == AUDIT_3
    ensures "audit" in SchemaAfter(2).tables && "audit_v2" !in SchemaAfter(2).tables
            && SchemaAfter(2).tables["audit"] == AUDIT_1
    ensures "enrollment" in SchemaAfter(3).tables && "agents" in SchemaAfter(3).tables
            && SchemaAfter(3).tables["agents"] == AGENTS_1
  {}

  lemma AuditReplaced(db: Database)
    requires SchemaOf(db) == SchemaAfter(2) && Typed(db)
    ensures Run(db, Statements(3)[..4]).Some?
    ensures var d := Run(db, Statements(3)[..4]).value;
            && SchemaOf(d) == Schema(SchemaAfter(3).tables, map["jobs_state" := JOBS_INDEX]) && Typed(d)
            && RowsKept(db, d)
            && d.applied == db.applied && d.ledger == db.ledger
  {
    var ss := Statements(3)[..4];
    assert ss == [RenameTable("audit", "audit_v2"), CreateTable("audit", AUDIT_3),
                  CopyRows("audit_v2", "audit", COPIED), DropTable("audit_v2")];
    SchemasDiffer();
    ThirdIndexes(db.indexes);
    AuditColumns();
    hide AGENTS_1, AGENTS_4, ENROLLMENT_1, ENROLLMENT_4, JOBS, RESULTS, AUDIT_1, AUDIT_3, COPIED;
    hide Statements, Execute, Typed, Names, Run, Unindexed, SchemaAfter;
    SchemaTables(db);
    Replaced(db, "audit", "audit_v2", AUDIT_3, COPIED, ss);
    hide SchemaOf;
  }

  lemma RunPrefix(db: Database, ss: seq<Statement>, n: nat, i: nat)
    requires i <= n <= |ss|
    ensures Run(db, ss, i) == match Run(db, ss[..n], i) case None => None case Some(d) => Run(d, ss, n)
    decreases n - i
  {
    if i < n {
      assert ss[..n][i] == ss[i];
      var next := Execute(db, ss[i]);
      if next.Some? { RunPrefix(next.value, ss, n, i + 1); }
    }
  }

  lemma Third(db: Database)
    requires SchemaOf(db) == SchemaAfter(2) && Typed(db)
    ensures Run(db, Statements(3)).Some?
    ensures var d := Run(db, Statements(3)).value;
            SchemaOf(d) == SchemaAfter(3) && Typed(d) && RowsKept(db, d) && d.applied == db.applied
            && d.ledger == db.ledger
  {
    var ss := Statements(3);
    AuditReplaced(db);
    assert |ss| == 5 && ss[4] == CreateIndex("audit_job_time", "audit", AUDIT_INDEX.columns);
    SchemasDiffer();
    hide Statements, Execute, Typed, Names, SchemaAfter;
    RunPrefix(db, ss, 4, 0);
    var d4 := Run(db, ss[..4]).value;
    SchemaTables(d4);
    AuditIndexed(d4);
    var d5 := Execute(d4, ss[4]).value;
    assert Run(d5, ss, 5) == Some(d5);
  }

  lemma ThirdIndexes(indexes: map<string, Index>)
    requires indexes == SchemaAfter(2).indexes
    ensures Unindexed(indexes, "audit") == map["jobs_state" := JOBS_INDEX]
    ensures forall i :: i in indexes ==> indexes[i].table != "audit_v2"
  {}

  lemma AuditIndexed(db: Database)
    requires "audit" in db.tables && db.tables["audit"].columns == AUDIT_3 && "audit_job_time" !in db.indexes
             && Typed(db)
    ensures var d := Execute(db, CreateIndex("audit_job_time", "audit", AUDIT_INDEX.columns));
            && d.Some? && d.value == db.(indexes := db.indexes["audit_job_time" := AUDIT_INDEX])
            && Typed(d.value) && SchemaOf(d.value) == Schema(SchemaOf(db).tables, d.value.indexes)
  {
    assert AUDIT_3[2].name == "job_id" && AUDIT_3[1].name == "timestamp";
  }

  function Rebuilt(db: Database, name: string, columns: seq<Column>, other: string, more: seq<Column>)
    : map<string, Table>
    requires other in db.tables
  {
    db.tables[name := Table(columns, [])][other := Table(db.tables[other].columns + more, db.tables[other].rows)]
  }

  // A table dropped and created anew, and two columns added to another.
  lemma Recreated(db: Database, name: string, columns: seq<Column>, other: string, x: Column, y: Column,
                  ss: seq<Statement>)
    requires Typed(db) && name in db.tables && other in db.tables && name != other && x.name != y.name
    requires x.name !in Names(db.tables[other].columns) && y.name !in Names(db.tables[other].columns)
    requires ss == [DropTable(name), CreateTable(name, columns), AddColumn(other, x), AddColumn(other, y)]
    requires Unindexed(db.indexes, name) == db.indexes
    ensures Run(db, ss) == Some(db.(tables := Rebuilt(db, name, columns, other, [x, y])))
    ensures var d := Run(db, ss).value; var t := SchemaOf(db).tables;
            && Typed(d) && SchemaOf(d) == Schema(t[name := columns][other := t[other] + [x, y]], db.indexes)
            && (forall n :: n in db.tables && n != name ==> n in d.tables && d.tables[n].rows == db.tables[n].rows)
  {
    SchemaTables(db);
    AddedNames(db.tables[other].columns, x, y);
    hide Execute, Typed, SchemaOf, Names, Unindexed;
    DropSchema(db, name);
    var d1 := Execute(db, ss[0]).value;
    CreateTableSchema(d1, name, columns);
    var d2 := Execute(d1, ss[1]).value;
    AddColumnSchema(d2, other, x);
    var d3 := Execute(d2, ss[2]).value;
    AddColumnSchema(d3, other, y);
    var d4 := Execute(d3, ss[3]).value;
    assert db.tables[other].columns + [x] + [y] == db.tables[other].columns + [x, y];
    assert SchemaOf(d4).tables == SchemaOf(db).tables[name := columns][other := db.tables[other].columns + [x, y]];
    assert d4.tables == Rebuilt(db, name, columns, other, [x, y]);
    assert Run(d4, ss, 4) == Some(d4);
    assert Run(d2, ss, 2) == Some(d4);
  }

  lemma AddedNames(columns: seq<Column>, x: Column, y: Column)
    requires x.name != y.name && y.name !in Names(columns)
    ensures y.name !in Names(columns + [x])
  {
    forall c | c in columns + [x]
      ensures c.name != y.name
    {
      if c != x { assert c in columns && c.name in Names(columns); }
    }
  }

  lemma Fourth(db: Database)
    requires SchemaOf(db) == SchemaAfter(3) && Typed(db)
    ensures Run(db, Statements(4)).Some?
    ensures var d := Run(db, Statements(4)).value;
            SchemaOf(d) == SchemaAfter(4) && Typed(d) && RowsKept(db, d) && d.applied == db.applied
            && d.ledger == db.ledger
  {
    var ss := Statements(4);
    assert ss == [DropTable("enrollment"), CreateTable("enrollment", ENROLLMENT_4), AddColumn("agents", NATS_COLUMN),
                  AddColumn("agents", NAME_COLUMN)];
    SchemasDiffer();
    NoEnrollmentIndex();
    AgentColumns();
    assert AGENTS_4 == AGENTS_1 + [NATS_COLUMN, NAME_COLUMN];
    hide AGENTS_1, AGENTS_4, ENROLLMENT_1, ENROLLMENT_4, JOBS, RESULTS, AUDIT_1, AUDIT_3, NATS_COLUMN, NAME_COLUMN;
    hide Statements, Execute, Typed, Names, Run, Unindexed, SchemaAfter;
    SchemaTables(db);
    assert db.tables["agents"].columns == AGENTS_1;
    Recreated(db, "enrollment", ENROLLMENT_4, "agents", NATS_COLUMN, NAME_COLUMN, ss);
    hide SchemaOf;
  }

  lemma NoEnrollmentIndex()
    ensures Unindexed(SchemaAfter(3).indexes, "enrollment") == SchemaAfter(3).indexes
  {}

  lemma AgentColumns()
    ensures NATS_COLUMN.name !in Names(AGENTS_1)
    ensures NAME_COLUMN.name !in Names(AGENTS_1) && NATS_COLUMN.name != NAME_COLUMN.name
  {}

  // From the schema of the version before, a migration always runs, leaves the
  // schema of its own version, and keeps every row it does not mean to drop.
  lemma StatementsRun(db: Database, version: int)
    requires 1 <= version <= LAST && SchemaOf(db) == SchemaAfter(version - 1) && Typed(db)
    ensures Run(db, Statements(version)).Some?
    ensures var d := Run(db, Statements(version)).value;
            SchemaOf(d) == SchemaAfter(version) && Typed(d) && RowsKept(db, d) && d.applied == db.applied
            && d.ledger == db.ledger
  {
    hide Run, Statements, SchemaOf, SchemaAfter, Typed, RowsKept;
    if version == 1 {
      First(db);
    } else if version == 2 {
      Second(db);
    } else if version == 3 {
      Third(db);
    } else {
      Fourth(db);
    }
  }

  // ---- opening a store ------------------------------------------------------

  function Versions(k: int): (vs: set<int>)
    ensures forall v :: v in vs <==> 1 <= v <= k
  {
    if k <= 0 then {} else Versions(k - 1) + {k}
  }

  // The versions applied are a prefix of the list, and the schema is what
  // exactly that prefix leaves.
  ghost predicate UpTo(db: Database, k: int) {
    && 0 <= k <= LAST
    && db.applied == Versions(k)
    && SchemaOf(db) == SchemaAfter(k) && Typed(db)
    && (k > 0 ==> db.ledger)
  }

  // One opening brought the store from one version to another, or nowhere.
  ghost predicate Opened(db: Database, db': Database, from: int, reached: int) {
    UpTo(db, from) && UpTo(db', reached) && from <= reached && RowsKept(db, db')
  }

  datatype Point = Reading | Beginning | Executing | Committing | KilledAfterCommit

  // Where this opening fails or is killed. A kill before a commit leaves what a
  // failure there does: the transaction is rolled back.
  datatype Fault = NoFault | LedgerFault | Fault(version: int, point: Point)

  // The opening meets its injected failure, or its fault, before it is done.
  predicate Interrupted(from: int, failAt: int, fault: Fault) {
    || fault.LedgerFault?
    || from < failAt <= LAST
    || (fault.Fault? && 1 <= fault.version <= LAST && (fault.point.Reading? || from < fault.version))
  }

  lemma OpenedOn(db: Database, db': Database, next: Database, from: int, k: int)
    requires Opened(db, db', from, k) && k < LAST && db'.ledger
    requires Run(db', Statements(k + 1)).Some?
    requires next == Run(db', Statements(k + 1)).value.(applied := db'.applied + {k + 1})
    ensures Opened(db, next, from, k + 1)
  {
    StatementsRun(db', k + 1);
    var d := Run(db', Statements(k + 1)).value;
    assert SchemaOf(next) == SchemaOf(d);
    hide Run, Statements, SchemaAfter;
    assert Typed(next);
    RowsKeptOn(db, db', next, from);
  }

  lemma RowsKeptOn(db: Database, db': Database, next: Database, from: int)
    requires UpTo(db, from) && RowsKept(db, db') && RowsKept(db', next)
    requires from > 0 ==> exists k :: k > 0 && UpTo(db', k)
    ensures RowsKept(db, next)
  {
    SchemaTables(db);
    SchemaTables(db');
  }

  class Store {
    var db: Database

    constructor ()
      ensures UpTo(db, 0)
    {
      db := Database(map[], map[], false, {});
    }

    method Migrate(failAt: int, fault: Fault, ghost from: int) returns (ok: bool, ghost reached: int)
      requires UpTo(db, from)
      modifies this
      ensures Opened(old(db), db, from, reached)
      ensures ok <==> !Interrupted(from, failAt, fault)
      ensures ok ==> reached == LAST
      ensures fault.NoFault? && from < failAt <= LAST ==> reached == failAt - 1
    {
      hide Run, Statements, SchemaAfter, Typed, RowsKept;
      ghost var db0 := db;
      reached := from;
      if fault.LedgerFault? {
        KeptAtOnce(db0, db, from);
        return false, reached;
      }
      db := db.(ledger := true);
      KeptAtOnce(db0, db, from);
      var version := 1;
      while version <= LAST
        invariant 1 <= version <= LAST + 1
        invariant Opened(db0, db, from, reached) && db.ledger
        invariant reached == if version - 1 < from then from else version - 1
        invariant !(from < failAt < version)
        invariant fault.Fault? ==> !(1 <= fault.version < version && (fault.point.Reading? || from < fault.version))
      {
        var at := if fault.Fault? && fault.version == version then Some(fault.point) else None;
        assert at.Some? ==>
          || at.value.Reading? || at.value.Beginning? || at.value.Executing? || at.value.Committing?
          || at.value.KilledAfterCommit?;
        if at == Some(Reading) { return false, reached; }
        if version !in db.applied {
          if failAt == version { return false, reached; }
          if at == Some(Beginning) { return false, reached; }
          StatementsRun(db, version);
          var done := Run(db, Statements(version));
          if at == Some(Executing) { return false, reached; }
          var next := done.value.(applied := done.value.applied + {version});
          if at == Some(Committing) { return false, reached; }
          OpenedOn(db0, db, next, from, reached);
          assert version > from;
          db := next;
          reached := version;
          if at == Some(KilledAfterCommit) { return false, reached; }
        }
        version := version + 1;
      }
      return true, reached;
    }
  }

  lemma KeptAtOnce(db0: Database, db: Database, k: int)
    requires UpTo(db0, k) && (db == db0 || db == db0.(ledger := true))
    ensures Opened(db0, db, k, k)
  {
    assert SchemaOf(db) == SchemaOf(db0);
    hide SchemaAfter;
  }

  // ---- any history ----------------------------------------------------------

  // What the program writes between openings: any rows, in the tables there are.
  ghost predicate Written(db: Database, db': Database) {
    SchemaOf(db') == SchemaOf(db) && db'.applied == db.applied && db'.ledger == db.ledger && Typed(db')
  }

  ghost predicate Moved(db: Database, db': Database) {
    Written(db, db') || exists from, reached :: Opened(db, db', from, reached)
  }

  // A store with no tables and nothing applied, opened and written any number of
  // times with any failures and kills, is always at exactly one version.
  lemma {:induction false} AlwaysAPrefix(ds: seq<Database>, d: Database)
    requires ds != [] && UpTo(ds[0], 0) && d == ds[|ds| - 1]
    requires forall i :: 0 <= i < |ds| - 1 ==> Moved(ds[i], ds[i + 1])
    ensures exists k :: UpTo(d, k)
    ensures forall j, k :: UpTo(d, j) && UpTo(d, k) ==> j == k
  {
    hide SchemaOf, SchemaAfter, Typed, RowsKept;
    if |ds| > 1 {
      var before := ds[..|ds| - 1];
      assert forall i :: 0 <= i < |before| - 1 ==> Moved(before[i], before[i + 1]);
      var b := before[|before| - 1];
      AlwaysAPrefix(before, b);
      assert Moved(b, d);
      var k :| UpTo(b, k);
      if Written(b, d) { assert UpTo(d, k); }
    }
    forall j, k | UpTo(d, j) && UpTo(d, k)
      ensures j == k
    {
      assert j > 0 ==> j in d.applied;
      assert k > 0 ==> k in d.applied;
      assert j + 1 !in d.applied && k + 1 !in d.applied;
    }
  }
}
