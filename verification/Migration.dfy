/** The schema migration and its restarts (src/store.rs:160-200, 807-881). */
module Migration {
  import opened Prelude

  datatype TableName = Messages | Cursors | Outbox | Rejections | Presence | SeenGrants

  /** Every column of every table, under its name in camel case. */
  datatype Column =
    | Seq | Id | Direction | Sender | Recipient | Topic | Ts | Ctype | InReplyTo | Body
    | Kind | CorrelationId | Supersedes | Encrypted | DeliveryState | BrokerAckTs
    | DeliveredTs | ReadTs | Consumer | LastSeq
    | UpdatedAt | Payload | Qos | Retain | At | Reason | Detail | ClaimedSender | Agent | State
    | Source | TtlSecs | LastSeen | GrantId

  datatype Value = Null | Number(n: int) | Text(s: string)

  type Record = map<Column, Value>

  datatype Table = Table(columns: set<Column>, rows: seq<Record>)

  datatype Disk = Disk(tables: map<TableName, Table>, userVersion: int)

  /** One autocommitted statement. Index creation leaves tables alone but needs its table. */
  datatype Statement =
    | CreateTable(name: TableName, columns: set<Column>)
    | CreateIndex(on: TableName)
    | AddColumn(table: TableName, column: Column, fill: Value)
    | SetVersion(version: int)

  datatype SqlError = NoSuchTable | DuplicateColumn

  function Execute(d: Disk, s: Statement): Result<Disk, SqlError> {
    match s
    case CreateTable(t, cols) =>
      Ok(if t in d.tables then d else d.(tables := d.tables[t := Table(cols, [])]))
    case CreateIndex(t) => if t in d.tables then Ok(d) else Err(NoSuchTable)
    case AddColumn(t, c, v) =>
      if t !in d.tables then Err(NoSuchTable)
      else if c in d.tables[t].columns then Err(DuplicateColumn)
      else Ok(d.(tables := d.tables[t := WithColumn(d.tables[t], c, v)]))
    case SetVersion(n) => Ok(d.(userVersion := n))
  }

  function WithColumn(t: Table, c: Column, v: Value): Table {
    Table(t.columns + {c}, seq(|t.rows|, i requires 0 <= i < |t.rows| => t.rows[i][c := v]))
  }

  /** "Duplicate column" is swallowed; any other error stops the migration. */
  function ExecuteAll(d: Disk, stmts: seq<Statement>): Result<Disk, SqlError>
    decreases |stmts|
  {
    if stmts == [] then Ok(d)
    else
      match Execute(d, stmts[0])
      case Ok(next) => ExecuteAll(next, stmts[1..])
      case Err(DuplicateColumn) => ExecuteAll(d, stmts[1..])
      case Err(e) => Err(e)
  }

  /** A table's version 1 columns and the ones version 2 adds, with their defaults. */
  datatype Columns = Columns(base: set<Column>, added: Record) {
    function Full(): set<Column> {
      base + added.Keys
    }
  }

  type Schema = map<TableName, Columns>

  /** The target schema, the batch that creates it, and the statements that alter version 1 tables. */
  datatype Plan = Plan(schema: Schema, creates: seq<Statement>, alters: seq<Statement>)

  /** The statements one run of `migrate` sets out to execute. */
  function Program(p: Plan, d: Disk): seq<Statement> {
    if d.userVersion >= 2 then []
    else p.creates + (if Messages in d.tables then p.alters else []) + [SetVersion(2)]
  }

  /** A run cut off after `cut` statements. */
  function Attempt(p: Plan, d: Disk, cut: nat): Result<Disk, SqlError> {
    ExecuteAll(d, Program(p, d)[..Min(cut, |Program(p, d)|)])
  }

  /** Runs cut off one after the other, then one complete run. */
  function Restarts(p: Plan, d: Disk, cuts: seq<nat>): Result<Disk, SqlError>
    decreases |cuts|
  {
    if cuts == [] then Attempt(p, d, |Program(p, d)|)
    else
      match Attempt(p, d, cuts[0])
      case Ok(next) => Restarts(p, next, cuts[1..])
      case Err(e) => Err(e)
  }

  // ---------------------------------------------------------------- what the migration is for

  predicate RowsFit(t: Table) {
    forall r | r in t.rows :: r.Keys == t.columns
  }

  /** Old values stay; columns a row lacks get their default. */
  function FillAll(added: Record, rows: seq<Record>): (filled: seq<Record>)
    ensures |filled| == |rows| && forall i | 0 <= i < |rows| :: filled[i] == added + rows[i]
  {
    seq(|rows|, i requires 0 <= i < |rows| => added + rows[i])
  }

  function UpgradedTable(c: Columns, before: Option<Table>): Table {
    Table(c.Full(), if before.Some? then FillAll(c.added, before.value.rows) else [])
  }

  function Find(d: Disk, t: TableName): Option<Table> {
    if t in d.tables then Some(d.tables[t]) else None
  }

  /** The version 2 database with the content of `d`. */
  function Upgraded(sc: Schema, d: Disk): Disk {
    Disk(map t: TableName | t in sc :: UpgradedTable(sc[t], Find(d, t)), 2)
  }

  predicate TableUnderway(c: Columns, t: Table) {
    c.base <= t.columns <= c.Full() && RowsFit(t)
  }

  /** Every known table holds its version 1 columns and perhaps some of version 2. */
  predicate TablesUnderway(sc: Schema, d: Disk) {
    && d.tables.Keys <= sc.Keys
    && (forall t | t in d.tables :: TableUnderway(sc[t], d.tables[t]))
    && (Messages !in d.tables ==> d.tables == map[] && d.userVersion < 2)
  }

  /** Every database met between a fresh or version 1 start and the end of the migration. */
  predicate Underway(sc: Schema, d: Disk) {
    TablesUnderway(sc, d) && (d.userVersion >= 2 ==> d == Upgraded(sc, d))
  }

  predicate AllFull(sc: Schema, d: Disk) {
    d.tables.Keys <= sc.Keys && forall t | t in d.tables :: d.tables[t].columns == sc[t].Full()
  }

  /** A statement of the migration: it creates a known table, or adds a version 2 column with its default. */
  predicate Schematic(sc: Schema, s: Statement) {
    match s
    case CreateTable(t, cols) => t in sc && cols == sc[t].Full()
    case CreateIndex(t) => t == Messages
    case AddColumn(t, c, v) => t in sc && c in sc[t].added && sc[t].added[c] == v
    case SetVersion(n) => false
  }

  predicate CreatesFit(sc: Schema, creates: seq<Statement>) {
    && (forall s | s in creates :: Schematic(sc, s) && !s.AddColumn?)
    && creates != [] && creates[0].CreateTable? && creates[0].name == Messages
  }

  predicate AltersFit(sc: Schema, alters: seq<Statement>) {
    forall s | s in alters :: Schematic(sc, s) && s.AddColumn?
  }

  predicate CreatesCover(sc: Schema, creates: seq<Statement>) {
    forall t | t in sc :: CreateTable(t, sc[t].Full()) in creates
  }

  predicate AltersCover(sc: Schema, alters: seq<Statement>) {
    forall t, c | t in sc && c in sc[t].added :: AddColumn(t, c, sc[t].added[c]) in alters
  }

  /** A plan whose batch starts with the message table and covers the schema. */
  predicate WellFormed(p: Plan) {
    && CreatesFit(p.schema, p.creates) && CreatesCover(p.schema, p.creates)
    && AltersFit(p.schema, p.alters) && AltersCover(p.schema, p.alters)
  }

  predicate Done(d: Disk, s: Statement) {
    match s
    case CreateTable(t, cols) => t in d.tables
    case AddColumn(t, c, v) => t in d.tables && c in d.tables[t].columns
    case _ => true
  }

  /** `next` is further along than `d`, toward the same version 2 database. */
  predicate Progress(sc: Schema, d: Disk, next: Disk) {
    && TablesUnderway(sc, next) && Upgraded(sc, next) == Upgraded(sc, d) && next.userVersion == d.userVersion
    && d.tables.Keys <= next.tables.Keys
    && (forall t | t in d.tables :: d.tables[t].columns <= next.tables[t].columns)
    && (AllFull(sc, d) ==> AllFull(sc, next))
  }

  /** The table a column is added to approaches the same version 2 table. */
  lemma AddKeepsTable(c: Columns, t: Table, column: Column)
    requires TableUnderway(c, t) && column in c.added && column !in t.columns
    ensures var next := WithColumn(t, column, c.added[column]);
            TableUnderway(c, next) && FillAll(c.added, next.rows) == FillAll(c.added, t.rows)
  {
    var next := WithColumn(t, column, c.added[column]);
    forall i | 0 <= i < |t.rows|
      ensures next.rows[i].Keys == next.columns && c.added + next.rows[i] == c.added + t.rows[i]
    {
      assert t.rows[i] in t.rows;
    }
    assert FillAll(c.added, next.rows) == FillAll(c.added, t.rows);
  }

  /** Replacing a table by one that approaches the same version 2 table is progress. */
  lemma ReplaceKeepsGoal(sc: Schema, d: Disk, t: TableName, table: Table)
    requires TablesUnderway(sc, d) && t in sc && TableUnderway(sc[t], table)
    requires Messages in d.tables || t == Messages
    requires UpgradedTable(sc[t], Some(table)) == UpgradedTable(sc[t], Find(d, t))
    requires if t in d.tables then d.tables[t].columns <= table.columns else table.columns == sc[t].Full()
    ensures Progress(sc, d, d.(tables := d.tables[t := table]))
  {
    var next := d.(tables := d.tables[t := table]);
    hide Upgraded, UpgradedTable, TablesUnderway, AllFull, TableUnderway;
    SameGoal(sc, d, t, table);
    SameShape(sc, d, t, table);
    SameColumns(sc, d, t, table);
  }

  lemma SameColumns(sc: Schema, d: Disk, t: TableName, table: Table)
    requires t in sc && TableUnderway(sc[t], table)
    requires if t in d.tables then d.tables[t].columns <= table.columns else table.columns == sc[t].Full()
    ensures AllFull(sc, d) ==> AllFull(sc, d.(tables := d.tables[t := table]))
  {
  }

  lemma SameShape(sc: Schema, d: Disk, t: TableName, table: Table)
    requires TablesUnderway(sc, d) && t in sc && TableUnderway(sc[t], table)
    requires Messages in d.tables || t == Messages
    ensures TablesUnderway(sc, d.(tables := d.tables[t := table]))
  {
  }

  lemma SameGoal(sc: Schema, d: Disk, t: TableName, table: Table)
    requires t in sc && UpgradedTable(sc[t], Some(table)) == UpgradedTable(sc[t], Find(d, t))
    ensures Upgraded(sc, d.(tables := d.tables[t := table])) == Upgraded(sc, d)
  {
    var next := d.(tables := d.tables[t := table]);
    assert Find(next, t) == Some(table);
    assert forall u | u != t :: Find(next, u) == Find(d, u);
  }

  /** No statement of the migration changes which version 2 database is being approached. */
  lemma StepKeepsGoal(sc: Schema, d: Disk, s: Statement)
    requires TablesUnderway(sc, d) && Schematic(sc, s)
    requires Messages in d.tables || (s.CreateTable? && s.name == Messages)
    requires s.AddColumn? ==> s.table in d.tables
    ensures Execute(d, s).Ok? ==> Progress(sc, d, Execute(d, s).value) && Done(Execute(d, s).value, s)
    ensures Execute(d, s).Err? ==> Execute(d, s).error == DuplicateColumn && Done(d, s)
  {
    match s {
      case CreateTable(t, cols) =>
        if t !in d.tables {
          ReplaceKeepsGoal(sc, d, t, Table(cols, []));
        }
      case AddColumn(t, c, v) =>
        if c !in d.tables[t].columns {
          AddKeepsTable(sc[t], d.tables[t], c);
          ReplaceKeepsGoal(sc, d, t, WithColumn(d.tables[t], c, v));
        }
      case _ =>
    }
  }

  /** Any number of statements succeed, take effect, and keep the goal. */
  lemma {:induction false} StepsKeepGoal(sc: Schema, d: Disk, stmts: seq<Statement>)
    requires TablesUnderway(sc, d)
    requires Messages in d.tables || (stmts != [] ==> stmts[0].CreateTable? && stmts[0].name == Messages)
    requires forall s | s in stmts :: Schematic(sc, s) && (s.AddColumn? ==> s.table in d.tables)
    ensures ExecuteAll(d, stmts).Ok?
    ensures Progress(sc, d, ExecuteAll(d, stmts).value)
    ensures forall s | s in stmts :: Done(ExecuteAll(d, stmts).value, s)
    decreases |stmts|
  {
    hide Upgraded, TableUnderway, Schematic, AllFull;
    if stmts != [] {
      var s := stmts[0];
      assert stmts == [s] + stmts[1..];
      StepKeepsGoal(sc, d, s);
      var next := if Execute(d, s).Ok? then Execute(d, s).value else d;
      assert Progress(sc, d, next) && Done(next, s);
      StepsKeepGoal(sc, next, stmts[1..]);
      var final := ExecuteAll(next, stmts[1..]).value;
      ProgressAgain(sc, d, next, final);
      DoneStays(sc, next, final, s);
    }
  }

  lemma ProgressAgain(sc: Schema, d: Disk, mid: Disk, next: Disk)
    requires Progress(sc, d, mid) && Progress(sc, mid, next)
    ensures Progress(sc, d, next)
  {
    hide Upgraded, TableUnderway;
  }

  lemma DoneStays(sc: Schema, d: Disk, next: Disk, s: Statement)
    requires Progress(sc, d, next) && Done(d, s)
    ensures Done(next, s)
  {
    hide Upgraded, TableUnderway;
  }

  lemma {:induction false} ExecuteAppend(d: Disk, a: seq<Statement>, b: seq<Statement>)
    requires ExecuteAll(d, a).Ok?
    ensures ExecuteAll(d, a + b) == ExecuteAll(ExecuteAll(d, a).value, b)
    decreases |a|
  {
    if a == [] {
      assert a + b == b;
    } else {
      assert (a + b)[1..] == a[1..] + b;
      ExecuteAppend(if Execute(d, a[0]).Ok? then Execute(d, a[0]).value else d, a[1..], b);
    }
  }

  lemma FullTableIsUpgraded(c: Columns, t: Table)
    requires RowsFit(t) && t.columns == c.Full()
    ensures UpgradedTable(c, Some(t)) == t
  {
    forall i | 0 <= i < |t.rows|
      ensures c.added + t.rows[i] == t.rows[i]
    {
      assert t.rows[i] in t.rows;
    }
    assert FillAll(c.added, t.rows) == t.rows;
  }

  /** With every table complete, setting the version is all that is missing. */
  lemma CompleteIsUpgraded(sc: Schema, d: Disk)
    requires TablesUnderway(sc, d) && AllFull(sc, d) && d.tables.Keys == sc.Keys
    ensures d.(userVersion := 2) == Upgraded(sc, d)
  {
    forall t | t in sc
      ensures UpgradedTable(sc[t], Find(d, t)) == d.tables[t]
    {
      FullTableIsUpgraded(sc[t], d.tables[t]);
    }
    assert Upgraded(sc, d).tables == d.tables;
  }

  lemma EveryTable(sc: Schema, creates: seq<Statement>, created: Disk)
    requires CreatesCover(sc, creates) && created.tables.Keys <= sc.Keys
    requires forall s | s in creates :: Done(created, s)
    ensures created.tables.Keys == sc.Keys
  {
    forall t | t in sc
      ensures t in created.tables
    {
      assert CreateTable(t, sc[t].Full()) in creates;
    }
  }

  lemma EveryColumn(sc: Schema, alters: seq<Statement>, altered: Disk)
    requires AltersCover(sc, alters) && TablesUnderway(sc, altered)
    requires forall s | s in alters :: Done(altered, s)
    ensures AllFull(sc, altered)
  {
    forall t | t in altered.tables
      ensures altered.tables[t].columns == sc[t].Full()
    {
      forall c | c in sc[t].added
        ensures c in altered.tables[t].columns
      {
        assert AddColumn(t, c, sc[t].added[c]) in alters;
      }
    }
  }

  /** The create batch, cut anywhere. */
  lemma CreatesKeepGoal(sc: Schema, d: Disk, creates: seq<Statement>, cut: nat)
    requires CreatesFit(sc, creates) && CreatesCover(sc, creates) && cut <= |creates|
    requires TablesUnderway(sc, d) && d.userVersion < 2
    ensures ExecuteAll(d, creates[..cut]).Ok?
    ensures var next := ExecuteAll(d, creates[..cut]).value;
            Progress(sc, d, next) && (cut == |creates| ==> next.tables.Keys == sc.Keys)
  {
    forall s | s in creates[..cut]
      ensures Schematic(sc, s) && !s.AddColumn?
    {
      assert s in creates;
    }
    StepsKeepGoal(sc, d, creates[..cut]);
    if cut == |creates| {
      assert creates[..cut] == creates;
      EveryTable(sc, creates, ExecuteAll(d, creates[..cut]).value);
    }
  }

  /** The alterations, cut anywhere, once every table is there. */
  lemma AltersKeepGoal(sc: Schema, created: Disk, alters: seq<Statement>, cut: nat)
    requires AltersFit(sc, alters) && AltersCover(sc, alters) && cut <= |alters|
    requires TablesUnderway(sc, created) && created.userVersion < 2
    requires created.tables.Keys == sc.Keys && Messages in created.tables
    ensures ExecuteAll(created, alters[..cut]).Ok?
    ensures var next := ExecuteAll(created, alters[..cut]).value;
            Progress(sc, created, next) && (cut == |alters| ==> AllFull(sc, next))
  {
    hide Upgraded, TableUnderway, ExecuteAll;
    forall s | s in alters[..cut]
      ensures Schematic(sc, s) && s.table in created.tables
    {
      assert s in alters;
    }
    StepsKeepGoal(sc, created, alters[..cut]);
    if cut == |alters| {
      assert alters[..cut] == alters;
      EveryColumn(sc, alters, ExecuteAll(created, alters[..cut]).value);
    }
  }

  /** Progress made by one list of statements and then another. */
  lemma ThenMore(sc: Schema, d: Disk, a: seq<Statement>, mid: Disk, b: seq<Statement>, next: Disk)
    requires ExecuteAll(d, a) == Ok(mid) && ExecuteAll(mid, b) == Ok(next)
    requires Progress(sc, d, mid) && Progress(sc, mid, next)
    ensures ExecuteAll(d, a + b) == Ok(next) && Progress(sc, d, next)
  {
    ExecuteAppend(d, a, b);
  }

  /** The whole batch and then alterations, cut anywhere, on a database that had the message table. */
  lemma AltersAfterCreates(p: Plan, d: Disk, cut: nat) returns (next: Disk)
    requires WellFormed(p) && TablesUnderway(p.schema, d) && d.userVersion < 2 && Messages in d.tables
    requires cut <= |p.alters|
    ensures ExecuteAll(d, p.creates + p.alters[..cut]) == Ok(next)
    ensures Progress(p.schema, d, next) && next.tables.Keys == p.schema.Keys
    ensures cut == |p.alters| ==> AllFull(p.schema, next)
  {
    hide Upgraded, TableUnderway, Execute;
    CreatesKeepGoal(p.schema, d, p.creates, |p.creates|);
    assert p.creates[..|p.creates|] == p.creates;
    var created := ExecuteAll(d, p.creates).value;
    AltersKeepGoal(p.schema, created, p.alters, cut);
    next := ExecuteAll(created, p.alters[..cut]).value;
    ThenMore(p.schema, d, p.creates, created, p.alters[..cut], next);
  }

  /** Everything a complete run does before it sets the version. */
  lemma AllStatements(p: Plan, d: Disk) returns (next: Disk)
    requires WellFormed(p) && TablesUnderway(p.schema, d) && d.userVersion < 2
    ensures ExecuteAll(d, p.creates + if Messages in d.tables then p.alters else []) == Ok(next)
    ensures Progress(p.schema, d, next) && next.tables.Keys == p.schema.Keys && AllFull(p.schema, next)
  {
    hide Upgraded, TableUnderway, Execute;
    if Messages in d.tables {
      next := AltersAfterCreates(p, d, |p.alters|);
      assert p.alters[..|p.alters|] == p.alters;
    } else {
      CreatesKeepGoal(p.schema, d, p.creates, |p.creates|);
      assert p.creates + [] == p.creates[..|p.creates|];
      next := ExecuteAll(d, p.creates + []).value;
    }
  }

  /** A complete run that starts below version 2. */
  lemma CompleteRun(p: Plan, d: Disk)
    requires WellFormed(p) && TablesUnderway(p.schema, d) && d.userVersion < 2
    ensures ExecuteAll(d, Program(p, d)) == Ok(Upgraded(p.schema, d))
    ensures Underway(p.schema, Upgraded(p.schema, d))
    ensures Upgraded(p.schema, Upgraded(p.schema, d)) == Upgraded(p.schema, d)
  {
    var stmts := p.creates + if Messages in d.tables then p.alters else [];
    var next := AllStatements(p, d);
    ExecuteAppend(d, stmts, [SetVersion(2)]);
    assert p.creates[0] in p.creates;
    FinishedRun(p.schema, d, next);
  }

  lemma CutFirst<T>(a: seq<T>, b: seq<T>, cut: nat)
    requires cut <= |a|
    ensures (a + b)[..cut] == a[..cut]
  {
  }

  lemma CutSecond<T>(a: seq<T>, b: seq<T>, c: seq<T>, cut: nat)
    requires |a| <= cut <= |a| + |b|
    ensures (a + b + c)[..cut] == a + b[..cut - |a|]
  {
  }

  /** A run that dies in the create batch. */
  lemma CutInCreates(p: Plan, d: Disk, cut: nat) returns (next: Disk)
    requires WellFormed(p) && TablesUnderway(p.schema, d) && d.userVersion < 2 && cut <= |p.creates|
    ensures cut < |Program(p, d)|
    ensures ExecuteAll(d, Program(p, d)[..cut]) == Ok(next) && Progress(p.schema, d, next)
  {
    hide Upgraded, TablesUnderway, ExecuteAll, Progress, CreatesFit, CreatesCover, AltersFit, AltersCover;
    var rest := (if Messages in d.tables then p.alters else []) + [SetVersion(2)];
    assert Program(p, d) == p.creates + rest;
    CutFirst(p.creates, rest, cut);
    CreatesKeepGoal(p.schema, d, p.creates, cut);
    next := ExecuteAll(d, p.creates[..cut]).value;
  }

  /** A run that dies among the alterations. */
  lemma CutInAlters(p: Plan, d: Disk, cut: nat) returns (next: Disk)
    requires WellFormed(p) && TablesUnderway(p.schema, d) && d.userVersion < 2
    requires |p.creates| < cut < |Program(p, d)|
    ensures ExecuteAll(d, Program(p, d)[..cut]) == Ok(next) && Progress(p.schema, d, next)
  {
    hide Upgraded, TablesUnderway, ExecuteAll, Progress, WellFormed;
    CutSecond(p.creates, p.alters, [SetVersion(2)], cut);
    next := AltersAfterCreates(p, d, cut - |p.creates|);
  }

  /** A run that dies below version 2. */
  lemma CutRun(p: Plan, d: Disk, cut: nat) returns (next: Disk)
    requires WellFormed(p) && TablesUnderway(p.schema, d) && d.userVersion < 2 && cut < |Program(p, d)|
    ensures ExecuteAll(d, Program(p, d)[..cut]) == Ok(next) && Progress(p.schema, d, next)
  {
    hide Upgraded, TablesUnderway, ExecuteAll, Progress, Program, WellFormed;
    if cut <= |p.creates| {
      next := CutInCreates(p, d, cut);
    } else {
      next := CutInAlters(p, d, cut);
    }
  }

  /** One run, cut off after any statement or not at all. */
  lemma AttemptKeepsGoal(p: Plan, d: Disk, cut: nat) returns (next: Disk)
    requires WellFormed(p) && Underway(p.schema, d)
    ensures Attempt(p, d, cut) == Ok(next) && Underway(p.schema, next)
    ensures Upgraded(p.schema, next) == Upgraded(p.schema, d)
    ensures cut >= |Program(p, d)| ==> next == Upgraded(p.schema, d)
  {
    hide Upgraded, TableUnderway, Execute;
    if d.userVersion >= 2 {
      next := d;
    } else if cut >= |Program(p, d)| {
      CompleteRun(p, d);
      assert Program(p, d)[..|Program(p, d)|] == Program(p, d);
      next := Upgraded(p.schema, d);
    } else {
      next := CutRun(p, d, cut);
    }
  }

  lemma FinishedRun(sc: Schema, d: Disk, altered: Disk)
    requires TablesUnderway(sc, altered) && AllFull(sc, altered) && altered.tables.Keys == sc.Keys
    requires Upgraded(sc, altered) == Upgraded(sc, d) && Messages in altered.tables
    ensures ExecuteAll(altered, [SetVersion(2)]) == Ok(Upgraded(sc, d))
    ensures Upgraded(sc, Upgraded(sc, d)) == Upgraded(sc, d) && Underway(sc, Upgraded(sc, d))
  {
    CompleteIsUpgraded(sc, altered);
    var up := altered.(userVersion := 2);
    assert ExecuteAll(altered, [SetVersion(2)]) == Ok(up) by {
      OnlyVersion(altered);
    }
    VersionIrrelevant(sc, altered);
    hide Upgraded, TableUnderway, ExecuteAll, AllFull;
  }

  lemma OnlyVersion(d: Disk)
    ensures ExecuteAll(d, [SetVersion(2)]) == Ok(d.(userVersion := 2))
  {
    assert [SetVersion(2)][1..] == [];
  }

  lemma VersionIrrelevant(sc: Schema, d: Disk)
    ensures Upgraded(sc, d.(userVersion := 2)) == Upgraded(sc, d)
  {
    assert forall t | t in sc :: Find(d.(userVersion := 2), t) == Find(d, t);
  }

  lemma {:induction false} RestartsConverge(p: Plan, d: Disk, cuts: seq<nat>)
    requires WellFormed(p) && Underway(p.schema, d)
    ensures Restarts(p, d, cuts) == Ok(Upgraded(p.schema, d))
    decreases |cuts|
  {
    hide Upgraded, TablesUnderway, ExecuteAll;
    if cuts == [] {
      var next := AttemptKeepsGoal(p, d, |Program(p, d)|);
    } else {
      var next := AttemptKeepsGoal(p, d, cuts[0]);
      RestartsConverge(p, next, cuts[1..]);
    }
  }

  // ---------------------------------------------------------------- version 2 itself

  function ColumnsOf(t: TableName): Columns {
    match t
    case Messages =>
      Columns({Seq, Id, Direction, Sender, Recipient, Topic, Ts, Ctype, InReplyTo, Body},
              map[Kind := Text("message"), CorrelationId := Null, Supersedes := Null, Encrypted := Number(0),
                  DeliveryState := Text("none"), BrokerAckTs := Null, DeliveredTs := Null, ReadTs := Null])
    case Cursors => Columns({Consumer, LastSeq}, map[UpdatedAt := Null])
    case Outbox => Columns({Seq, Id, Topic, Payload, Qos, Retain}, map[])
    case Rejections => Columns({Seq, At, Reason, Detail}, map[ClaimedSender := Null, Topic := Null])
    case Presence => Columns({Agent, State, Source, TtlSecs, Detail, Seq, LastSeen, UpdatedAt}, map[])
    case SeenGrants => Columns({GrantId, At}, map[])
  }

  const SCHEMA: Schema :=
    map t: TableName | t in {Messages, Cursors, Outbox, Rejections, Presence, SeenGrants} :: ColumnsOf(t)

  function Create(t: TableName): Statement {
    CreateTable(t, ColumnsOf(t).Full())
  }

  const CREATES := [
    Create(Messages), CreateIndex(Messages), CreateIndex(Messages), Create(Cursors), Create(Outbox), Create(Rejections),
    Create(Presence), Create(SeenGrants)]

  const MIGRATE_V2 := [
    AddColumn(Messages, Kind, Text("message")), AddColumn(Messages, CorrelationId, Null),
    AddColumn(Messages, Supersedes, Null), AddColumn(Messages, Encrypted, Number(0)),
    AddColumn(Messages, DeliveryState, Text("none")), AddColumn(Messages, BrokerAckTs, Null),
    AddColumn(Messages, DeliveredTs, Null), AddColumn(Messages, ReadTs, Null),
    AddColumn(Rejections, ClaimedSender, Null), AddColumn(Rejections, Topic, Null),
    AddColumn(Cursors, UpdatedAt, Null)]

  const V2 := Plan(SCHEMA, CREATES, MIGRATE_V2)

  lemma CreatesMatchSchema()
    ensures forall s | s in CREATES :: Schematic(SCHEMA, s) && !s.AddColumn?
    ensures forall t | t in SCHEMA :: CreateTable(t, SCHEMA[t].Full()) in CREATES
  {
    forall t | t in SCHEMA
      ensures Create(t) in CREATES
    {
      assert Create(t) == CREATES[match t
                                  case Messages => 0
                                  case Cursors => 3
                                  case Outbox => 4
                                  case Rejections => 5
                                  case Presence => 6
                                  case SeenGrants => 7];
    }
  }

  lemma AltersAreSchematic()
    ensures forall s | s in MIGRATE_V2 :: Schematic(SCHEMA, s) && s.AddColumn?
  {
    forall s | s in MIGRATE_V2
      ensures Schematic(SCHEMA, s) && s.AddColumn?
    {
      assert s.AddColumn? && s.table in SCHEMA;
    }
  }

  lemma MessageAlters(c: Column)
    requires c in ColumnsOf(Messages).added
    ensures AddColumn(Messages, c, ColumnsOf(Messages).added[c]) in MIGRATE_V2
  {
    assert MIGRATE_V2[match c
                      case Kind => 0
                      case CorrelationId => 1
                      case Supersedes => 2
                      case Encrypted => 3
                      case DeliveryState => 4
                      case BrokerAckTs => 5
                      case DeliveredTs => 6
                      case _ => 7] == AddColumn(Messages, c, ColumnsOf(Messages).added[c]);
  }

  lemma AlterOf(t: TableName, c: Column)
    requires c in ColumnsOf(t).added
    ensures AddColumn(t, c, ColumnsOf(t).added[c]) in MIGRATE_V2
  {
    match t {
      case Messages =>
        MessageAlters(c);
      case Rejections =>
        assert MIGRATE_V2[if c == ClaimedSender then 8 else 9] == AddColumn(Rejections, c, Null);
      case Cursors =>
        assert MIGRATE_V2[10] == AddColumn(Cursors, c, Null);
      case _ =>
    }
  }

  lemma V2IsWellFormed()
    ensures WellFormed(V2)
  {
    CreatesMatchSchema();
    AltersAreSchematic();
    forall t, c | t in SCHEMA && c in SCHEMA[t].added
      ensures AddColumn(t, c, SCHEMA[t].added[c]) in MIGRATE_V2
    {
      AlterOf(t, c);
    }
  }

  /** The columns the store's statements name in each table. */
  function Named(t: TableName): set<Column> {
    match t
    case Messages =>
      {Seq, Id, Direction, Sender, Recipient, Topic, Ts, Ctype, InReplyTo, Body, Kind, CorrelationId, Supersedes,
       Encrypted, DeliveryState, BrokerAckTs, DeliveredTs, ReadTs}
    case Cursors => {Consumer, LastSeq, UpdatedAt}
    case Outbox => {Seq, Id, Topic, Payload, Qos, Retain}
    case Rejections => {Seq, At, Reason, ClaimedSender, Topic, Detail}
    case Presence => {Agent, State, Source, TtlSecs, Detail, Seq, LastSeen, UpdatedAt}
    case SeenGrants => {GrantId, At}
  }

  lemma SchemaNames(t: TableName)
    ensures t in SCHEMA && SCHEMA[t].Full() == Named(t)
  {
  }

  /** Whatever the migration started from and however often it was cut, the store's statements find their columns. */
  lemma StatementsFindTheirColumns(d: Disk, cuts: seq<nat>, t: TableName)
    requires Fresh(d) || VersionOne(d)
    ensures Restarts(V2, d, cuts).Ok?
    ensures var tables := Restarts(V2, d, cuts).value.tables; t in tables && tables[t].columns == Named(t)
  {
    hide Restarts, FillAll, Named, Fresh, VersionOne;
    MigrationConverges(d, cuts, 0);
    SchemaNames(t);
  }

  predicate Fresh(d: Disk) {
    d.tables == map[] && d.userVersion < 2
  }

  /** A version 1 database: the three tables with their old columns, and the outbox if it was there. */
  predicate VersionOne(d: Disk) {
    && d.userVersion < 2
    && {Messages, Cursors, Rejections} <= d.tables.Keys <= {Messages, Cursors, Rejections, Outbox}
    && forall t | t in d.tables :: d.tables[t].columns == SCHEMA[t].base && RowsFit(d.tables[t])
  }

  lemma FurtherRun(p: Plan, d: Disk, cut: nat)
    requires d.userVersion >= 2
    ensures Attempt(p, d, cut) == Ok(d)
  {
  }

  lemma StartsUnderway(d: Disk)
    requires Fresh(d) || VersionOne(d)
    ensures Underway(SCHEMA, d)
  {
  }

  /**
    From a fresh or version 1 database, any number of runs cut off anywhere and then one complete run end in
    version 2 with every old row kept and new columns at their defaults; a further run changes nothing.
   */
  lemma MigrationConverges(d: Disk, cuts: seq<nat>, more: nat)
    requires Fresh(d) || VersionOne(d)
    ensures Restarts(V2, d, cuts) == Ok(Upgraded(SCHEMA, d))
    ensures Attempt(V2, Upgraded(SCHEMA, d), more) == Ok(Upgraded(SCHEMA, d))
  {
    V2IsWellFormed();
    StartsUnderway(d);
    RestartsConverge(V2, d, cuts);
    FurtherRun(V2, Upgraded(SCHEMA, d), more);
  }

  // ---------------------------------------------------------------- the migration as it runs

  class Connection {
    var tables: map<TableName, Table>
    var userVersion: int

    ghost function View(): Disk
      reads this
    {
      Disk(tables, userVersion)
    }

    constructor (d: Disk)
      ensures View() == d
    {
      tables, userVersion := d.tables, d.userVersion;
    }

    /** Executes one statement. */
    method Run(s: Statement) returns (error: Option<SqlError>)
      modifies this
      ensures match Execute(old(View()), s)
              case Ok(next) => error == None && View() == next
              case Err(e) => error == Some(e) && View() == old(View())
    {
      match s {
        case CreateTable(t, cols) =>
          if t !in tables {
            tables := tables[t := Table(cols, [])];
          }
          return None;
        case CreateIndex(t) =>
          return if t in tables then None else Some(NoSuchTable);
        case AddColumn(t, c, v) =>
          if t !in tables {
            return Some(NoSuchTable);
          }
          if c in tables[t].columns {
            return Some(DuplicateColumn);
          }
          tables := tables[t := WithColumn(tables[t], c, v)];
          return None;
        case SetVersion(n) =>
          userVersion := n;
          return None;
      }
    }

    /** Runs a batch, swallowing duplicate columns. */
    method RunAll(stmts: seq<Statement>) returns (error: Option<SqlError>)
      modifies this
      ensures match ExecuteAll(old(View()), stmts)
              case Ok(next) => error == None && View() == next
              case Err(e) => error == Some(e)
    {
      for i := 0 to |stmts|
        invariant ExecuteAll(View(), stmts[i..]) == ExecuteAll(old(View()), stmts)
      {
        assert stmts[i..][1..] == stmts[i + 1..];
        var e := Run(stmts[i]);
        if e.Some? && e != Some(DuplicateColumn) {
          return e;
        }
      }
      return None;
    }

    /** `migrate`, dying after `cut` statements. */
    method Migrate(p: Plan, cut: nat) returns (error: Option<SqlError>)
      requires WellFormed(p) && Underway(p.schema, View())
      modifies this
      ensures error == None && Ok(View()) == Attempt(p, old(View()), cut)
      ensures Upgraded(p.schema, View()) == Upgraded(p.schema, old(View()))
      ensures cut >= |Program(p, old(View()))| ==> View() == Upgraded(p.schema, old(View()))
    {
      ghost var next := AttemptKeepsGoal(p, View(), cut);
      if userVersion >= 2 {
        return None;
      }
      var hasMessages := Messages in tables;
      var stmts := p.creates + (if hasMessages then p.alters else []) + [SetVersion(2)];
      error := RunAll(stmts[..Min(cut, |stmts|)]);
    }
  }
}
