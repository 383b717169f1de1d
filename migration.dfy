/** The migration tool (cmd/migration/main.go): loading the `.sql` files of a
    directory, applying one migration in a transaction, the plan that decides
    which migrations a run applies, and the status report. The database is a
    value: the tracking table `migrations`, the statements committed by
    transactions, and the `USE` statements run on the connection. Every
    database or file-system failure comes from a `Faults` oracle. */
module Migrations {
  import opened Common
  import opened Queries
  import opened SqlScript

  /** A migration file; its ID is the part of the name before the first `_`. */
  datatype Migration = Migration(id: string, filename: string, content: string)

  /** An entry of the migrations directory, with what reading the file returns. */
  datatype DirEntry = DirEntry(name: string, isDir: bool, content: Result<string>)

  // ---------------------------------------------------------------------------
  // LoadMigrations

  /** A file `LoadMigrations` reads: not a directory, named `*.sql`, and with a `_`. */
  predicate Wanted(e: DirEntry)
  {
    !e.isDir && HasSuffix(e.name, ".sql") && '_' in e.name
  }

  /** The migration a wanted, readable entry becomes. */
  function MigrationOf(e: DirEntry): Migration
  {
    Migration(Split(e.name, '_')[0], e.name, if e.content.Ok? then e.content.value else "")
  }

  /** The shape of a loaded migration's file name: `<id>_<rest>.sql`, the ID free of `_`. */
  predicate WellNamed(m: Migration)
  {
    && HasSuffix(m.filename, ".sql")
    && |m.id| < |m.filename| && m.filename[..|m.id|] == m.id && m.filename[|m.id|] == '_'
    && '_' !in m.id
  }

  lemma {:induction false} SeparatorCount(s: string, c: char)
    ensures CountChar(s, c) > 0 <==> c in s
  {
    if s != [] {
      SeparatorCount(s[1..], c);
      assert s == [s[0]] + s[1..];
    }
  }

  /** `strings.Split(name, "_")[0]` is the text before the first `_`. */
  lemma {:induction false} IdBeforeFirstUnderscore(name: string)
    requires '_' in name
    ensures var id := Split(name, '_')[0];
      |id| < |name| && name[..|id|] == id && name[|id|] == '_' && '_' !in id
  {
    if name[0] != '_' {
      assert name == [name[0]] + name[1..];
      IdBeforeFirstUnderscore(name[1..]);
    }
  }

  /** The loop of `LoadMigrations` over the directory listing: skipped entries,
      the first unreadable file as an error, the migrations in listing order. */
  function Collect(entries: seq<DirEntry>): (r: Result<seq<Migration>>)
    ensures r.Ok? <==> forall j :: 0 <= j < |entries| && Wanted(entries[j]) ==> entries[j].content.Ok?
  {
    if entries == [] then Ok([])
    else
      var e := entries[|entries| - 1];
      var prev := Collect(entries[..|entries| - 1]);
      SeparatorCount(e.name, '_');
      assert forall j :: 0 <= j < |entries| - 1 ==> entries[..|entries| - 1][j] == entries[j];
      if prev.Err? then prev
      else if e.isDir || !HasSuffix(e.name, ".sql") || |Split(e.name, '_')| < 2 then prev
      else if e.content.Err? then Err(Wrapped("failed to read migration file " + e.name, e.content.error))
      else Ok(prev.value + [Migration(Split(e.name, '_')[0], e.name, e.content.value)])
  }

  /** A successful collection is the one of the entries before the last, plus
      the last entry's migration when it is wanted. */
  lemma CollectStep(entries: seq<DirEntry>)
    requires entries != [] && Collect(entries).Ok?
    ensures var shorter := entries[..|entries| - 1];
      var e := entries[|entries| - 1];
      Collect(shorter).Ok? &&
      Collect(entries).value == Collect(shorter).value + (if Wanted(e) then [MigrationOf(e)] else [])
  {
    SeparatorCount(entries[|entries| - 1].name, '_');
  }

  /** `m` is the migration of one of the wanted entries. */
  predicate FromWanted(entries: seq<DirEntry>, m: Migration)
  {
    exists j :: 0 <= j < |entries| && Wanted(entries[j]) && m == MigrationOf(entries[j])
  }

  /** The collected migrations are exactly those of the wanted entries. */
  lemma CollectMembers(entries: seq<DirEntry>)
    requires Collect(entries).Ok?
    ensures forall i :: 0 <= i < |Collect(entries).value| ==> FromWanted(entries, Collect(entries).value[i])
    ensures forall j :: 0 <= j < |entries| && Wanted(entries[j]) ==> MigrationOf(entries[j]) in Collect(entries).value
  {
    CollectOnlyWanted(entries);
    CollectAllWanted(entries);
  }

  lemma {:induction false} CollectOnlyWanted(entries: seq<DirEntry>)
    requires Collect(entries).Ok?
    ensures forall i :: 0 <= i < |Collect(entries).value| ==> FromWanted(entries, Collect(entries).value[i])
  {
    if entries != [] {
      var n := |entries|;
      var shorter := entries[..n - 1];
      CollectStep(entries);
      CollectOnlyWanted(shorter);
      var ms := Collect(entries).value;
      var prev := Collect(shorter).value;
      forall i | 0 <= i < |ms| ensures FromWanted(entries, ms[i]) {
        if i < |prev| {
          assert FromWanted(shorter, prev[i]);
          var j :| 0 <= j < |shorter| && Wanted(shorter[j]) && prev[i] == MigrationOf(shorter[j]);
          assert entries[j] == shorter[j];
        } else {
          assert Wanted(entries[n - 1]) && ms[i] == MigrationOf(entries[n - 1]);
        }
      }
    }
  }

  lemma {:induction false} CollectAllWanted(entries: seq<DirEntry>)
    requires Collect(entries).Ok?
    ensures forall j :: 0 <= j < |entries| && Wanted(entries[j]) ==> MigrationOf(entries[j]) in Collect(entries).value
  {
    if entries != [] {
      var n := |entries|;
      var shorter := entries[..n - 1];
      CollectStep(entries);
      CollectAllWanted(shorter);
      var ms := Collect(entries).value;
      var prev := Collect(shorter).value;
      forall j | 0 <= j < n && Wanted(entries[j]) ensures MigrationOf(entries[j]) in ms {
        if j < n - 1 {
          assert shorter[j] == entries[j];
          assert MigrationOf(shorter[j]) in prev;
        } else {
          assert ms[|ms| - 1] == MigrationOf(entries[n - 1]);
        }
      }
    }
  }

  /** The order of `sort.Slice` in `LoadMigrations`: by ID, as Go compares strings. */
  predicate IdLe(a: Migration, b: Migration)
  {
    StrLe(a.id, b.id)
  }

  lemma IdLeTotalPreorder()
    ensures TotalPreorder(IdLe)
  {
    forall a: Migration, b: Migration ensures IdLe(a, b) || IdLe(b, a) {
      StrLeTotal(a.id, b.id);
    }
    forall a: Migration, b: Migration, c: Migration | IdLe(a, b) && IdLe(b, c) ensures IdLe(a, c) {
      StrLeTransitive(a.id, b.id, c.id);
    }
  }

  /** `LoadMigrations`: the directory listing (or its error), turned into the
      migrations sorted by ID. */
  function Load(dir: Result<seq<DirEntry>>): Result<seq<Migration>>
  {
    match dir
    case Err(cause) => Err(Wrapped("failed to read migrations directory", cause))
    case Ok(entries) =>
      var collected := Collect(entries);
      if collected.Err? then collected else Ok(Sort(IdLe, collected.value))
  }

  /** Loading succeeds exactly when the directory and every wanted file can be
      read; it then yields exactly the wanted files, each well named, in
      ascending ID order. */
  lemma LoadedMigrations(dir: Result<seq<DirEntry>>)
    ensures Load(dir).Ok? <==>
      dir.Ok? && forall j :: 0 <= j < |dir.value| && Wanted(dir.value[j]) ==> dir.value[j].content.Ok?
    ensures Load(dir).Ok? ==> SortedBy(IdLe, Load(dir).value)
    ensures Load(dir).Ok? ==> forall m :: m in Load(dir).value <==> FromWanted(dir.value, m)
    ensures Load(dir).Ok? ==> forall i :: 0 <= i < |Load(dir).value| ==> WellNamed(Load(dir).value[i])
  {
    if Load(dir).Ok? {
      var entries := dir.value;
      var ms := Collect(entries).value;
      CollectMembers(entries);
      forall m | FromWanted(entries, m) ensures m in ms {
        var j :| 0 <= j < |entries| && Wanted(entries[j]) && m == MigrationOf(entries[j]);
      }
      IdLeTotalPreorder();
      SortSorted(IdLe, ms);
      var sorted := Load(dir).value;
      assert multiset(sorted) == multiset(ms);
      forall m ensures m in sorted <==> m in ms {
        assert m in sorted <==> m in multiset(sorted);
      }
      forall i | 0 <= i < |sorted| ensures WellNamed(sorted[i]) {
        assert sorted[i] in ms;
        var k :| 0 <= k < |ms| && ms[k] == sorted[i];
        assert FromWanted(entries, ms[k]);
        var j :| 0 <= j < |entries| && Wanted(entries[j]) && sorted[i] == MigrationOf(entries[j]);
        IdBeforeFirstUnderscore(entries[j].name);
      }
    }
  }

  /** Once a prefix of the listing has failed, the rest changes nothing. */
  lemma {:induction false} CollectStops(entries: seq<DirEntry>, k: nat)
    requires k <= |entries| && Collect(entries[..k]).Err?
    ensures Collect(entries) == Collect(entries[..k])
    decreases |entries| - k
  {
    if k < |entries| {
      var shorter := entries[..|entries| - 1];
      assert shorter[..k] == entries[..k];
      CollectStops(shorter, k);
    } else {
      assert entries[..k] == entries;
    }
  }

  /** `LoadMigrations` as the code runs it: a loop that appends, then the sort. */
  method LoadMigrations(dir: Result<seq<DirEntry>>) returns (r: Result<seq<Migration>>)
    ensures r == Load(dir)
  {
    if dir.Err? {
      return Err(Wrapped("failed to read migrations directory", dir.error));
    }
    var files := dir.value;
    var migrations: seq<Migration> := [];
    for k := 0 to |files|
      invariant Collect(files[..k]) == Ok(migrations)
    {
      var file := files[k];
      assert files[..k + 1][..k] == files[..k];
      if file.isDir || !HasSuffix(file.name, ".sql") {
        continue;
      }
      var parts := Split(file.name, '_');
      if |parts| < 2 {
        continue;
      }
      var migrationId := parts[0];
      if file.content.Err? {
        CollectStops(files, k + 1);
        return Err(Wrapped("failed to read migration file " + file.name, file.content.error));
      }
      migrations := migrations + [Migration(migrationId, file.name, file.content.value)];
    }
    assert files[..|files|] == files;
    r := Ok(Sort(IdLe, migrations));
  }

  // ---------------------------------------------------------------------------
  // The database and its failures

  /** A row of the tracking table `migrations`. */
  datatype TrackingRow = TrackingRow(id: string, filename: string, checksum: string)

  /** What the tool has done to the server: the tracking table, the statements
      committed by transactions, and the `USE` statements run on the connection. */
  datatype DbState = DbState(tracked: seq<TrackingRow>, committed: seq<string>, onConnection: seq<string>)

  /** Which database calls fail, and with what error. */
  datatype Faults = Faults(
    begin: map<string, Error>,            // `BeginTx` for a migration ID
    statement: map<(string, nat), Error>, // statement number n (from 1) of a migration ID
    record: map<string, Error>,           // the tracking-row INSERT of a migration ID
    commit: map<string, Error>,           // `Commit` for a migration ID
    readApplied: Option<Error>,           // `GetAppliedMigrations`
    reconnect: Option<Error>)             // `reconnectToDatabase`

  const NoFaults: Faults := Faults(map[], map[], map[], map[], None, None)

  /** The bootstrap migrations: `000` creates the database, `001` the tracking table. */
  predicate Bootstrap(id: string)
  {
    id == "000" || id == "001"
  }

  /** `GetAppliedMigrations`' map, as the set of IDs it maps to true. */
  function TrackedIds(rows: seq<TrackingRow>): set<string>
  {
    set i | 0 <= i < |rows| :: rows[i].id
  }

  function ReadApplied(db: DbState, f: Faults): Result<set<string>>
  {
    if f.readApplied.Some? then Err(f.readApplied.value) else Ok(TrackedIds(db.tracked))
  }

  // ---------------------------------------------------------------------------
  // ApplyMigration

  /** The statement loop of `ApplyMigration` so far: the statements queued in
      the transaction, those run on the connection, and the error that stopped it. */
  datatype Executed = Executed(inTransaction: seq<string>, direct: seq<string>, err: Option<Error>)

  function StatementError(id: string, number: nat, kind: StatementKind, cause: Error): Error
  {
    Wrapped("failed to execute migration " + id + " statement " + Itoa(number),
      Wrapped(if kind == OnConnection then "failed to execute USE statement" else "failed to execute statement", cause))
  }

  /** One statement of the loop, number `number` counting from 1. */
  function ExecuteOne(prev: Executed, id: string, number: nat, statement: string, f: Faults): Executed
  {
    var s := TrimSpace(statement);
    var kind := Classify(statement);
    if kind == Skipped then prev
    else if (id, number) in f.statement then prev.(err := Some(StatementError(id, number, kind, f.statement[(id, number)])))
    else if kind == OnConnection then prev.(direct := prev.direct + [s])
    else prev.(inTransaction := prev.inTransaction + [s])
  }

  /** The statement loop trims each statement before `executeStatement` trims
      it again; the second trim changes nothing. */
  lemma ExecuteOneTrimmed(prev: Executed, id: string, number: nat, statement: string, f: Faults)
    ensures ExecuteOne(prev, id, number, TrimSpace(statement), f) == ExecuteOne(prev, id, number, statement, f)
  {
    assert TrimSpace(TrimSpace(statement)) == TrimSpace(statement);
  }

  function ExecuteAll(id: string, statements: seq<string>, f: Faults): Executed
  {
    if statements == [] then Executed([], [], None)
    else
      var prev := ExecuteAll(id, statements[..|statements| - 1], f);
      if prev.err.Some? then prev else ExecuteOne(prev, id, |statements|, statements[|statements| - 1], f)
  }

  /** No statement that would run has a failure. */
  predicate StatementsSucceed(id: string, statements: seq<string>, f: Faults)
  {
    forall k :: 0 <= k < |statements| && Classify(statements[k]) != Skipped ==> (id, k + 1) !in f.statement
  }

  /** The loop ends without error exactly when no statement that runs fails. */
  lemma {:induction false} ExecuteAllSucceeds(id: string, statements: seq<string>, f: Faults)
    ensures ExecuteAll(id, statements, f).err.None? <==> StatementsSucceed(id, statements, f)
  {
    if statements != [] {
      var n := |statements|;
      ExecuteAllSucceeds(id, statements[..n - 1], f);
      StatementsSucceedStep(id, statements, f);
      var prev := ExecuteAll(id, statements[..n - 1], f);
      assert ExecuteAll(id, statements, f) == if prev.err.Some? then prev else ExecuteOne(prev, id, n, statements[n - 1], f);
    }
  }

  /** No statement that runs fails exactly when none before the last does and
      the last one is skipped or does not fail. */
  lemma StatementsSucceedStep(id: string, statements: seq<string>, f: Faults)
    requires statements != []
    ensures var n := |statements|;
      StatementsSucceed(id, statements, f) <==>
        StatementsSucceed(id, statements[..n - 1], f)
        && (Classify(statements[n - 1]) == Skipped || (id, n) !in f.statement)
  {
    var n := |statements|;
    var shorter := statements[..n - 1];
    forall k | 0 <= k < n - 1 ensures shorter[k] == statements[k] {}
  }

  /** Without a failure, the transaction holds the statements that are not
      `USE`, and the connection ran the `USE` statements, each group in order. */
  lemma {:induction false} ExecuteAllEffects(id: string, statements: seq<string>, f: Faults)
    requires ExecuteAll(id, statements, f).err.None?
    ensures ExecuteAll(id, statements, f).inTransaction == OfKind(statements, InTransaction)
    ensures ExecuteAll(id, statements, f).direct == OfKind(statements, OnConnection)
  {
    if statements != [] {
      var n := |statements|;
      var prev := ExecuteAll(id, statements[..n - 1], f);
      assert prev.err.None?;
      ExecuteAllEffects(id, statements[..n - 1], f);
      var last := statements[n - 1];
      assert ExecuteAll(id, statements, f) == ExecuteOne(prev, id, n, last, f);
    }
  }

  lemma {:induction false} ExecuteStops(id: string, statements: seq<string>, k: nat, f: Faults)
    requires k <= |statements| && ExecuteAll(id, statements[..k], f).err.Some?
    ensures ExecuteAll(id, statements, f) == ExecuteAll(id, statements[..k], f)
    decreases |statements| - k
  {
    if k < |statements| {
      var shorter := statements[..|statements| - 1];
      assert shorter[..k] == statements[..k];
      ExecuteStops(id, shorter, k, f);
    } else {
      assert statements[..k] == statements;
    }
  }

  /** The result of applying one migration. */
  datatype Outcome = Outcome(db: DbState, err: Option<Error>)

  /** `ApplyMigration` on the statements of the migration: they run in one
      transaction; a bootstrap migration commits without a tracking row, any
      other records `(id, filename, checksum)` in the same transaction. `USE`
      statements run on the connection and stay whatever the transaction does. */
  function Transaction(db: DbState, m: Migration, statements: seq<string>, checksum: string -> string, f: Faults): Outcome
  {
    if m.id in f.begin then Outcome(db, Some(Wrapped("failed to begin transaction", f.begin[m.id])))
    else
      var ex := ExecuteAll(m.id, statements, f);
      var afterUse := db.(onConnection := db.onConnection + ex.direct);
      if ex.err.Some? then Outcome(afterUse, ex.err)
      else if !Bootstrap(m.id) && m.id in f.record then
        Outcome(afterUse, Some(Wrapped("failed to record migration " + m.id, f.record[m.id])))
      else if m.id in f.commit then
        Outcome(afterUse, Some(Wrapped("failed to commit migration " + m.id, f.commit[m.id])))
      else
        var rows := if Bootstrap(m.id) then db.tracked else db.tracked + [TrackingRow(m.id, m.filename, checksum(m.content))];
        Outcome(DbState(rows, db.committed + ex.inTransaction, afterUse.onConnection), None)
  }

  /** `ApplyMigration`: the transaction over the statements the splitter finds. */
  function ApplyOutcome(db: DbState, m: Migration, checksum: string -> string, f: Faults): Outcome
  {
    Transaction(db, m, SplitSql(m.content), checksum, f)
  }

  lemma TransactionEffects(db: DbState, m: Migration, statements: seq<string>, checksum: string -> string, f: Faults)
    ensures var o := Transaction(db, m, statements, checksum, f);
      o.err.None? <==>
        && m.id !in f.begin && StatementsSucceed(m.id, statements, f)
        && (Bootstrap(m.id) || m.id !in f.record) && m.id !in f.commit
    ensures var o := Transaction(db, m, statements, checksum, f);
      o.err.None? && Bootstrap(m.id) ==> o.db.tracked == db.tracked
    ensures var o := Transaction(db, m, statements, checksum, f);
      o.err.None? && !Bootstrap(m.id) ==>
        o.db.tracked == db.tracked + [TrackingRow(m.id, m.filename, checksum(m.content))]
    ensures var o := Transaction(db, m, statements, checksum, f);
      o.err.None? ==>
        && o.db.committed == db.committed + OfKind(statements, InTransaction)
        && o.db.onConnection == db.onConnection + OfKind(statements, OnConnection)
    ensures var o := Transaction(db, m, statements, checksum, f);
      o.err.Some? ==> o.db.tracked == db.tracked && o.db.committed == db.committed
  {
    ExecuteAllSucceeds(m.id, statements, f);
    if ExecuteAll(m.id, statements, f).err.None? {
      ExecuteAllEffects(m.id, statements, f);
    }
  }

  /** A migration succeeds exactly when no call it makes fails. On success a
      bootstrap migration leaves the tracking table alone and any other adds
      exactly its row; the transaction commits its non-`USE` statements. On
      failure nothing of the transaction stays: only `USE` statements that ran. */
  lemma ApplyEffects(db: DbState, m: Migration, checksum: string -> string, f: Faults)
    ensures var o := ApplyOutcome(db, m, checksum, f);
      o.err.None? <==>
        && m.id !in f.begin && StatementsSucceed(m.id, SplitSql(m.content), f)
        && (Bootstrap(m.id) || m.id !in f.record) && m.id !in f.commit
    ensures var o := ApplyOutcome(db, m, checksum, f);
      o.err.None? && Bootstrap(m.id) ==> o.db.tracked == db.tracked
    ensures var o := ApplyOutcome(db, m, checksum, f);
      o.err.None? && !Bootstrap(m.id) ==>
        o.db.tracked == db.tracked + [TrackingRow(m.id, m.filename, checksum(m.content))]
    ensures var o := ApplyOutcome(db, m, checksum, f);
      o.err.None? ==>
        && o.db.committed == db.committed + OfKind(SplitSql(m.content), InTransaction)
        && o.db.onConnection == db.onConnection + OfKind(SplitSql(m.content), OnConnection)
    ensures var o := ApplyOutcome(db, m, checksum, f);
      o.err.Some? ==> o.db.tracked == db.tracked && o.db.committed == db.committed
  {
    TransactionEffects(db, m, SplitSql(m.content), checksum, f);
  }

  // ---------------------------------------------------------------------------
  // RunMigrations

  /** The run so far: the database, whether the connection names the database,
      whether that connection is still open (a failed reconnection leaves the
      closed old one), the applied-ID set the loop holds, the IDs applied in
      this run, and the error that ended it. */
  datatype RunState = RunState(db: DbState, onDatabase: bool, open: bool, applied: set<string>, succeeded: seq<string>, err: Option<Error>)

  /** Before the loop: an empty list does nothing; a list starting with a
      bootstrap migration does not read the tracking table yet. */
  function RunStart(db: DbState, onDatabase: bool, ms: seq<Migration>, f: Faults): RunState
  {
    var rs := RunState(db, onDatabase, true, {}, [], None);
    if ms == [] || Bootstrap(ms[0].id) then rs
    else match ReadApplied(db, f)
      case Err(e) => rs.(err := Some(Wrapped("failed to get applied migrations", e)))
      case Ok(ids) => rs.(applied := ids)
  }

  function AfterApply(rs: RunState, m: Migration, o: Outcome): RunState
  {
    if o.err.Some? then rs.(db := o.db, err := Some(Wrapped("failed to apply migration " + m.id, o.err.value)))
    else rs.(db := o.db, succeeded := rs.succeeded + [m.id])
  }

  /** The set a non-bootstrap entry is checked against: the one held, or the
      tracking table read again when the held one is empty. */
  function Snapshot(rs: RunState, f: Faults): Result<set<string>>
  {
    if |rs.applied| == 0 then ReadApplied(rs.db, f) else Ok(rs.applied)
  }

  /** One pass of the loop, for entry `i`; `o` is what `ApplyMigration` would
      do to the database at this point. */
  function RunStep(rs: RunState, i: nat, m: Migration, o: Outcome, f: Faults): RunState
  {
    if rs.err.Some? then rs
    else if i <= 1 && Bootstrap(m.id) then
      var next := AfterApply(rs, m, o);
      if next.err.None? && i == 0 && m.id == "000" then
        if f.reconnect.Some? then next.(open := false, err := Some(Wrapped("failed to reconnect to database", f.reconnect.value)))
        else next.(onDatabase := true, open := true)
      else next
    else
      match Snapshot(rs, f)
      case Err(e) => rs.(err := Some(Wrapped("failed to get applied migrations", e)))
      case Ok(ids) =>
        if m.id in ids then rs.(applied := ids)
        else AfterApply(rs.(applied := ids), m, o)
  }

  function RunFrom(start: RunState, ms: seq<Migration>, checksum: string -> string, f: Faults): RunState
  {
    if ms == [] then start
    else
      var rs := RunFrom(start, ms[..|ms| - 1], checksum, f);
      var m := ms[|ms| - 1];
      RunStep(rs, |ms| - 1, m, ApplyOutcome(rs.db, m, checksum, f), f)
  }

  /** `RunMigrations` on the loaded list (or the loading error). */
  function Run(db: DbState, onDatabase: bool, loaded: Result<seq<Migration>>, checksum: string -> string, f: Faults): RunState
  {
    match loaded
    case Err(e) => RunState(db, onDatabase, true, {}, [], Some(Wrapped("failed to load migrations", e)))
    case Ok(ms) => RunFrom(RunStart(db, onDatabase, ms, f), ms, checksum, f)
  }

  /** An empty list applies nothing and succeeds. */
  lemma EmptyRunSucceeds(db: DbState, onDatabase: bool, checksum: string -> string, f: Faults)
    ensures Run(db, onDatabase, Ok([]), checksum, f) == RunState(db, onDatabase, true, {}, [], None)
  {
  }

  /** A bootstrap ID at index 0 or 1 is applied whatever the tracking table
      holds, and counts as applied when it succeeds. */
  lemma BootstrapAlwaysApplied(rs: RunState, i: nat, m: Migration, o: Outcome, f: Faults)
    requires rs.err.None? && i <= 1 && Bootstrap(m.id)
    ensures RunStep(rs, i, m, o, f).db == o.db
    ensures o.err.None? ==> RunStep(rs, i, m, o, f).succeeded == rs.succeeded + [m.id]
    ensures o.err.Some? ==> RunStep(rs, i, m, o, f).succeeded == rs.succeeded && RunStep(rs, i, m, o, f).err.Some?
  {
  }

  /** Any other entry is applied exactly when its ID is not in the applied set
      the loop consults; a skipped entry changes nothing in the database. */
  lemma OtherAppliedIffUntracked(rs: RunState, i: nat, m: Migration, o: Outcome, f: Faults)
    requires rs.err.None? && !(i <= 1 && Bootstrap(m.id)) && Snapshot(rs, f).Ok?
    ensures var next := RunStep(rs, i, m, o, f);
      m.id in Snapshot(rs, f).value ==> next.db == rs.db && next.succeeded == rs.succeeded && next.err.None?
    ensures var next := RunStep(rs, i, m, o, f);
      m.id !in Snapshot(rs, f).value ==>
        && next.db == o.db
        && (next.err.None? <==> o.err.None?)
        && (next.err.None? ==> next.succeeded == rs.succeeded + [m.id])
  {
  }

  /** The first failure ends the run: no later migration is attempted. */
  lemma {:induction false} RunStops(start: RunState, ms: seq<Migration>, k: nat, checksum: string -> string, f: Faults)
    requires k <= |ms| && RunFrom(start, ms[..k], checksum, f).err.Some?
    ensures RunFrom(start, ms, checksum, f) == RunFrom(start, ms[..k], checksum, f)
    decreases |ms| - k
  {
    if k < |ms| {
      var shorter := ms[..|ms| - 1];
      assert shorter[..k] == ms[..k];
      RunStops(start, shorter, k, checksum, f);
    } else {
      assert ms[..k] == ms;
    }
  }

  // A fault-free run over migrations that are not bootstrap ones and whose IDs
  // are distinct applies exactly the untracked ones, in order.

  function Untracked(ms: seq<Migration>, ids: set<string>): seq<Migration>
  {
    if ms == [] then []
    else Untracked(ms[..|ms| - 1], ids) + (if ms[|ms| - 1].id in ids then [] else [ms[|ms| - 1]])
  }

  function RowsOf(ms: seq<Migration>, checksum: string -> string): seq<TrackingRow>
  {
    if ms == [] then []
    else
      var m := ms[|ms| - 1];
      RowsOf(ms[..|ms| - 1], checksum) + [TrackingRow(m.id, m.filename, checksum(m.content))]
  }

  function IdList(ms: seq<Migration>): seq<string>
  {
    if ms == [] then [] else IdList(ms[..|ms| - 1]) + [ms[|ms| - 1].id]
  }

  lemma RowsOfAppend(ms: seq<Migration>, m: Migration, checksum: string -> string)
    ensures RowsOf(ms + [m], checksum) == RowsOf(ms, checksum) + [TrackingRow(m.id, m.filename, checksum(m.content))]
    ensures IdList(ms + [m]) == IdList(ms) + [m.id]
  {
    assert (ms + [m])[..|ms|] == ms;
  }

  lemma {:induction false} RowsOfIds(ms: seq<Migration>, checksum: string -> string)
    ensures |RowsOf(ms, checksum)| == |ms|
    ensures forall i :: 0 <= i < |ms| ==> RowsOf(ms, checksum)[i].id == ms[i].id
  {
    if ms != [] {
      RowsOfIds(ms[..|ms| - 1], checksum);
    }
  }

  lemma {:induction false} UntrackedIds(ms: seq<Migration>, ids: set<string>)
    ensures forall m :: m in Untracked(ms, ids) ==> m in ms && m.id !in ids
  {
    if ms != [] {
      UntrackedIds(ms[..|ms| - 1], ids);
    }
  }

  /** The IDs of the tracking table after `rows` of `done` were added. */
  lemma IdsAfterRows(tracked: seq<TrackingRow>, done: seq<Migration>, ms: seq<Migration>, checksum: string -> string)
    requires forall m :: m in done ==> m in ms
    ensures TrackedIds(tracked) <= TrackedIds(tracked + RowsOf(done, checksum))
    ensures TrackedIds(tracked + RowsOf(done, checksum)) <= TrackedIds(tracked) + set i | 0 <= i < |ms| :: ms[i].id
  {
    var all := tracked + RowsOf(done, checksum);
    RowsOfIds(done, checksum);
    forall x | x in TrackedIds(tracked) ensures x in TrackedIds(all) {
      var i :| 0 <= i < |tracked| && tracked[i].id == x;
      assert all[i].id == x;
    }
    forall x | x in TrackedIds(all) ensures x in TrackedIds(tracked) + set i | 0 <= i < |ms| :: ms[i].id {
      var i :| 0 <= i < |all| && all[i].id == x;
      if i < |tracked| {
        assert tracked[i].id == x;
      } else {
        var m := done[i - |tracked|];
        assert m in ms;
        var j :| 0 <= j < |ms| && ms[j] == m;
        assert ms[j].id == x;
      }
    }
  }

  /** What the fault-free run has done over the first `k` entries of `ms`,
      starting from the state `start` (the run before these entries). */
  predicate FaultFreeSoFar(start: RunState, ms: seq<Migration>, k: nat, rs: RunState, checksum: string -> string)
    requires k <= |ms|
  {
    && rs.err.None? && rs.onDatabase == start.onDatabase && rs.open == start.open
    && FaultFreeRows(start, ms, k, rs, checksum) && FaultFreeApplied(start, ms, k, rs)
  }

  /** The run recorded exactly the untracked entries among the first `k`. */
  predicate FaultFreeRows(start: RunState, ms: seq<Migration>, k: nat, rs: RunState, checksum: string -> string)
    requires k <= |ms|
  {
    var done := Untracked(ms[..k], TrackedIds(start.db.tracked));
    && rs.succeeded == start.succeeded + IdList(done)
    && rs.db.tracked == start.db.tracked + RowsOf(done, checksum)
  }

  /** The applied set the loop holds is empty (not read yet) or holds the IDs
      tracked at the start, and at most those plus the IDs of the first `k`
      entries. */
  predicate FaultFreeApplied(start: RunState, ms: seq<Migration>, k: nat, rs: RunState)
    requires k <= |ms|
  {
    var t0 := TrackedIds(start.db.tracked);
    && (rs.applied == {} || t0 <= rs.applied)
    && rs.applied <= t0 + set i | 0 <= i < k :: ms[i].id
  }

  /** The applied set a fault-free pass consults holds the IDs tracked at the
      start and at most the IDs of the entries seen so far. */
  lemma FaultFreeSnapshot(start: RunState, ms: seq<Migration>, k: nat, rs: RunState, checksum: string -> string)
    requires k < |ms|
    requires FaultFreeSoFar(start, ms, k, rs, checksum)
    ensures Snapshot(rs, NoFaults).Ok?
    ensures TrackedIds(start.db.tracked) <= Snapshot(rs, NoFaults).value
    ensures Snapshot(rs, NoFaults).value <= TrackedIds(start.db.tracked) + set i | 0 <= i < k :: ms[i].id
  {
    if |rs.applied| == 0 {
      var t0 := TrackedIds(start.db.tracked);
      var done := Untracked(ms[..k], t0);
      UntrackedIds(ms[..k], t0);
      forall x | x in done ensures x in ms[..k] {}
      IdsAfterRows(start.db.tracked, done, ms[..k], checksum);
      assert (set i | 0 <= i < |ms[..k]| :: ms[..k][i].id) == set i | 0 <= i < k :: ms[i].id;
    } else {
      assert rs.applied != {};
    }
  }

  /** One fault-free pass: `o` is a successful application that adds exactly
      the migration's row. */
  lemma FaultFreeStep(start: RunState, ms: seq<Migration>, k: nat, rs: RunState, o: Outcome, checksum: string -> string)
    requires k < |ms|
    requires forall i :: 0 <= i < |ms| ==> !Bootstrap(ms[i].id)
    requires forall i, j :: 0 <= i < j < |ms| ==> ms[i].id != ms[j].id
    requires FaultFreeSoFar(start, ms, k, rs, checksum)
    requires o.err.None? && o.db.tracked == rs.db.tracked + [TrackingRow(ms[k].id, ms[k].filename, checksum(ms[k].content))]
    ensures FaultFreeSoFar(start, ms, k + 1, RunStep(rs, k, ms[k], o, NoFaults), checksum)
  {
    var t0 := TrackedIds(start.db.tracked);
    var m := ms[k];
    FaultFreeSnapshot(start, ms, k, rs, checksum);
    var ids := Snapshot(rs, NoFaults).value;
    SeenIdsStep(ms, k);
    assert m.id in ids <==> m.id in t0;
    var next := RunStep(rs, k, m, o, NoFaults);
    if m.id in ids {
      assert next == rs.(applied := ids);
    } else {
      assert next == rs.(db := o.db, applied := ids, succeeded := rs.succeeded + [m.id]);
    }
    RowsStep(start, ms, k, rs, next, checksum);
    AppliedStep(start, ms, k, next);
  }

  /** The rows part of one fault-free pass: the entry is recorded exactly
      when it was not tracked at the start. */
  lemma RowsStep(start: RunState, ms: seq<Migration>, k: nat, rs: RunState, next: RunState, checksum: string -> string)
    requires k < |ms|
    requires FaultFreeRows(start, ms, k, rs, checksum)
    requires ms[k].id in TrackedIds(start.db.tracked) ==> next.succeeded == rs.succeeded && next.db.tracked == rs.db.tracked
    requires ms[k].id !in TrackedIds(start.db.tracked) ==>
      && next.succeeded == rs.succeeded + [ms[k].id]
      && next.db.tracked == rs.db.tracked + [TrackingRow(ms[k].id, ms[k].filename, checksum(ms[k].content))]
    ensures FaultFreeRows(start, ms, k + 1, next, checksum)
  {
    var t0 := TrackedIds(start.db.tracked);
    var done := Untracked(ms[..k], t0);
    UntrackedStep(ms, k, t0);
    if ms[k].id in t0 {
      assert Untracked(ms[..k + 1], t0) == done;
    } else {
      assert Untracked(ms[..k + 1], t0) == done + [ms[k]];
      RowsOfAppend(done, ms[k], checksum);
      assert next.succeeded == start.succeeded + IdList(done + [ms[k]]);
      assert next.db.tracked == start.db.tracked + RowsOf(done + [ms[k]], checksum);
    }
  }

  /** The applied-set part of one fault-free pass: a set within the bounds
      for `k` entries is within those for `k + 1`. */
  lemma AppliedStep(start: RunState, ms: seq<Migration>, k: nat, next: RunState)
    requires k < |ms|
    requires FaultFreeApplied(start, ms, k, next)
    ensures FaultFreeApplied(start, ms, k + 1, next)
  {
    assert (set i | 0 <= i < k :: ms[i].id) <= set i | 0 <= i < k + 1 :: ms[i].id;
  }

  /** The IDs of the first `k + 1` entries are those of the first `k` and the
      next one, which is new when IDs are distinct. */
  lemma SeenIdsStep(ms: seq<Migration>, k: nat)
    requires k < |ms|
    requires forall i, j :: 0 <= i < j < |ms| ==> ms[i].id != ms[j].id
    ensures (set i | 0 <= i < k + 1 :: ms[i].id) == (set i | 0 <= i < k :: ms[i].id) + {ms[k].id}
    ensures ms[k].id !in set i | 0 <= i < k :: ms[i].id
  {
  }

  /** Extending the list by one entry extends its untracked part by that entry
      exactly when its ID is not in `ids`. */
  lemma UntrackedStep(ms: seq<Migration>, k: nat, ids: set<string>)
    requires k < |ms|
    ensures Untracked(ms[..k + 1], ids) == Untracked(ms[..k], ids) + (if ms[k].id in ids then [] else [ms[k]])
  {
    assert ms[..k + 1][..k] == ms[..k];
  }

  /** The run over the first `k` entries is one more pass after the run over
      the first `k - 1`. */
  lemma RunFromLast(start: RunState, ms: seq<Migration>, k: nat, checksum: string -> string, f: Faults)
    requires 0 < k <= |ms|
    ensures var rs := RunFrom(start, ms[..k - 1], checksum, f);
      RunFrom(start, ms[..k], checksum, f) == RunStep(rs, k - 1, ms[k - 1], ApplyOutcome(rs.db, ms[k - 1], checksum, f), f)
  {
    assert ms[..k][..k - 1] == ms[..k - 1];
  }

  /** With no failures, applying a migration that is not a bootstrap one
      succeeds and adds exactly its tracking row. */
  lemma ApplyWithoutFaults(db: DbState, m: Migration, checksum: string -> string)
    requires !Bootstrap(m.id)
    ensures var o := ApplyOutcome(db, m, checksum, NoFaults);
      o.err.None? && o.db.tracked == db.tracked + [TrackingRow(m.id, m.filename, checksum(m.content))]
  {
    ApplyEffects(db, m, checksum, NoFaults);
  }

  /** Before any entry of `ms`, a state that agrees with `base` on what
      `FaultFreeSoFar` looks at is where the fault-free run starts. */
  lemma FaultFreeStart(base: RunState, ms: seq<Migration>, rs: RunState, checksum: string -> string)
    requires rs.err.None? && rs.onDatabase == base.onDatabase && rs.open == base.open
    requires rs.succeeded == base.succeeded && rs.db.tracked == base.db.tracked
    requires rs.applied == {} || rs.applied == TrackedIds(base.db.tracked)
    ensures FaultFreeSoFar(base, ms, 0, rs, checksum)
  {
    assert ms[..0] == [];
    assert Untracked([], TrackedIds(base.db.tracked)) == [];
    assert base.succeeded + IdList([]) == base.succeeded;
    assert base.db.tracked + RowsOf([], checksum) == base.db.tracked;
  }

  /** The fault-free run over the first `k` entries of a list of entries
      that are not bootstrap ones, with distinct IDs, does what
      `FaultFreeSoFar` describes, from where it started. */
  lemma {:induction false} FaultFreePrefix(start: RunState, ms: seq<Migration>, k: nat, checksum: string -> string)
    requires k <= |ms|
    requires forall i :: 0 <= i < |ms| ==> !Bootstrap(ms[i].id)
    requires forall i, j :: 0 <= i < j < |ms| ==> ms[i].id != ms[j].id
    requires FaultFreeSoFar(start, ms, 0, start, checksum)
    ensures FaultFreeSoFar(start, ms, k, RunFrom(start, ms[..k], checksum, NoFaults), checksum)
  {
    if k == 0 {
      assert ms[..0] == [];
    } else {
      FaultFreePrefix(start, ms, k - 1, checksum);
      PrefixStep(start, ms, k, checksum);
    }
  }

  /** One more entry of `ms` in the fault-free run. */
  lemma PrefixStep(start: RunState, ms: seq<Migration>, k: nat, checksum: string -> string)
    requires 0 < k <= |ms|
    requires forall i :: 0 <= i < |ms| ==> !Bootstrap(ms[i].id)
    requires forall i, j :: 0 <= i < j < |ms| ==> ms[i].id != ms[j].id
    requires FaultFreeSoFar(start, ms, k - 1, RunFrom(start, ms[..k - 1], checksum, NoFaults), checksum)
    ensures FaultFreeSoFar(start, ms, k, RunFrom(start, ms[..k], checksum, NoFaults), checksum)
  {
    var rs := RunFrom(start, ms[..k - 1], checksum, NoFaults);
    RunFromLast(start, ms, k, checksum, NoFaults);
    FaultFreeStepAt(start, ms, k - 1, k - 1, rs, checksum);
    var next := RunStep(rs, k - 1, ms[k - 1], ApplyOutcome(rs.db, ms[k - 1], checksum, NoFaults), NoFaults);
    FaultFreeSame(start, ms, k, next, RunFrom(start, ms[..k], checksum, NoFaults), checksum);
  }

  /** The run over `pre + [m]` is one more pass, over `m`, after the run over `pre`. */
  lemma RunFromSnoc(start: RunState, pre: seq<Migration>, m: Migration, checksum: string -> string, f: Faults)
    ensures var rs := RunFrom(start, pre, checksum, f);
      RunFrom(start, pre + [m], checksum, f) == RunStep(rs, |pre|, m, ApplyOutcome(rs.db, m, checksum, f), f)
  {
    assert (pre + [m])[..|pre|] == pre;
  }

  lemma SnocSlice(boot: seq<Migration>, rest: seq<Migration>, j: nat)
    requires 0 < j <= |rest|
    ensures boot + rest[..j] == (boot + rest[..j - 1]) + [rest[j - 1]]
  {
    assert rest[..j] == rest[..j - 1] + [rest[j - 1]];
  }

  /** `FaultFreeSoFar` carried over to an equal state, as one fact. */
  lemma FaultFreeSame(start: RunState, ms: seq<Migration>, k: nat, rs: RunState, rs': RunState, checksum: string -> string)
    requires k <= |ms| && rs == rs'
    requires FaultFreeSoFar(start, ms, k, rs, checksum)
    ensures FaultFreeSoFar(start, ms, k, rs', checksum)
  {
  }

  /** One fault-free pass over `rest[k]`, made at any position `i` of the run:
      the position only matters to bootstrap IDs. */
  lemma FaultFreeStepAt(base: RunState, rest: seq<Migration>, k: nat, i: nat, rs: RunState, checksum: string -> string)
    requires k < |rest|
    requires forall i :: 0 <= i < |rest| ==> !Bootstrap(rest[i].id)
    requires forall i, i' :: 0 <= i < i' < |rest| ==> rest[i].id != rest[i'].id
    requires FaultFreeSoFar(base, rest, k, rs, checksum)
    ensures FaultFreeSoFar(base, rest, k + 1, RunStep(rs, i, rest[k], ApplyOutcome(rs.db, rest[k], checksum, NoFaults), NoFaults), checksum)
  {
    var o := ApplyOutcome(rs.db, rest[k], checksum, NoFaults);
    RunStepIndex(rs, i, k, rest[k], o, NoFaults);
    ApplyWithoutFaults(rs.db, rest[k], checksum);
    FaultFreeStep(base, rest, k, rs, o, checksum);
  }

  /** One more entry of `rest` after the bootstrap passes. */
  lemma AfterBootstrapStep(start: RunState, boot: seq<Migration>, base: RunState, rest: seq<Migration>, j: nat, checksum: string -> string)
    requires 0 < j <= |rest|
    requires forall i :: 0 <= i < |rest| ==> !Bootstrap(rest[i].id)
    requires forall i, i' :: 0 <= i < i' < |rest| ==> rest[i].id != rest[i'].id
    requires FaultFreeSoFar(base, rest, j - 1, RunFrom(start, boot + rest[..j - 1], checksum, NoFaults), checksum)
    ensures FaultFreeSoFar(base, rest, j, RunFrom(start, boot + rest[..j], checksum, NoFaults), checksum)
  {
    var pre := boot + rest[..j - 1];
    var m := rest[j - 1];
    SnocSlice(boot, rest, j);
    var rs := RunFrom(start, pre, checksum, NoFaults);
    RunFromSnoc(start, pre, m, checksum, NoFaults);
    FaultFreeStepAt(base, rest, j - 1, |pre|, rs, checksum);
    var next := RunStep(rs, |pre|, m, ApplyOutcome(rs.db, m, checksum, NoFaults), NoFaults);
    FaultFreeSame(base, rest, j, next, RunFrom(start, boot + rest[..j], checksum, NoFaults), checksum);
  }

  /** After the passes over `000` and `001` left the run where `base` says,
      the fault-free run over the first `j` entries of `rest`, made of
      entries that are not bootstrap ones with distinct IDs, does what
      `FaultFreeSoFar` describes. */
  lemma {:induction false} FaultFreeAfterBootstrap(start: RunState, boot: seq<Migration>, base: RunState, rest: seq<Migration>, j: nat, checksum: string -> string)
    requires |boot| == 2 && j <= |rest|
    requires forall i :: 0 <= i < |rest| ==> !Bootstrap(rest[i].id)
    requires forall i, i' :: 0 <= i < i' < |rest| ==> rest[i].id != rest[i'].id
    requires FaultFreeSoFar(base, rest, 0, RunFrom(start, boot, checksum, NoFaults), checksum)
    ensures FaultFreeSoFar(base, rest, j, RunFrom(start, boot + rest[..j], checksum, NoFaults), checksum)
  {
    if j == 0 {
      assert boot + rest[..0] == boot;
      FaultFreeSame(base, rest, 0, RunFrom(start, boot, checksum, NoFaults), RunFrom(start, boot + rest[..0], checksum, NoFaults), checksum);
    } else {
      FaultFreeAfterBootstrap(start, boot, base, rest, j - 1, checksum);
      AfterBootstrapStep(start, boot, base, rest, j, checksum);
    }
  }

  /** Without failures, a run over migrations that are not bootstrap ones and
      whose IDs are distinct applies exactly the untracked migrations, in
      order, and records one tracking row for each. */
  lemma FaultFreeRunAppliesUntracked(db: DbState, onDatabase: bool, ms: seq<Migration>, checksum: string -> string)
    requires forall i :: 0 <= i < |ms| ==> !Bootstrap(ms[i].id)
    requires forall i, j :: 0 <= i < j < |ms| ==> ms[i].id != ms[j].id
    ensures var r := Run(db, onDatabase, Ok(ms), checksum, NoFaults);
      && r.err.None? && r.onDatabase == onDatabase
      && r.succeeded == IdList(Untracked(ms, TrackedIds(db.tracked)))
      && r.db.tracked == db.tracked + RowsOf(Untracked(ms, TrackedIds(db.tracked)), checksum)
  {
    if ms != [] {
      var start := RunStart(db, onDatabase, ms, NoFaults);
      RunStartFacts(db, onDatabase, ms);
      FaultFreeStart(start, ms, start, checksum);
      FaultFreePrefix(start, ms, |ms|, checksum);
      assert ms[..|ms|] == ms;
      FaultFreeSame(start, ms, |ms|, RunFrom(start, ms[..|ms|], checksum, NoFaults), Run(db, onDatabase, Ok(ms), checksum, NoFaults), checksum);
      FaultFreeDone(start, ms, Run(db, onDatabase, Ok(ms), checksum, NoFaults), checksum);
      assert [] + IdList(Untracked(ms, TrackedIds(db.tracked))) == IdList(Untracked(ms, TrackedIds(db.tracked)));
    }
  }

  /** What `FaultFreeSoFar` says once every entry has been passed. */
  lemma FaultFreeDone(start: RunState, ms: seq<Migration>, r: RunState, checksum: string -> string)
    requires FaultFreeSoFar(start, ms, |ms|, r, checksum)
    ensures var done := Untracked(ms, TrackedIds(start.db.tracked));
      && r.err.None? && r.onDatabase == start.onDatabase
      && r.succeeded == start.succeeded + IdList(done)
      && r.db.tracked == start.db.tracked + RowsOf(done, checksum)
  {
    assert ms[..|ms|] == ms;
  }

  /** A pass over an entry that is not a bootstrap one does not depend on
      the entry's index. */
  lemma RunStepIndex(rs: RunState, i: nat, j: nat, m: Migration, o: Outcome, f: Faults)
    requires !Bootstrap(m.id)
    ensures RunStep(rs, i, m, o, f) == RunStep(rs, j, m, o, f)
  {
  }

  /** The state before the loop: nothing applied yet, the connection as given
      and open; without failures the applied set is read (or left empty when
      the list starts with a bootstrap migration). */
  lemma RunStartFacts(db: DbState, onDatabase: bool, ms: seq<Migration>)
    ensures var start := RunStart(db, onDatabase, ms, NoFaults);
      && start.db == db && start.onDatabase == onDatabase && start.open
      && start.succeeded == [] && start.err.None?
      && (start.applied == {} || start.applied == TrackedIds(db.tracked))
      && (ms != [] && !Bootstrap(ms[0].id) ==> start.applied == TrackedIds(db.tracked))
      && (ms != [] && Bootstrap(ms[0].id) ==> start.applied == {})
  {
  }

  /** A fault-free pass over `000` or `001` at index 0 or 1: applied without
      touching the tracking table; after `000` at index 0 the connection
      names the database and is open. */
  lemma BootstrapPass(rs: RunState, i: nat, m: Migration, checksum: string -> string)
    requires rs.err.None? && i <= 1 && Bootstrap(m.id)
    ensures var next := RunStep(rs, i, m, ApplyOutcome(rs.db, m, checksum, NoFaults), NoFaults);
      && next.err.None? && next.db.tracked == rs.db.tracked
      && next.succeeded == rs.succeeded + [m.id] && next.applied == rs.applied
      && (if i == 0 && m.id == "000" then next.onDatabase && next.open
          else next.onDatabase == rs.onDatabase && next.open == rs.open)
  {
    ApplyEffects(rs.db, m, checksum, NoFaults);
  }

  /** The first pass of a fault-free run over `000`, ...: applied, the
      tracking table untouched, and the connection reopened on the database. */
  lemma FirstPass(start: RunState, ms: seq<Migration>, checksum: string -> string)
    requires |ms| >= 1 && ms[0].id == "000" && start.err.None?
    ensures var s := RunFrom(start, ms[..1], checksum, NoFaults);
      && s == RunState(s.db, true, true, start.applied, start.succeeded + ["000"], None)
      && s.db.tracked == start.db.tracked
  {
    assert ms[..0] == [];
    RunFromLast(start, ms, 1, checksum, NoFaults);
    BootstrapPass(start, 0, ms[0], checksum);
  }

  /** The second pass of a fault-free run over `000`, `001`, ...: applied,
      the tracking table untouched. */
  lemma SecondPass(start: RunState, ms: seq<Migration>, checksum: string -> string)
    requires |ms| >= 2 && ms[1].id == "001"
    requires RunFrom(start, ms[..1], checksum, NoFaults).err.None?
    ensures var s1 := RunFrom(start, ms[..1], checksum, NoFaults);
      var s := RunFrom(start, ms[..2], checksum, NoFaults);
      && s == s1.(db := s.db, succeeded := s1.succeeded + ["001"])
      && s.db.tracked == s1.db.tracked
  {
    RunFromLast(start, ms, 2, checksum, NoFaults);
    BootstrapPass(RunFrom(start, ms[..1], checksum, NoFaults), 1, ms[1], checksum);
  }

  /** Without failures, a run over `000`, `001` and then migrations that are
      not bootstrap ones with distinct IDs applies both bootstrap migrations,
      reconnects to the database, then applies exactly the untracked others,
      in order, recording one tracking row for each. */
  lemma FaultFreeRunWithBootstrap(db: DbState, onDatabase: bool, ms: seq<Migration>, checksum: string -> string)
    requires |ms| >= 2 && ms[0].id == "000" && ms[1].id == "001"
    requires forall i :: 2 <= i < |ms| ==> !Bootstrap(ms[i].id)
    requires forall i, j :: 2 <= i < j < |ms| ==> ms[i].id != ms[j].id
    ensures var r := Run(db, onDatabase, Ok(ms), checksum, NoFaults);
      var done := Untracked(ms[2..], TrackedIds(db.tracked));
      && r.err.None? && r.onDatabase
      && r.succeeded == ["000", "001"] + IdList(done)
      && r.db.tracked == db.tracked + RowsOf(done, checksum)
  {
    var base := RunState(DbState(db.tracked, [], []), true, true, {}, ["000", "001"], None);
    BootstrapRunSoFar(db, onDatabase, ms, checksum);
    FaultFreeDone(base, ms[2..], Run(db, onDatabase, Ok(ms), checksum, NoFaults), checksum);
  }

  /** After the fault-free passes over `000` and `001` the run is where
      `FaultFreeSoFar` starts the rest: both IDs recorded as applied, the
      tracking table untouched, the connection open on the database. */
  lemma BootstrapPassesSoFar(db: DbState, onDatabase: bool, ms: seq<Migration>, checksum: string -> string)
    requires |ms| >= 2 && ms[0].id == "000" && ms[1].id == "001"
    ensures FaultFreeSoFar(RunState(DbState(db.tracked, [], []), true, true, {}, ["000", "001"], None), ms[2..], 0,
      RunFrom(RunStart(db, onDatabase, ms, NoFaults), ms[..2], checksum, NoFaults), checksum)
  {
    var start := RunStart(db, onDatabase, ms, NoFaults);
    RunStartFacts(db, onDatabase, ms);
    TwoPasses(start, ms, checksum);
    BaseAfterPasses(db, start, RunFrom(start, ms[..2], checksum, NoFaults), ms[2..], checksum);
  }

  /** The fault-free passes over `000` and `001`, as one record: both
      applied, the tracking table untouched, the connection open on the
      database, the applied set as it was. */
  lemma TwoPasses(start: RunState, ms: seq<Migration>, checksum: string -> string)
    requires |ms| >= 2 && ms[0].id == "000" && ms[1].id == "001" && start.err.None?
    ensures var s2 := RunFrom(start, ms[..2], checksum, NoFaults);
      && s2 == RunState(s2.db, true, true, start.applied, start.succeeded + ["000", "001"], None)
      && s2.db.tracked == start.db.tracked
  {
    FirstPass(start, ms, checksum);
    SecondPass(start, ms, checksum);
  }

  lemma BaseAfterPasses(db: DbState, start: RunState, s2: RunState, rest: seq<Migration>, checksum: string -> string)
    requires start.db == db && start.succeeded == []
    requires start.applied == {} || start.applied == TrackedIds(db.tracked)
    requires s2 == RunState(s2.db, true, true, start.applied, start.succeeded + ["000", "001"], None)
    requires s2.db.tracked == start.db.tracked
    ensures FaultFreeSoFar(RunState(DbState(db.tracked, [], []), true, true, {}, ["000", "001"], None), rest, 0, s2, checksum)
  {
    FaultFreeStart(RunState(DbState(db.tracked, [], []), true, true, {}, ["000", "001"], None), rest, s2, checksum);
  }

  /** The fault-free run over `000`, `001` and the rest is, after the rest,
      where `FaultFreeSoFar` puts it from the state the bootstrap passes leave. */
  lemma BootstrapRunSoFar(db: DbState, onDatabase: bool, ms: seq<Migration>, checksum: string -> string)
    requires |ms| >= 2 && ms[0].id == "000" && ms[1].id == "001"
    requires forall i :: 2 <= i < |ms| ==> !Bootstrap(ms[i].id)
    requires forall i, j :: 2 <= i < j < |ms| ==> ms[i].id != ms[j].id
    ensures FaultFreeSoFar(RunState(DbState(db.tracked, [], []), true, true, {}, ["000", "001"], None), ms[2..], |ms| - 2,
      Run(db, onDatabase, Ok(ms), checksum, NoFaults), checksum)
  {
    var start := RunStart(db, onDatabase, ms, NoFaults);
    var base := RunState(DbState(db.tracked, [], []), true, true, {}, ["000", "001"], None);
    BootstrapPassesSoFar(db, onDatabase, ms, checksum);
    FaultFreeWholeList(start, ms, base, checksum);
  }

  /** From the state after the first two entries, the fault-free run over the
      whole list is where `FaultFreeSoFar` puts it after the rest. */
  lemma FaultFreeWholeList(start: RunState, ms: seq<Migration>, base: RunState, checksum: string -> string)
    requires |ms| >= 2
    requires forall i :: 2 <= i < |ms| ==> !Bootstrap(ms[i].id)
    requires forall i, j :: 2 <= i < j < |ms| ==> ms[i].id != ms[j].id
    requires FaultFreeSoFar(base, ms[2..], 0, RunFrom(start, ms[..2], checksum, NoFaults), checksum)
    ensures FaultFreeSoFar(base, ms[2..], |ms| - 2, RunFrom(start, ms, checksum, NoFaults), checksum)
  {
    var rest := ms[2..];
    FaultFreeAfterBootstrap(start, ms[..2], base, rest, |rest|, checksum);
    assert ms[..2] + rest[..|rest|] == ms;
    FaultFreeSame(base, rest, |rest|, RunFrom(start, ms[..2] + rest[..|rest|], checksum, NoFaults), RunFrom(start, ms, checksum, NoFaults), checksum);
  }

  // ---------------------------------------------------------------------------
  // ShowStatus

  datatype Status = Applied | Pending

  /** `ShowStatus`: every migration PENDING when the database cannot be
      reached, otherwise APPLIED exactly when the tracking table has its ID. */
  function StatusReport(loaded: Result<seq<Migration>>, db: DbState, f: Faults): (r: Result<seq<Status>>)
    ensures r.Err? <==> loaded.Err? || (f.reconnect.None? && f.readApplied.Some?)
    ensures r.Ok? ==> |r.value| == |loaded.value|
    ensures r.Ok? ==> forall i :: 0 <= i < |r.value| ==>
      (r.value[i] == Applied <==> f.reconnect.None? && loaded.value[i].id in TrackedIds(db.tracked))
  {
    match loaded
    case Err(e) => Err(Wrapped("failed to load migrations", e))
    case Ok(ms) =>
      if f.reconnect.Some? then Ok(seq(|ms|, _ => Pending))
      else match ReadApplied(db, f)
        case Err(e) => Err(Wrapped("failed to get applied migrations", e))
        case Ok(ids) => Ok(seq(|ms|, i requires 0 <= i < |ms| => if ms[i].id in ids then Applied else Pending))
  }

  /** After a fault-free run over migrations that are not bootstrap ones and
      whose IDs are distinct, the report shows every migration APPLIED. */
  lemma StatusAfterFaultFreeRun(db: DbState, onDatabase: bool, ms: seq<Migration>, checksum: string -> string)
    requires forall i :: 0 <= i < |ms| ==> !Bootstrap(ms[i].id)
    requires forall i, j :: 0 <= i < j < |ms| ==> ms[i].id != ms[j].id
    ensures var after := Run(db, onDatabase, Ok(ms), checksum, NoFaults).db;
      StatusReport(Ok(ms), after, NoFaults) == Ok(seq(|ms|, _ => Applied))
  {
    FaultFreeRunAppliesUntracked(db, onDatabase, ms, checksum);
    var after := Run(db, onDatabase, Ok(ms), checksum, NoFaults).db;
    TrackedAfterRows(db.tracked, ms, checksum);
    AllTrackedAllApplied(ms, after);
  }

  /** After a fault-free run over `000`, `001` and then migrations that are
      not bootstrap ones with distinct IDs, every later migration is reported
      APPLIED, and `000`/`001` are APPLIED only if the tracking table already
      held them: the run itself never records a bootstrap migration. */
  lemma StatusAfterBootstrapRun(db: DbState, onDatabase: bool, ms: seq<Migration>, checksum: string -> string)
    requires |ms| >= 2 && ms[0].id == "000" && ms[1].id == "001"
    requires forall i :: 2 <= i < |ms| ==> !Bootstrap(ms[i].id)
    requires forall i, j :: 2 <= i < j < |ms| ==> ms[i].id != ms[j].id
    ensures var r := StatusReport(Ok(ms), Run(db, onDatabase, Ok(ms), checksum, NoFaults).db, NoFaults);
      && r.Ok? && |r.value| == |ms|
      && (forall i :: 2 <= i < |ms| ==> r.value[i] == Applied)
      && (forall i :: 0 <= i < 2 ==> (r.value[i] == Applied <==> ms[i].id in TrackedIds(db.tracked)))
  {
    FaultFreeRunWithBootstrap(db, onDatabase, ms, checksum);
    StatusAfterRows(db, ms, Run(db, onDatabase, Ok(ms), checksum, NoFaults).db, checksum);
  }

  /** The status report over the table a fault-free bootstrap run leaves:
      the rows of the untracked entries after the first two appended. */
  lemma StatusAfterRows(db: DbState, ms: seq<Migration>, after: DbState, checksum: string -> string)
    requires |ms| >= 2 && ms[0].id == "000" && ms[1].id == "001"
    requires forall i :: 2 <= i < |ms| ==> !Bootstrap(ms[i].id)
    requires after.tracked == db.tracked + RowsOf(Untracked(ms[2..], TrackedIds(db.tracked)), checksum)
    ensures var r := StatusReport(Ok(ms), after, NoFaults);
      && r.Ok? && |r.value| == |ms|
      && (forall i :: 2 <= i < |ms| ==> r.value[i] == Applied)
      && (forall i :: 0 <= i < 2 ==> (r.value[i] == Applied <==> ms[i].id in TrackedIds(db.tracked)))
  {
    var rest := ms[2..];
    var t0 := TrackedIds(db.tracked);
    TrackedAfterRows(db.tracked, rest, checksum);
    forall i | 2 <= i < |ms| ensures ms[i].id in TrackedIds(after.tracked) {
      assert rest[i - 2] == ms[i];
    }
    BootstrapTrackedIff(db.tracked, rest, "000", checksum);
    BootstrapTrackedIff(db.tracked, rest, "001", checksum);
    StatusOfTracked(ms, after, t0);
  }

  /** The status report over a table in which every migration after the
      first two is tracked, and the first two are tracked exactly when they
      are in `t0`. */
  lemma StatusOfTracked(ms: seq<Migration>, after: DbState, t0: set<string>)
    requires |ms| >= 2
    requires forall i :: 2 <= i < |ms| ==> ms[i].id in TrackedIds(after.tracked)
    requires forall i :: 0 <= i < 2 ==> (ms[i].id in TrackedIds(after.tracked) <==> ms[i].id in t0)
    ensures var r := StatusReport(Ok(ms), after, NoFaults);
      && r.Ok? && |r.value| == |ms|
      && (forall i :: 2 <= i < |ms| ==> r.value[i] == Applied)
      && (forall i :: 0 <= i < 2 ==> (r.value[i] == Applied <==> ms[i].id in t0))
  {
  }

  /** Rows appended for migrations that are not bootstrap ones leave the
      question of whether a bootstrap ID is tracked as it was. */
  lemma BootstrapTrackedIff(tracked: seq<TrackingRow>, rest: seq<Migration>, id: string, checksum: string -> string)
    requires Bootstrap(id)
    requires forall i :: 0 <= i < |rest| ==> !Bootstrap(rest[i].id)
    ensures id in TrackedIds(tracked + RowsOf(Untracked(rest, TrackedIds(tracked)), checksum)) <==> id in TrackedIds(tracked)
  {
    var done := Untracked(rest, TrackedIds(tracked));
    UntrackedIds(rest, TrackedIds(tracked));
    IdsAfterRows(tracked, done, rest, checksum);
    assert id !in set i | 0 <= i < |rest| :: rest[i].id;
  }

  /** When every ID is tracked and the database can be reached, every
      migration is reported APPLIED. */
  lemma AllTrackedAllApplied(ms: seq<Migration>, db: DbState)
    requires forall i :: 0 <= i < |ms| ==> ms[i].id in TrackedIds(db.tracked)
    ensures StatusReport(Ok(ms), db, NoFaults) == Ok(seq(|ms|, _ => Applied))
  {
    var r := StatusReport(Ok(ms), db, NoFaults);
    assert r.value == seq(|ms|, _ => Applied);
  }

  /** Once the rows of the untracked migrations are appended, every migration
      of the list is tracked. */
  lemma TrackedAfterRows(tracked: seq<TrackingRow>, ms: seq<Migration>, checksum: string -> string)
    ensures var all := tracked + RowsOf(Untracked(ms, TrackedIds(tracked)), checksum);
      forall i :: 0 <= i < |ms| ==> ms[i].id in TrackedIds(all)
  {
    var t0 := TrackedIds(tracked);
    var done := Untracked(ms, t0);
    var rows := RowsOf(done, checksum);
    var all := tracked + rows;
    RowsOfIds(done, checksum);
    forall i | 0 <= i < |ms| ensures ms[i].id in TrackedIds(all) {
      if ms[i].id in t0 {
        var j :| 0 <= j < |tracked| && tracked[j].id == ms[i].id;
        assert all[j].id == ms[i].id;
      } else {
        UntrackedHas(ms, t0, i);
        var p :| 0 <= p < |done| && done[p] == ms[i];
        assert all[|tracked| + p] == rows[p];
      }
    }
  }

  lemma {:induction false} UntrackedHas(ms: seq<Migration>, ids: set<string>, i: nat)
    requires i < |ms| && ms[i].id !in ids
    ensures ms[i] in Untracked(ms, ids)
  {
    if i < |ms| - 1 {
      assert ms[..|ms| - 1][i] == ms[i];
      UntrackedHas(ms[..|ms| - 1], ids, i);
    }
  }

  // ---------------------------------------------------------------------------
  // The runner

  class MigrationRunner {
    var tracked: seq<TrackingRow>
    var committed: seq<string>
    var onConnection: seq<string>
    /** Whether the connection names the application database (after `reconnectToDatabase`). */
    var onDatabase: bool
    /** Whether that connection is open: `reconnectToDatabase` closes it
        before it connects again, and keeps the closed one when that fails. */
    var open: bool
    /** `generateChecksum` (SHA-256 of the content), which the model does not define. */
    const checksum: string -> string

    function State(): DbState
      reads this
    {
      DbState(tracked, committed, onConnection)
    }

    /** `NewMigrationRunner`: connected to the server, not yet to the database. */
    constructor(db: DbState, checksum: string -> string)
      ensures State() == db && !onDatabase && open && this.checksum == checksum
    {
      tracked := db.tracked;
      committed := db.committed;
      onConnection := db.onConnection;
      onDatabase := false;
      open := true;
      this.checksum := checksum;
    }

    /** `GetAppliedMigrations`: the IDs of the tracking table. */
    method GetAppliedMigrations(f: Faults) returns (r: Result<set<string>>)
      ensures r == ReadApplied(State(), f)
    {
      if f.readApplied.Some? {
        return Err(f.readApplied.value);
      }
      var applied: set<string> := {};
      for k := 0 to |tracked|
        invariant applied == TrackedIds(tracked[..k])
      {
        assert tracked[..k + 1] == tracked[..k] + [tracked[k]];
        applied := applied + {tracked[k].id};
      }
      assert tracked[..|tracked|] == tracked;
      r := Ok(applied);
    }

    /** `reconnectToDatabase`: the current connection is closed first; on
        success the runner holds a new open connection to the database, on
        failure it keeps the closed one. */
    method ReconnectToDatabase(f: Faults) returns (err: Option<Error>)
      modifies this`onDatabase, this`open
      ensures err == f.reconnect
      ensures open == err.None?
      ensures onDatabase == (err.None? || old(onDatabase))
    {
      open := false;
      err := f.reconnect;
      if err.None? {
        onDatabase := true;
        open := true;
      }
    }

    /** `executeStatement`, after the statements before it did `prev` and
        left `onConnection` at `base + prev.direct`: a blank statement does
        nothing, `USE` runs on the connection, anything else is queued in the
        transaction `inTransaction`. */
    method ExecuteStatement(inTransaction: seq<string>, id: string, number: nat, statement: string, f: Faults,
                            ghost prev: Executed, ghost base: seq<string>)
      returns (tx: seq<string>, err: Option<Error>)
      requires prev.err.None? && inTransaction == prev.inTransaction && onConnection == base + prev.direct
      modifies this`onConnection
      ensures var next := ExecuteOne(prev, id, number, statement, f);
        tx == next.inTransaction && onConnection == base + next.direct && err == next.err
    {
      tx := inTransaction;
      err := None;
      var s := TrimSpace(statement);
      if s == "" {
        return;
      }
      if HasPrefix(ToUpper(s), "USE ") {
        if (id, number) in f.statement {
          err := Some(StatementError(id, number, OnConnection, f.statement[(id, number)]));
          return;
        }
        onConnection := onConnection + [s];
        return;
      }
      if (id, number) in f.statement {
        err := Some(StatementError(id, number, InTransaction, f.statement[(id, number)]));
        return;
      }
      tx := tx + [s];
    }

    /** The statement loop of `ApplyMigration`, up to the first failure. */
    method ExecuteStatements(id: string, statements: seq<string>, f: Faults) returns (tx: seq<string>, err: Option<Error>)
      modifies this`onConnection
      ensures var ex := ExecuteAll(id, statements, f);
        tx == ex.inTransaction && err == ex.err && onConnection == old(onConnection) + ex.direct
    {
      tx := [];
      ghost var base := onConnection;
      for i := 0 to |statements|
        invariant var ex := ExecuteAll(id, statements[..i], f);
          ex.err.None? && tx == ex.inTransaction && onConnection == base + ex.direct
      {
        assert statements[..i + 1][..i] == statements[..i];
        ghost var prev := ExecuteAll(id, statements[..i], f);
        ExecuteOneTrimmed(prev, id, i + 1, statements[i], f);
        var statement := TrimSpace(statements[i]);
        if statement == "" {
          continue;
        }
        var e;
        tx, e := ExecuteStatement(tx, id, i + 1, statement, f, prev, base);
        if e.Some? {
          ExecuteStops(id, statements, i + 1, f);
          return tx, e;
        }
      }
      assert statements[..|statements|] == statements;
      err := None;
    }

    /** `ApplyMigration`. */
    method ApplyMigration(m: Migration, f: Faults) returns (err: Option<Error>)
      modifies this`tracked, this`committed, this`onConnection
      ensures Outcome(State(), err) == ApplyOutcome(old(State()), m, checksum, f)
    {
      if m.id in f.begin {
        return Some(Wrapped("failed to begin transaction", f.begin[m.id]));
      }
      var statements := SplitSqlStatements(m.content);
      var tx, e := ExecuteStatements(m.id, statements, f);
      if e.Some? {
        return e;
      }
      // `000` and `001` commit without a tracking row
      if Bootstrap(m.id) {
        if m.id in f.commit {
          return Some(Wrapped("failed to commit migration " + m.id, f.commit[m.id]));
        }
        committed := committed + tx;
        return None;
      }
      if m.id in f.record {
        return Some(Wrapped("failed to record migration " + m.id, f.record[m.id]));
      }
      if m.id in f.commit {
        return Some(Wrapped("failed to commit migration " + m.id, f.commit[m.id]));
      }
      tracked := tracked + [TrackingRow(m.id, m.filename, checksum(m.content))];
      committed := committed + tx;
      err := None;
    }

    /** `RunMigrations`, with the number of migrations it applied, on the
        open connection a fresh runner holds. */
    method RunMigrations(dir: Result<seq<DirEntry>>, f: Faults) returns (err: Option<Error>, appliedCount: nat)
      requires open
      modifies this`tracked, this`committed, this`onConnection, this`onDatabase, this`open
      ensures var r := Run(old(State()), old(onDatabase), Load(dir), checksum, f);
        && err == r.err && State() == r.db && onDatabase == r.onDatabase && open == r.open
        && appliedCount == |r.succeeded|
    {
      var loaded := LoadMigrations(dir);
      if loaded.Err? {
        return Some(Wrapped("failed to load migrations", loaded.error)), 0;
      }
      var migrations := loaded.value;
      if |migrations| == 0 {
        return None, 0;
      }
      var applied: set<string> := {};
      if !Bootstrap(migrations[0].id) {
        var read := GetAppliedMigrations(f);
        if read.Err? {
          ghost var start := RunStart(old(State()), old(onDatabase), migrations, f);
          assert migrations[..0] == [];
          RunStops(start, migrations, 0, checksum, f);
          return Some(Wrapped("failed to get applied migrations", read.error)), 0;
        }
        applied := read.value;
      }
      ghost var start := RunStart(old(State()), old(onDatabase), migrations, f);
      err, appliedCount := RunLoop(migrations, applied, f, start);
    }

    /** `RunMigrations`' loop over the sorted migrations, from the state before it. */
    method RunLoop(migrations: seq<Migration>, applied: set<string>, f: Faults, ghost start: RunState)
      returns (err: Option<Error>, appliedCount: nat)
      requires start.err.None? && State() == start.db && onDatabase == start.onDatabase && open == start.open
      requires applied == start.applied && start.succeeded == []
      modifies this`tracked, this`committed, this`onConnection, this`onDatabase, this`open
      ensures var r := RunFrom(start, migrations, checksum, f);
        && err == r.err && State() == r.db && onDatabase == r.onDatabase && open == r.open
        && appliedCount == |r.succeeded|
    {
      var held := applied;
      appliedCount := 0;
      assert migrations[..0] == [];
      for i := 0 to |migrations|
        invariant var rs := RunFrom(start, migrations[..i], checksum, f);
          && rs.err.None? && State() == rs.db && onDatabase == rs.onDatabase && open == rs.open
          && held == rs.applied && appliedCount == |rs.succeeded|
      {
        assert migrations[..i + 1][..i] == migrations[..i];
        ghost var rs := RunFrom(start, migrations[..i], checksum, f);
        var e;
        held, e, appliedCount := RunOne(i, migrations[i], held, appliedCount, f, rs);
        if e.Some? {
          RunStops(start, migrations, i + 1, checksum, f);
          return e, appliedCount;
        }
      }
      assert migrations[..|migrations|] == migrations;
      err := None;
    }

    /** One pass of `RunMigrations`' loop. */
    method RunOne(i: nat, migration: Migration, applied: set<string>, count: nat, f: Faults, ghost rs: RunState)
      returns (appliedAfter: set<string>, err: Option<Error>, countAfter: nat)
      requires rs.err.None? && State() == rs.db && onDatabase == rs.onDatabase && open == rs.open
      requires applied == rs.applied && count == |rs.succeeded|
      modifies this`tracked, this`committed, this`onConnection, this`onDatabase, this`open
      ensures var next := RunStep(rs, i, migration, ApplyOutcome(rs.db, migration, checksum, f), f);
        && err == next.err && State() == next.db && onDatabase == next.onDatabase && open == next.open
        && (err.None? ==> appliedAfter == next.applied) && countAfter == |next.succeeded|
    {
      if i <= 1 && Bootstrap(migration.id) {
        appliedAfter := applied;
        err, countAfter := RunBootstrap(i, migration, count, f, rs);
      } else {
        appliedAfter, err, countAfter := RunIfPending(i, migration, applied, count, f, rs);
      }
    }

    /** The loop's branch for `000`/`001` at index 0 or 1: always applied, and
        `000` at index 0 is followed by the reconnection to the database. */
    method RunBootstrap(i: nat, migration: Migration, count: nat, f: Faults, ghost rs: RunState)
      returns (err: Option<Error>, countAfter: nat)
      requires i <= 1 && Bootstrap(migration.id)
      requires rs.err.None? && State() == rs.db && onDatabase == rs.onDatabase && open == rs.open
      requires count == |rs.succeeded|
      modifies this`tracked, this`committed, this`onConnection, this`onDatabase, this`open
      ensures var next := RunStep(rs, i, migration, ApplyOutcome(rs.db, migration, checksum, f), f);
        && err == next.err && State() == next.db && onDatabase == next.onDatabase && open == next.open
        && rs.applied == next.applied && countAfter == |next.succeeded|
    {
      countAfter := count;
      ghost var o := ApplyOutcome(rs.db, migration, checksum, f);
      var e := ApplyMigration(migration, f);
      assert o == Outcome(State(), e);
      BootstrapAlwaysApplied(rs, i, migration, o, f);
      if e.Some? {
        return Some(Wrapped("failed to apply migration " + migration.id, e.value)), countAfter;
      }
      countAfter := countAfter + 1;
      if i == 0 && migration.id == "000" {
        var r := ReconnectToDatabase(f);
        if r.Some? {
          return Some(Wrapped("failed to reconnect to database", r.value)), countAfter;
        }
      }
      err := None;
    }

    /** The loop's branch for any other entry: read the applied set if the one
        held is empty, then apply the migration unless its ID is in the set. */
    method RunIfPending(i: nat, migration: Migration, applied: set<string>, count: nat, f: Faults, ghost rs: RunState)
      returns (appliedAfter: set<string>, err: Option<Error>, countAfter: nat)
      requires !(i <= 1 && Bootstrap(migration.id))
      requires rs.err.None? && State() == rs.db && onDatabase == rs.onDatabase && open == rs.open
      requires applied == rs.applied && count == |rs.succeeded|
      modifies this`tracked, this`committed, this`onConnection
      ensures var next := RunStep(rs, i, migration, ApplyOutcome(rs.db, migration, checksum, f), f);
        && err == next.err && State() == next.db && onDatabase == next.onDatabase && open == next.open
        && (err.None? ==> appliedAfter == next.applied) && countAfter == |next.succeeded|
    {
      appliedAfter := applied;
      countAfter := count;
      if |appliedAfter| == 0 {
        var read := GetAppliedMigrations(f);
        if read.Err? {
          return appliedAfter, Some(Wrapped("failed to get applied migrations", read.error)), countAfter;
        }
        appliedAfter := read.value;
      }
      if migration.id in appliedAfter {
        return appliedAfter, None, countAfter;
      }
      var e := ApplyMigration(migration, f);
      if e.Some? {
        return appliedAfter, Some(Wrapped("failed to apply migration " + migration.id, e.value)), countAfter;
      }
      countAfter := countAfter + 1;
      err := None;
    }

    /** `ShowStatus`, returning the statuses it logs. When the reconnection
        fails, the handle it puts back is the one `reconnectToDatabase`
        closed. */
    method ShowStatus(dir: Result<seq<DirEntry>>, f: Faults) returns (err: Option<Error>, statuses: seq<Status>)
      modifies this`onDatabase, this`open
      ensures var r := StatusReport(Load(dir), old(State()), f);
        (err.Some? <==> r.Err?) && (r.Err? ==> err == Some(r.error)) && (r.Ok? ==> statuses == r.value)
      ensures onDatabase == ((Load(dir).Ok? && f.reconnect.None?) || old(onDatabase))
      ensures open == if Load(dir).Err? then old(open) else f.reconnect.None?
    {
      statuses := [];
      var loaded := LoadMigrations(dir);
      if loaded.Err? {
        return Some(Wrapped("failed to load migrations", loaded.error)), statuses;
      }
      var migrations := loaded.value;
      var r := ReconnectToDatabase(f);
      if r.Some? {
        for k := 0 to |migrations|
          invariant statuses == seq(k, _ => Pending)
        {
          statuses := statuses + [Pending];
        }
        return None, statuses;
      }
      var read := GetAppliedMigrations(f);
      if read.Err? {
        return Some(Wrapped("failed to get applied migrations", read.error)), statuses;
      }
      var applied := read.value;
      for k := 0 to |migrations|
        invariant |statuses| == k
        invariant forall j :: 0 <= j < k ==> statuses[j] == if migrations[j].id in applied then Applied else Pending
      {
        var status := Pending;
        if migrations[k].id in applied {
          status := Applied;
        }
        statuses := statuses + [status];
      }
      err := None;
    }
  }
}
