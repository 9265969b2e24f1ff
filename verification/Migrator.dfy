/**
 * The migration loop as a protocol that may be stopped at any statement: what is committed then, and
 * what a later run makes of it.
 */
module Migrator {
  import opened KeyOrder
  import opened Utf16

  /** One statement of a script. Effect is any change of the schema; Note is a comment. */
  datatype Statement = Note | Begin | Commit | Rollback | Effect(id: nat)

  type Script = seq<Statement>
  type Version = Text

  /** A migration file, by its name. Its checksum stands for its whole text. */
  type File = Keyed<Script>

  /** The schema as the effects committed to it, and the table of checksums. */
  datatype Db = Db(schema: seq<(Version, nat)>, rows: map<Version, Script>)

  function First(): Version {
    Ascii("001_initial.sql")
  }

  /** The effect by which the first migration marks itself in its own legacy table. */
  const MARK: nat := 0

  predicate LegacyApplied(db: Db) {
    (First(), MARK) in db.schema
  }

  // The server: a transaction is lost unless it was committed.

  /** Auto: no transaction. Implicit: one that ends with the query it began in. Explicit: one that awaits COMMIT. */
  datatype Mode = Auto | Implicit | Explicit

  datatype Conn = Conn(committed: Db, working: Db, mode: Mode)

  function Opened(mode: Mode): Mode {
    if mode == Auto then Implicit else mode
  }

  function Execute(c: Conn, version: Version, s: Statement): Conn {
    match s
    case Note => c
    case Begin => c.(mode := Explicit)
    case Commit => Conn(c.working, c.working, Auto)
    case Rollback => Conn(c.committed, c.committed, Auto)
    case Effect(id) =>
      c.(working := c.working.(schema := c.working.schema + [(version, id)]), mode := Opened(c.mode))
  }

  function ExecuteAll(c: Conn, version: Version, script: Script): Conn {
    if script == [] then c
    else Execute(ExecuteAll(c, version, script[..|script| - 1]), version, script[|script| - 1])
  }

  function EndQuery(c: Conn): Conn {
    if c.mode == Implicit then Conn(c.working, c.working, Auto) else c
  }

  function InsertChecksum(c: Conn, version: Version, script: Script): Conn {
    EndQuery(c.(working := c.working.(rows := c.working.rows[version := script]), mode := Opened(c.mode)))
  }

  /** withoutLegacyTransactionWrapper: a BEGIN at the very start and a COMMIT at the very end come off. */
  function Unwrapped(script: Script): Script {
    var body := if script != [] && script[0] == Begin then script[1..] else script;
    if body != [] && body[|body| - 1] == Commit then body[..|body| - 1] else body
  }

  // What a file is meant to do.

  function Effects(version: Version, script: Script): seq<(Version, nat)> {
    if script == [] then []
    else
      var last := script[|script| - 1];
      Effects(version, script[..|script| - 1]) + if last.Effect? then [(version, last.id)] else []
  }

  function Record(db: Db, file: File): Db {
    db.(rows := db.rows[file.key := file.content])
  }

  function Applied(db: Db, file: File): Db {
    Record(db.(schema := db.schema + Effects(file.key, Unwrapped(file.content))), file)
  }

  predicate Changed(db: Db, file: File) {
    file.key in db.rows && db.rows[file.key] != file.content
  }

  /** One file: skipped if it is recorded, recovered if it is the first and was applied before checksums existed. */
  function One(db: Db, file: File): Db {
    if file.key in db.rows then db
    else if file.key == First() && LegacyApplied(db) then Record(db, file)
    else Applied(db, file)
  }

  function All(db: Db, files: seq<File>): Db {
    if files == [] then db else One(All(db, files[..|files| - 1]), files[|files| - 1])
  }

  // One file: its effects and its checksum together, or neither.

  predicate Ends(s: Statement) {
    s == Commit || s == Rollback
  }

  /** No effect stands before a statement that ends the transaction. */
  predicate Clean(body: Script) {
    forall i, j | 0 <= j < i < |body| && Ends(body[i]) :: !body[j].Effect?
  }

  /** And after each such statement a BEGIN follows. */
  predicate Reopened(body: Script) {
    forall i | 0 <= i < |body| && Ends(body[i]) :: exists j :: i < j < |body| && body[j] == Begin
  }

  function Started(db: Db): Conn {
    Conn(db, db, Explicit)
  }

  function Body(db: Db, file: File): Conn {
    ExecuteAll(Started(db), file.key, Unwrapped(file.content))
  }

  /** Wherever the connection is lost while the file is applied, all of it is committed or nothing. */
  ghost predicate AllOrNothing(db: Db, file: File) {
    var body, both := Unwrapped(file.content), {db, Applied(db, file)};
    && (forall k | 0 <= k <= |body| :: ExecuteAll(Started(db), file.key, body[..k]).committed in both)
    && EndQuery(Body(db, file)).committed in both
    && var inserted := InsertChecksum(EndQuery(Body(db, file)), file.key, file.content);
       inserted.committed in both && Execute(inserted, file.key, Commit).committed in both
  }

  lemma {:induction false} ModeIsReopened(c: Conn, version: Version, body: Script)
    requires c.mode == Explicit
    ensures ExecuteAll(c, version, body).mode == Explicit <==> Reopened(body)
  {
    if body != [] {
      var n := |body| - 1;
      var front := body[..n];
      ModeIsReopened(c, version, front);
      if body[n] == Begin {
        forall i | 0 <= i < |body| && Ends(body[i])
          ensures exists j :: i < j < |body| && body[j] == Begin
        {
          assert body[n] == Begin;
        }
      } else if !Ends(body[n]) {
        SameReopened(body, n);
      } else {
        assert Ends(body[n]);
      }
    }
  }

  lemma SameReopened(body: Script, n: nat)
    requires n == |body| - 1 && !Ends(body[n]) && body[n] != Begin
    ensures Reopened(body) <==> Reopened(body[..n])
  {
    var front := body[..n];
    if Reopened(body) {
      forall i | 0 <= i < n && Ends(front[i])
        ensures exists j :: i < j < n && front[j] == Begin
      {
        assert Ends(body[i]);
        var j :| i < j < |body| && body[j] == Begin;
        assert front[j] == Begin;
      }
    }
    if Reopened(front) {
      forall i | 0 <= i < |body| && Ends(body[i])
        ensures exists j :: i < j < |body| && body[j] == Begin
      {
        assert Ends(front[i]);
        var j :| i < j < n && front[j] == Begin;
        assert body[j] == Begin;
      }
    }
  }

  lemma {:induction false} NoEffects(version: Version, body: Script)
    ensures Effects(version, body) == [] <==> forall j | 0 <= j < |body| :: !body[j].Effect?
  {
    if body != [] {
      NoEffects(version, body[..|body| - 1]);
      assert body == body[..|body| - 1] + [body[|body| - 1]];
    }
  }

  lemma {:induction false} CleanRuns(db: Db, version: Version, body: Script)
    requires Clean(body)
    ensures var c := ExecuteAll(Started(db), version, body);
            c.committed == db && c.working == db.(schema := db.schema + Effects(version, body))
  {
    if body == [] {
      assert db.schema + [] == db.schema;
    } else {
      var n := |body| - 1;
      var front := body[..n];
      assert Clean(front);
      CleanRuns(db, version, front);
      if Ends(body[n]) {
        NoEffects(version, front);
        assert db.schema + [] == db.schema;
      } else {
        assert db.schema + Effects(version, front) + [] == db.schema + (Effects(version, front) + []);
      }
    }
  }

  /** While nothing is committed, an effect before a transaction's end is an effect lost. */
  lemma {:induction false} DirtyLoses(db: Db, version: Version, body: Script)
    requires forall k | 0 <= k <= |body| :: ExecuteAll(Started(db), version, body[..k]).committed == db
    requires !Clean(body)
    ensures |ExecuteAll(Started(db), version, body).working.schema| < |db.schema| + |Effects(version, body)|
  {
    var n := |body| - 1;
    assert n >= 0;
    var front := body[..n];
    forall k | 0 <= k <= n
      ensures ExecuteAll(Started(db), version, front[..k]).committed == db
    {
      assert front[..k] == body[..k];
    }
    assert front[..n] == front && body[..n + 1] == body;
    NoEffects(version, front);
    if Clean(front) {
      CleanRuns(db, version, front);
      assert ExecuteAll(Started(db), version, body[..n + 1]).committed == db;
      LastEnds(body, n);
    } else {
      DirtyLoses(db, version, front);
    }
  }

  lemma LastEnds(body: Script, n: nat)
    requires n == |body| - 1 && Clean(body[..n]) && !Clean(body)
    ensures Ends(body[n]) && exists j :: 0 <= j < n && body[..n][j].Effect?
  {
    forall i, j | 0 <= j < i < n && Ends(body[i])
      ensures !body[j].Effect?
    {
      assert body[..n][i] == body[i] && body[..n][j] == body[j];
    }
    var i, j :| 0 <= j < i < |body| && Ends(body[i]) && body[j].Effect?;
    assert body[..n][j].Effect?;
  }

  /**
   * A file that changes something is applied atomically with its checksum, wherever the run is cut off,
   * exactly when no effect in its body stands before a COMMIT or ROLLBACK and a BEGIN follows each of those.
   */
  lemma AtomicExactly(db: Db, file: File)
    requires file.key !in db.rows && Effects(file.key, Unwrapped(file.content)) != []
    ensures AllOrNothing(db, file) <==> Clean(Unwrapped(file.content)) && Reopened(Unwrapped(file.content))
  {
    var body := Unwrapped(file.content);
    hide Unwrapped;
    ModeIsReopened(Started(db), file.key, body);
    if Clean(body) && Reopened(body) {
      SealedIsAtomic(db, file);
    }
    if AllOrNothing(db, file) {
      NothingBeforeTheRow(db, file);
      if !Clean(body) {
        DirtyLoses(db, file.key, body);
        DirtyIsNotAtomic(db, file);
      } else if !Reopened(body) {
        CleanRuns(db, file.key, body);
        AutoIsCommitted(Started(db), file.key, body);
      }
    }
  }

  lemma SealedIsAtomic(db: Db, file: File)
    requires Clean(Unwrapped(file.content)) && Reopened(Unwrapped(file.content))
    ensures AllOrNothing(db, file)
    ensures EndQuery(Body(db, file)) == Body(db, file)
    ensures forall k | 0 <= k <= |Unwrapped(file.content)| ::
              ExecuteAll(Started(db), file.key, Unwrapped(file.content)[..k]).committed == db
    ensures Execute(InsertChecksum(Body(db, file), file.key, file.content), file.key, Commit)
         == Conn(Applied(db, file), Applied(db, file), Auto)
    ensures InsertChecksum(Body(db, file), file.key, file.content).committed == db
  {
    var body := Unwrapped(file.content);
    hide Unwrapped;
    ModeIsReopened(Started(db), file.key, body);
    forall k | 0 <= k <= |body|
      ensures ExecuteAll(Started(db), file.key, body[..k]).committed == db
    {
      assert Clean(body[..k]);
      CleanRuns(db, file.key, body[..k]);
    }
    CleanRuns(db, file.key, body);
    hide ExecuteAll, Effects, Clean, Reopened;
  }

  /** While the body runs its row is not there, so nothing of it may be committed. */
  lemma NothingBeforeTheRow(db: Db, file: File)
    requires file.key !in db.rows && AllOrNothing(db, file)
    ensures forall k | 0 <= k <= |Unwrapped(file.content)| ::
              ExecuteAll(Started(db), file.key, Unwrapped(file.content)[..k]).committed == db
    ensures EndQuery(Body(db, file)).committed == db
  {
    var body := Unwrapped(file.content);
    hide Unwrapped;
    forall k | 0 <= k <= |body|
      ensures ExecuteAll(Started(db), file.key, body[..k]).committed == db
    {
      RowsStay(Started(db), file.key, body[..k]);
    }
    RowsStay(Started(db), file.key, body);
    hide ExecuteAll;
  }

  lemma {:induction false} RowsStay(c: Conn, version: Version, body: Script)
    requires c.committed.rows == c.working.rows
    ensures var d := ExecuteAll(c, version, body);
                d.committed.rows == c.committed.rows
                && d.working.rows == c.working.rows
  {
    if body != [] {
      RowsStay(c, version, body[..|body| - 1]);
    }
  }

  lemma DirtyIsNotAtomic(db: Db, file: File)
    requires |Body(db, file).working.schema| < |db.schema| + |Effects(file.key, Unwrapped(file.content))|
    requires EndQuery(Body(db, file)).committed == db && file.key !in db.rows
    ensures !AllOrNothing(db, file)
  {
    hide ExecuteAll, Effects, Unwrapped;
    var inserted := InsertChecksum(EndQuery(Body(db, file)), file.key, file.content);
    var end := Execute(inserted, file.key, Commit).committed;
    assert file.key in end.rows;
    assert |end.schema| < |Applied(db, file).schema|;
    hide Body, Applied;
  }

  /** Outside a transaction there is nothing left to commit. */
  lemma {:induction false} AutoIsCommitted(c: Conn, version: Version, body: Script)
    requires c.mode == Auto ==> c.working == c.committed
    ensures var d := ExecuteAll(c, version, body); d.mode == Auto ==> d.working == d.committed
  {
    if body != [] {
      AutoIsCommitted(c, version, body[..|body| - 1]);
    }
  }

  // A whole run.

  predicate Sealed(file: File) {
    Clean(Unwrapped(file.content)) && Reopened(Unwrapped(file.content))
  }

  /** Whatever was committed when a run stopped is what some number of the files, in order, would have left. */
  ghost predicate Prefix(before: Db, after: Db, files: seq<File>, k: nat) {
    k <= |files| && after == All(before, files[..k]) && forall i | 0 <= i < k ::
      !Changed(All(before, files[..i]), files[i])
  }

  lemma PrefixStarts(before: Db, files: seq<File>)
    ensures Prefix(before, before, files, 0)
  {
  }

  lemma PrefixGrows(before: Db, during: Db, files: seq<File>, k: nat)
    requires Prefix(before, during, files, k) && k < |files| && !Changed(during, files[k])
    ensures Prefix(before, One(during, files[k]), files, k + 1)
  {
    assert files[..k + 1][..k] == files[..k];
  }

  lemma SortedFilesAreListed(listed: seq<File>, i: nat)
    requires i < |Sorted(listed)|
    ensures Sorted(listed)[i] in listed
  {
    SortedKeeps(listed);
    SameEntries(listed, Sorted(listed), Sorted(listed)[i]);
  }

  datatype End = Finished | ChangedAfterApply(at: nat) | Died

  // Exactly what a run leaves, wherever it is cut off, whatever its files do with the transaction.

  /** The statements the loop sends for one file. */
  function Cost(db: Db, file: File): nat {
    if file.key in db.rows then 2
    else if file.key == First() && LegacyApplied(db) then 3
    else |Unwrapped(file.content)| + 3
  }

  /** What is committed of one file when the connection is lost after `n` of its statements. */
  function Stopped(db: Db, file: File, n: nat): Db {
    var body := Unwrapped(file.content);
    if file.key in db.rows then db
    else if file.key == First() && LegacyApplied(db) then if n < 3 then db else Record(db, file)
    else if n == 0 then db
    else if n <= |body| then ExecuteAll(Started(db), file.key, body[..n - 1]).committed
    else
      var ended := EndQuery(Body(db, file));
      var inserted := InsertChecksum(ended, file.key, file.content);
      if n == |body| + 1 then ended.committed
      else if n == |body| + 2 then inserted.committed
      else Execute(inserted, file.key, Commit).committed
  }

  function Whole(db: Db, file: File): Db {
    Stopped(db, file, Cost(db, file))
  }

  /** The run from file `from` on, with so many statements before the connection is lost. */
  function Outcome(db: Db, files: seq<File>, from: nat, budget: nat): (Db, End)
    requires from <= |files|
    decreases |files| - from
  {
    if from == |files| then (db, Finished)
    else
      var cost := Cost(db, files[from]);
      if budget < cost then (Stopped(db, files[from], budget), Died)
      else if Changed(db, files[from]) then (db, ChangedAfterApply(from))
      else Outcome(Whole(db, files[from]), files, from + 1, budget - cost)
  }

  /** A file that leaves the transaction alone: nothing is committed before its last statement, and then all of it. */
  lemma SealedStopsWhole(db: Db, file: File, n: nat)
    requires Sealed(file)
    ensures n < Cost(db, file) ==> Stopped(db, file, n) == db
    ensures n >= Cost(db, file) && !Changed(db, file) ==> Stopped(db, file, n) == One(db, file)
  {
    if file.key !in db.rows && !(file.key == First() && LegacyApplied(db)) {
      SealedIsAtomic(db, file);
    }
    hide Unwrapped, First, ExecuteAll, Effects, Clean, Reopened, Body;
  }

  /** And only such a file, if it changes anything at all, is never found half committed. */
  lemma WholeOnlyWhenSealed(db: Db, file: File)
    requires file.key !in db.rows && !(file.key == First() && LegacyApplied(db))
    requires Effects(file.key, Unwrapped(file.content)) != []
    ensures (forall n: nat :: Stopped(db, file, n) in {db, Applied(db, file)}) <==> Sealed(file)
  {
    AtomicExactly(db, file);
    if forall n: nat :: Stopped(db, file, n) in {db, Applied(db, file)} {
      StopsAreAll(db, file);
    } else if Sealed(file) {
      forall n: nat
        ensures Stopped(db, file, n) in {db, Applied(db, file)}
      {
        SealedStopsWhole(db, file, n);
        assert file.key !in db.rows;
      }
    }
    hide Stopped, AllOrNothing, Sealed, Effects, Unwrapped, First;
  }

  lemma StopsAreAll(db: Db, file: File)
    requires file.key !in db.rows && !(file.key == First() && LegacyApplied(db))
    requires forall n: nat :: Stopped(db, file, n) in {db, Applied(db, file)}
    ensures AllOrNothing(db, file)
  {
    var body, both := Unwrapped(file.content), {db, Applied(db, file)};
    hide Unwrapped, First, Applied, ExecuteAll;
    forall k | 0 <= k <= |body|
      ensures ExecuteAll(Started(db), file.key, body[..k]).committed in both
    {
      if k < |body| {
        assert Stopped(db, file, k + 1) in both;
      } else {
        assert body[..k] == body;
        EndQueryCommitsMore(db, file, both);
      }
    }
    assert Stopped(db, file, |body| + 1) in both && Stopped(db, file, |body| + 2) in both;
    assert Stopped(db, file, |body| + 3) in both;
  }

  /** Losing the connection right before the query ends leaves what losing it a step earlier or later may. */
  lemma EndQueryCommitsMore(db: Db, file: File, both: set<Db>)
    requires file.key !in db.rows && !(file.key == First() && LegacyApplied(db)) && db in both
    requires forall n: nat :: Stopped(db, file, n) in both
    ensures Body(db, file).committed in both
  {
    var body := Unwrapped(file.content);
    hide Unwrapped, First;
    assert Stopped(db, file, |body| + 1) == EndQuery(Body(db, file)).committed;
    if body != [] {
      var n := |body| - 1;
      assert Stopped(db, file, |body|) == ExecuteAll(Started(db), file.key, body[..n]).committed;
      assert Body(db, file) == Execute(ExecuteAll(Started(db), file.key, body[..n]), file.key, body[n]);
    }
    hide ExecuteAll;
  }

  /** The database as the migrator talks to it; `budget` statements from now the connection is lost. */
  class Server {
    var conn: Conn
    var budget: nat

    constructor (db: Db, budget: nat)
      ensures conn == Conn(db, db, Auto) && this.budget == budget
    {
      conn, this.budget := Conn(db, db, Auto), budget;
    }

    /** One statement, unless the connection is gone. */
    method Do(version: Version, s: Statement) returns (alive: bool)
      modifies this
      ensures alive <==> old(budget) > 0
      ensures alive ==> conn == Execute(old(conn), version, s) && budget == old(budget) - 1
      ensures !alive ==> conn == Conn(old(conn.committed), old(conn.committed), Auto)
    {
      if budget == 0 {
        conn := Conn(conn.committed, conn.committed, Auto);
        return false;
      }
      budget := budget - 1;
      conn := Execute(conn, version, s);
      return true;
    }

    method InsertRow(version: Version, script: Script) returns (alive: bool)
      modifies this
      ensures alive <==> old(budget) > 0
      ensures alive ==> conn == InsertChecksum(old(conn), version, script) && budget == old(budget) - 1
      ensures !alive ==> conn == Conn(old(conn.committed), old(conn.committed), Auto)
    {
      if budget == 0 {
        conn := Conn(conn.committed, conn.committed, Auto);
        return false;
      }
      budget := budget - 1;
      conn := InsertChecksum(conn, version, script);
      return true;
    }

    /** A query of several statements; the connection may be lost after any of them. */
    method Query(version: Version, script: Script) returns (alive: bool)
      modifies this
      ensures alive <==> old(budget) >= |script|
      ensures alive ==> conn == EndQuery(ExecuteAll(old(conn), version, script)) && budget == old(budget) - |script|
      ensures !alive ==>
                var c := ExecuteAll(old(conn), version, script[..old(budget)]).committed; conn == Conn(c, c, Auto)
    {
      for i := 0 to |script|
        invariant budget == old(budget) - i && conn == ExecuteAll(old(conn), version, script[..i])
      {
        alive := Do(version, script[i]);
        if !alive {
          return;
        }
        assert script[..i + 1][..i] == script[..i];
      }
      assert script[..|script|] == script;
      conn := EndQuery(conn);
      alive := true;
    }

    /** One file of the loop. An error rolls back and ends the run, which leaves what a lost connection leaves. */
    method MigrateFile(file: File) returns (end: End)
      requires conn == Conn(conn.committed, conn.committed, Auto)
      modifies this
      ensures conn == Conn(conn.committed, conn.committed, Auto)
      ensures conn.committed == Stopped(old(conn.committed), file, old(budget))
      ensures end.Died? <==> old(budget) < Cost(old(conn.committed), file)
      ensures end.ChangedAfterApply? <==> Changed(old(conn.committed), file) && !end.Died?
      ensures !end.Died? ==> budget == old(budget) - Cost(old(conn.committed), file)
    {
      hide Unwrapped, First, ExecuteAll;
      ghost var before := conn.committed;
      var alive := Do(file.key, Begin);
      if !alive {
        return Died;
      }
      if file.key in conn.working.rows {
        if conn.working.rows[file.key] != file.content {
          alive := Do(file.key, Rollback);
          return if alive then ChangedAfterApply(0) else Died;
        }
        alive := Do(file.key, Commit);
        return if alive then Finished else Died;
      }
      if file.key == First() && LegacyApplied(conn.working) {
        alive := InsertRow(file.key, file.content);
        if alive {
          alive := Do(file.key, Commit);
        }
        return if alive then Finished else Died;
      }
      alive := Query(file.key, Unwrapped(file.content));
      if alive {
        alive := InsertRow(file.key, file.content);
      }
      if alive {
        alive := Do(file.key, Commit);
      }
      return if alive then Finished else Died;
    }

    /** The whole loop, over the files in the order of their names. */
    method Migrate(listed: seq<File>) returns (end: End)
      requires conn == Conn(conn.committed, conn.committed, Auto)
      modifies this
      ensures (conn.committed, end) == Outcome(old(conn.committed), Sorted(listed), 0, old(budget))
    {
      hide Changed, Stopped, Cost, Sorted;
      var files := Sorted(listed);
      for i := 0 to |files|
        invariant conn == Conn(conn.committed, conn.committed, Auto)
        invariant Outcome(conn.committed, files, i, budget) == Outcome(old(conn.committed), files, 0, old(budget))
      {
        ghost var before, left := conn.committed, budget;
        end := MigrateFile(files[i]);
        if end.Died? {
          return Died;
        }
        EnoughIsWhole(before, files[i], left);
        if end.ChangedAfterApply? {
          ChangedStops(before, files[i], left);
          return ChangedAfterApply(i);
        }
      }
      return Finished;
    }
  }

  lemma EnoughIsWhole(db: Db, file: File, n: nat)
    requires n >= Cost(db, file)
    ensures Stopped(db, file, n) == Whole(db, file)
  {
    hide Unwrapped, First, ExecuteAll;
  }

  lemma ChangedStops(db: Db, file: File, n: nat)
    requires Changed(db, file)
    ensures Stopped(db, file, n) == db
  {
    hide Unwrapped, First, ExecuteAll;
  }

  /**
   * With files that leave the transaction alone: whenever a run stops, what is committed is what some number of
   * the files leave, whole; finished, it is what all of them leave; and a file changed after it was applied
   * stops the run before any later file.
   */
  lemma {:induction false} RunsLeaveAPrefix(before: Db, db: Db, files: seq<File>, from: nat, budget: nat)
    requires from <= |files| && Prefix(before, db, files, from)
    requires forall i | 0 <= i < |files| :: Sealed(files[i])
    ensures var (after, end) := Outcome(db, files, from, budget);
            && (end.Finished? ==> Prefix(before, after, files, |files|))
            && (end.ChangedAfterApply? ==>
                  && end.at < |files| && Prefix(before, after, files, end.at) && Changed(after, files[end.at]))
            && exists k :: Prefix(before, after, files, k)
    decreases |files| - from
  {
    hide Sealed, Changed, One, Prefix, Stopped, Cost;
    if from < |files| {
      SealedStopsWhole(db, files[from], budget);
      if budget >= Cost(db, files[from]) && !Changed(db, files[from]) {
        EnoughIsWhole(db, files[from], budget);
        PrefixGrows(before, db, files, from);
        RunsLeaveAPrefix(before, One(db, files[from]), files, from + 1, budget - Cost(db, files[from]));
      }
    }
  }

  /** So it is for the loop itself, in the order of the files' names. */
  lemma MigrationsLeaveAPrefix(db: Db, listed: seq<File>, budget: nat)
    requires forall file | file in listed :: Sealed(file)
    ensures var files := Sorted(listed);
            var (after, end) := Outcome(db, files, 0, budget);
            && (end.Finished? ==> Prefix(db, after, files, |files|))
            && (end.ChangedAfterApply? ==>
                  && end.at < |files| && Prefix(db, after, files, end.at) && Changed(after, files[end.at]))
            && exists k :: Prefix(db, after, files, k)
  {
    var files := Sorted(listed);
    hide Sealed, Sorted, Prefix, Outcome, Changed;
    PrefixStarts(db, files);
    forall i | 0 <= i < |files|
      ensures Sealed(files[i])
    {
      SortedFilesAreListed(listed, i);
    }
    RunsLeaveAPrefix(db, db, files, 0, budget);
  }

  function Longest(files: seq<File>, from: nat): nat
    requires from <= |files|
    decreases |files| - from
  {
    if from == |files| then 0 else |files[from].content| + 3 + Longest(files, from + 1)
  }

  lemma CostIsBounded(db: Db, file: File)
    ensures 2 <= Cost(db, file) <= |file.content| + 3
  {
    hide First;
  }

  /** A run whose connection lasts does not stop half way: it finishes, or stops at a changed file. */
  lemma {:induction false} LastingConnectionsFinish(db: Db, files: seq<File>, from: nat, budget: nat)
    requires from <= |files| && budget >= Longest(files, from)
    ensures var (after, end) := Outcome(db, files, from, budget);
            && !end.Died?
            && (end.Finished? <==> forall k | from <= k < |files| :: !Changed(Reaching(db, files, from, k), files[k]))
    decreases |files| - from
  {
    hide Changed, Stopped, Cost;
    if from < |files| {
      CostIsBounded(db, files[from]);
      assert Reaching(db, files, from, from) == db;
      if !Changed(db, files[from]) {
        LastingConnectionsFinish(Whole(db, files[from]), files, from + 1, budget - Cost(db, files[from]));
        forall k | from < k < |files|
          ensures Reaching(db, files, from, k) == Reaching(Whole(db, files[from]), files, from + 1, k)
        {
        }
      }
    }
  }

  /** The database as file `k` finds it. */
  function Reaching(db: Db, files: seq<File>, from: nat, k: nat): Db
    requires from <= k <= |files|
    decreases k - from
  {
    if k == from then db else Reaching(Whole(db, files[from]), files, from + 1, k)
  }

  // Runs after runs.

  lemma {:induction false} RecordedStays(db: Db, files: seq<File>, version: Version)
    requires version in db.rows
    ensures version in All(db, files).rows && All(db, files).rows[version] == db.rows[version]
  {
    if files != [] {
      RecordedStays(db, files[..|files| - 1], version);
    }
  }

  lemma {:induction false} EveryFileIsRecorded(db: Db, files: seq<File>, i: nat)
    requires i < |files|
    ensures files[i].key in All(db, files).rows
  {
    if i < |files| - 1 {
      EveryFileIsRecorded(db, files[..|files| - 1], i);
      RecordedStays(All(db, files[..|files| - 1]), [files[|files| - 1]], files[i].key);
    }
  }

  lemma {:induction false} NothingLeftToDo(db: Db, files: seq<File>)
    requires forall i | 0 <= i < |files| :: files[i].key in db.rows
    ensures All(db, files) == db
  {
    if files != [] {
      NothingLeftToDo(db, files[..|files| - 1]);
    }
  }

  /** A run picks up where an earlier one stopped: two cut-off runs leave what the longer of them would alone. */
  lemma {:induction false} RunsAddUp(db: Db, files: seq<File>, k: nat, m: nat)
    requires k <= |files| && m <= |files|
    ensures All(All(db, files[..k]), files[..m]) == All(db, files[..if k > m then k else m])
    decreases m
  {
    var done := All(db, files[..k]);
    if m <= k {
      forall i | 0 <= i < m
        ensures files[..m][i].key in done.rows
      {
        EveryFileIsRecorded(db, files[..k], i);
      }
      NothingLeftToDo(done, files[..m]);
    } else {
      RunsAddUp(db, files, k, m - 1);
      assert files[..m][..m - 1] == files[..m - 1];
    }
  }

  /** The database after runs that each stopped after so many files. */
  function AfterRuns(db: Db, files: seq<File>, stops: seq<nat>): Db
    requires forall i | 0 <= i < |stops| :: stops[i] <= |files|
  {
    if stops == [] then db
    else
      var n := |stops| - 1;
      All(AfterRuns(db, files, stops[..n]), files[..stops[n]])
  }

  function Furthest(stops: seq<nat>): nat {
    if stops == [] then 0
    else
      var n := |stops| - 1;
      if stops[n] > Furthest(stops[..n]) then stops[n] else Furthest(stops[..n])
  }

  lemma {:induction false} FurthestIsAStop(stops: seq<nat>, limit: nat)
    requires forall i | 0 <= i < |stops| :: stops[i] <= limit
    ensures Furthest(stops) <= limit
  {
    if stops != [] {
      FurthestIsAStop(stops[..|stops| - 1], limit);
    }
  }

  /** However often and wherever runs were cut off, together they did what one run to the furthest stop does. */
  lemma {:induction false} InterruptedRunsLeaveAPrefix(db: Db, files: seq<File>, stops: seq<nat>)
    requires forall i | 0 <= i < |stops| :: stops[i] <= |files|
    ensures Furthest(stops) <= |files| && AfterRuns(db, files, stops) == All(db, files[..Furthest(stops)])
  {
    FurthestIsAStop(stops, |files|);
    if stops == [] {
      assert files[..0] == [];
    } else {
      var n := |stops| - 1;
      InterruptedRunsLeaveAPrefix(db, files, stops[..n]);
      RunsAddUp(db, files, Furthest(stops[..n]), stops[n]);
    }
  }

  /** So a run that finishes leaves the same database whatever happened before it. */
  lemma FinishedRunCompletes(db: Db, files: seq<File>, stops: seq<nat>)
    requires forall i | 0 <= i < |stops| :: stops[i] <= |files|
    ensures All(AfterRuns(db, files, stops), files) == All(db, files)
  {
    InterruptedRunsLeaveAPrefix(db, files, stops);
    RunsAddUp(db, files, Furthest(stops), |files|);
    assert files[..|files|] == files;
  }

  // At most once.

  function Of(schema: seq<(Version, nat)>, version: Version): seq<(Version, nat)> {
    if schema == [] then []
    else
      var last := schema[|schema| - 1];
      Of(schema[..|schema| - 1], version) + if last.0 == version then [last] else []
  }

  lemma {:induction false} OfConcat(a: seq<(Version, nat)>, b: seq<(Version, nat)>, version: Version)
    ensures Of(a + b, version) == Of(a, version) + Of(b, version)
  {
    if b == [] {
      assert a + b == a;
    } else {
      var n := |b| - 1;
      assert (a + b)[..|a + b| - 1] == a + b[..n];
      OfConcat(a, b[..n], version);
    }
  }

  lemma {:induction false} OfEffects(version: Version, script: Script, other: Version)
    ensures Of(Effects(version, script), other) == if other == version then Effects(version, script) else []
  {
    if script != [] {
      var n := |script| - 1;
      var front := Effects(version, script[..n]);
      OfEffects(version, script[..n], other);
      if script[n].Effect? {
        OfConcat(front, [(version, script[n].id)], other);
        assert [(version, script[n].id)][..0] == [];
      } else {
        assert front + [] == front;
      }
    }
  }

  /**
   * Every recorded file's effects are in the schema exactly once, and of no other file is anything there,
   * except the first one's from before there were checksums.
   */
  ghost predicate OnceEach(db: Db, first: Script) {
    forall version :: Of(db.schema, version) == Expected(db, first, version)
  }

  function Expected(db: Db, first: Script, version: Version): seq<(Version, nat)> {
    if version in db.rows then Effects(version, Unwrapped(db.rows[version]))
    else if version == First() && LegacyApplied(db) then Effects(First(), Unwrapped(first))
    else []
  }

  lemma {:induction false} OthersKeepTheMark(schema: seq<(Version, nat)>, version: Version, script: Script)
    requires version != First()
    ensures (First(), MARK) in schema + Effects(version, script) <==> (First(), MARK) in schema
  {
    if script == [] {
      assert schema + [] == schema;
    } else {
      var n := |script| - 1;
      OthersKeepTheMark(schema, version, script[..n]);
    }
  }

  lemma AppliedAddsItsEffects(db: Db, file: File, version: Version)
    ensures Of(Applied(db, file).schema, version)
         == Of(db.schema, version) + if version == file.key then Effects(file.key, Unwrapped(file.content)) else []
    ensures file.key != First() ==> (LegacyApplied(Applied(db, file)) <==> LegacyApplied(db))
  {
    var effects := Effects(file.key, Unwrapped(file.content));
    OfConcat(db.schema, effects, version);
    OfEffects(file.key, Unwrapped(file.content), version);
    if file.key != First() {
      OthersKeepTheMark(db.schema, file.key, Unwrapped(file.content));
    }
    hide Effects, Of, Unwrapped, First;
  }

  lemma AppliedIsExpected(db: Db, first: Script, file: File, version: Version)
    requires Of(db.schema, version) == Expected(db, first, version) && file.key !in db.rows
    requires !(file.key == First() && LegacyApplied(db))
    ensures Of(Applied(db, file).schema, version) == Expected(Applied(db, file), first, version)
  {
    AppliedAddsItsEffects(db, file, version);
    hide Effects, Of, Unwrapped, First, LegacyApplied;
    if version == file.key {
      assert Of(db.schema, version) == [];
    } else {
      assert Of(db.schema, version) + [] == Of(db.schema, version);
    }
  }

  lemma OneKeepsOnce(db: Db, first: Script, file: File)
    requires OnceEach(db, first) && (file.key == First() ==> file.content == first)
    ensures OnceEach(One(db, file), first)
  {
    hide First, Of, Applied, Effects, Unwrapped;
    forall version
      ensures Of(One(db, file).schema, version) == Expected(One(db, file), first, version)
    {
      assert Of(db.schema, version) == Expected(db, first, version);
      if file.key !in db.rows && !(file.key == First() && LegacyApplied(db)) {
        AppliedIsExpected(db, first, file, version);
      }
    }
  }

  /** Over any runs each file's effects are committed at most once, the recovery of the first file included. */
  lemma {:induction false} EffectsAreCommittedOnce(db: Db, first: Script, files: seq<File>)
    requires OnceEach(db, first) && forall file | file in files :: file.key == First() ==> file.content == first
    ensures OnceEach(All(db, files), first)
  {
    if files != [] {
      var n := |files| - 1;
      EffectsAreCommittedOnce(db, first, files[..n]);
      OneKeepsOnce(All(db, files[..n]), first, files[n]);
    }
  }
}
