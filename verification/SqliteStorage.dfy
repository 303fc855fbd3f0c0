/**
 The storage as the server's threads call it: prepared statements that are locked, bound,
 stepped, read, reset and unlocked.  SQLite may refuse any binding and any step.
 */
module SqliteStorage {
  import opened Bytes
  import opened Results
  import opened TailQueue
  import opened Protocol
  import opened Storage
  import opened RunCreation
  import opened Statements

  /** `struct prepared_stmt`, with what SQLite keeps for it. */
  class PreparedStmt {
    const sql: Sql
    var locked: bool
    var bindings: Bindings
    var row: Option<int>

    predicate Idle()
      reads this
    {
      !locked && bindings == map[] && row == None
    }

    constructor (sql: Sql)
      ensures this.sql == sql && Idle()
    {
      this.sql, locked, bindings, row := sql, false, map[], None;
    }

    method Lock()
      requires !locked
      modifies this`locked
      ensures locked
    {
      locked := true;
    }

    method Unlock()
      requires locked
      modifies this`locked
      ensures !locked
    {
      locked := false;
    }

    method Bind(index: int, value: Value, ok: bool) returns (ret: int)
      requires locked
      modifies this`bindings
      ensures if ok then ret == 0 && bindings == old(bindings)[index := value] else ret < 0 && bindings == old(bindings)
    {
      if !ok {
        return -1;
      }
      bindings := bindings[index := value];
      return 0;
    }

    method ColumnInt() returns (n: int32)
      requires locked && row.Some?
      ensures n == ToInt32(row.value)
    {
      n := ToInt32(row.value);
    }

    /** `sqlite_reset`: neither a row nor a binding survives. */
    method Reset()
      requires locked
      modifies this`bindings, this`row
      ensures bindings == map[] && row == None
    {
      bindings, row := map[], None;
    }
  }

  /** The engine: the tables, changed only by stepping a statement. */
  class Engine {
    var repos: seq<RepoRow>
    var runs: seq<RunRow>

    function View(): Tables
      reads this
    {
      Tables(repos, runs)
    }

    constructor ()
      ensures View() == NO_TABLES
    {
      repos, runs := [], [];
    }

    /** `sqlite_step`: 1 with a row, 0 when done, negative on failure. */
    method Step(stmt: PreparedStmt, ok: bool) returns (ret: int)
      requires stmt.locked
      modifies this, stmt`row
      ensures
        match if ok then Execute(stmt.sql, stmt.bindings, old(View())) else Refused
        case Refused => ret < 0 && View() == old(View()) && stmt.row == old(stmt.row)
        case Executed(tables, row) => View() == tables && stmt.row == row && ret == if row.Some? then 1 else 0
    {
      var e := if ok then Execute(stmt.sql, stmt.bindings, View()) else Refused;
      if e.Refused? {
        return -1;
      }
      repos, runs, stmt.row := e.tables.repos, e.tables.runs, e.row;
      ret := if e.row.Some? then 1 else 0;
    }
  }

  /** Call number `failsAt` to SQLite fails, counting the bindings and the step from 1; none does if it is 0. */
  predicate AllSucceed(failsAt: nat, calls: nat) {
    failsAt == 0 || failsAt > calls
  }

  class Sqlite {
    const db: Engine
    const repoFind: PreparedStmt
    const repoInsert: PreparedStmt
    const runInsert: PreparedStmt
    const runFinished: PreparedStmt

    ghost predicate Valid()
      reads this, repoFind, repoInsert, runInsert, runFinished
    {
      && repoFind.sql == RepoFind && repoInsert.sql == RepoInsert && runInsert.sql == RunInsert
      && runFinished.sql == RunFinished
      && repoFind.Idle() && repoInsert.Idle() && runInsert.Idle() && runFinished.Idle()
      && repoFind != repoInsert && repoFind != runInsert && repoFind != runFinished
      && repoInsert != runInsert && repoInsert != runFinished && runInsert != runFinished
    }

    constructor ()
      ensures Valid() && fresh(db) && db.View() == NO_TABLES
      ensures fresh(repoFind) && fresh(repoInsert) && fresh(runInsert) && fresh(runFinished)
    {
      db := new Engine();
      repoFind := new PreparedStmt(RepoFind);
      repoInsert := new PreparedStmt(RepoInsert);
      runInsert := new PreparedStmt(RunInsert);
      runFinished := new PreparedStmt(RunFinished);
    }

    /** `storage_sqlite_find_repo`: the id as an `int`, 0 without a row. */
    method FindRepoStatement(url: string, failsAt: nat) returns (ret: int)
      requires Valid()
      modifies db, repoFind
      ensures Valid() && db.View() == old(db.View())
      ensures if AllSucceed(failsAt, 2) then ret == ToInt32(FindRepo(db.View(), url)) else ret < 0
    {
      StatementsMean(db.View(), url, "", 0, ProcessOutput(0, []));
      NotFoundIsZero(db.View(), url);
      repoFind.Lock();
      ret := repoFind.Bind(1, TextValue(url), failsAt != 1);
      if ret >= 0 {
        ret := db.Step(repoFind, failsAt != 2);
        if ret > 0 {
          ret := repoFind.ColumnInt();
        }
      }
      repoFind.Reset();
      repoFind.Unlock();
    }

    /** `storage_sqlite_insert_repo`, as far as its own statement. */
    method InsertRepoStatement(url: string, failsAt: nat) returns (ret: int)
      requires Valid()
      modifies db, repoInsert
      ensures Valid()
      ensures if AllSucceed(failsAt, 2) then ret >= 0 && db.View() == InsertRepo(old(db.View()), url)
              else ret < 0 && db.View() == old(db.View())
    {
      StatementsMean(db.View(), url, "", 0, ProcessOutput(0, []));
      repoInsert.Lock();
      ret := repoInsert.Bind(1, TextValue(url), failsAt != 1);
      if ret >= 0 {
        ret := db.Step(repoInsert, failsAt != 2);
      }
      repoInsert.Reset();
      repoInsert.Unlock();
    }

    /** `storage_sqlite_insert_run`: the foreign key is checked by the engine. */
    method InsertRunStatement(repoId: int32, rev: string, failsAt: nat) returns (ret: int)
      requires Valid()
      modifies db, runInsert
      ensures Valid()
      ensures
        var t := old(db.View());
        if AllSucceed(failsAt, 4) && RepoExists(t.repos, repoId) then
          db.View() == InsertRun(t, repoId, rev) && ret == ToInt32(NextRunId(t))
        else db.View() == t && ret < 0
    {
      hide Execute, Bound, InsertRun, ToInt32;
      StatementsMean(db.View(), "", rev, repoId, ProcessOutput(0, []));
      BoundInOrder(InsertRunCall(repoId, rev).args);
      runInsert.Lock();
      ret := runInsert.Bind(1, IntValue(STATUS_CREATED), failsAt != 1);
      if ret >= 0 {
        ret := runInsert.Bind(2, IntValue(repoId), failsAt != 2);
      }
      if ret >= 0 {
        ret := runInsert.Bind(3, TextValue(rev), failsAt != 3);
      }
      if ret >= 0 {
        ret := db.Step(runInsert, failsAt != 4);
        if ret > 0 {
          ret := runInsert.ColumnInt();
        } else if ret == 0 {
          ret := -1;
        }
      }
      runInsert.Reset();
      runInsert.Unlock();
    }

    /** `storage_sqlite_run_finished`. */
    method RunFinishedStatement(id: int32, output: ProcessOutput, failsAt: nat) returns (ret: int)
      requires Valid()
      modifies db, runFinished
      ensures Valid()
      ensures if AllSucceed(failsAt, 5) then ret >= 0 && db.View() == FinishRun(old(db.View()), id, output)
              else ret < 0 && db.View() == old(db.View())
    {
      hide Execute, Bound, FinishRun;
      StatementsMean(db.View(), "", "", id, output);
      BoundInOrder(FinishedCall(id, output).args);
      runFinished.Lock();
      ret := runFinished.Bind(1, IntValue(STATUS_FINISHED), failsAt != 1);
      if ret >= 0 {
        ret := runFinished.Bind(2, IntValue(output.ec), failsAt != 2);
      }
      if ret >= 0 {
        ret := runFinished.Bind(3, BlobValue(output.data), failsAt != 3);
      }
      if ret >= 0 {
        ret := runFinished.Bind(4, IntValue(id), failsAt != 4);
      }
      if ret >= 0 {
        ret := db.Step(runFinished, failsAt != 5);
      }
      runFinished.Reset();
      runFinished.Unlock();
    }

    /**
     `storage_sqlite_run_create` with no other call in between: its stages, one after another.  Over
     a database that grew from an empty one it succeeds exactly when no call to SQLite fails and
     the ids fit an `int`, and then returns the id of the new row.
     */
    method RunCreate(url: string, rev: string, insertFails: nat, findFails: nat, runFails: nat) returns (ret: int)
      requires Valid()
      modifies db, repoFind, repoInsert, runInsert
      ensures Valid()
      ensures
        var (tables, stage) := CreateAlone(old(db.View()), url, rev, AllSucceed(insertFails, 2),
                                           AllSucceed(findFails, 2), AllSucceed(runFails, 4));
        && db.View() == tables
        && (stage.Created? <==> ret >= 0) && (stage.Created? ==> ret == stage.id)
      ensures
        var t := old(db.View());
        Grown(t) && |t.repos| + 1 < WRAP && |t.runs| + 1 < WRAP ==>
          && (ret >= 0 <==>
                && AllSucceed(insertFails, 2) && AllSucceed(findFails, 2) && AllSucceed(runFails, 4)
                && UrlFits(t, url) && |t.runs| < INT_MAX)
          && (ret >= 0 ==> ret == |t.runs| + 1 && CreatedIn(t, db.View(), url, rev))
    {
      hide UrlFits, CreatedIn, Grown;
      ghost var t := db.View();
      if Grown(t) && |t.repos| + 1 < WRAP && |t.runs| + 1 < WRAP {
        CreateAloneSucceedsIff(t, url, rev, AllSucceed(insertFails, 2), AllSucceed(findFails, 2),
                               AllSucceed(runFails, 4));
      }
      hide InsertRepo, FindRepo, InsertRun, RepoExists, NextRunId, ToInt32;
      ret := InsertRepoStatement(url, insertFails);
      if ret >= 0 {
        ret := FindRepoStatement(url, findFails);
      }
      if ret >= 0 {
        ret := InsertRunStatement(ret, rev, runFails);
      }
    }

    /** `storage_sqlite_get_runs`: steps through the rows; `failsAt` is the step SQLite refuses, if any. */
    method GetRunsInto(queue: Queue<Run>, failsAt: nat) returns (ret: int)
      requires queue.Valid() && queue.nodes == []
      modifies queue
      ensures queue.Valid() && fresh(queue.nodes)
      ensures failsAt > |GetRuns(db.View())| ==> ret == 0 && queue.Contents == GetRuns(db.View())
      ensures failsAt <= |GetRuns(db.View())| ==> ret < 0 && queue.Contents == []
    {
      var rows := ViewDescending(db.runs, db.repos);
      var i := 0;
      while true
        invariant queue.Valid() && fresh(queue.nodes)
        invariant i <= |rows| && i <= failsAt && queue.Contents == RowsToRuns(rows)[..i]
        decreases |rows| - i
      {
        if i == failsAt {
          var _ := queue.Destroy();
          return -1;
        }
        if i == |rows| {
          return 0;
        }
        var run := new Node(RowToRun(rows[i]));
        queue.InsertTail(run);
        i := i + 1;
      }
    }
  }
}
