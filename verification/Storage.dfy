/**
 The SQLite storage: tables with their key constraints, and the prepared statements run on
 them one at a time.
 */
module Storage {
  import opened Bytes
  import opened TailQueue
  import opened Protocol

  datatype RepoRow = RepoRow(id: int, url: string)

  datatype RunRow = RunRow(id: int, status: int, exitCode: int32, output: seq<byte>, repoId: int, rev: string)

  /** Rows are kept in the order of their INTEGER PRIMARY KEY. */
  datatype Tables = Tables(repos: seq<RepoRow>, runs: seq<RunRow>)

  const NO_TABLES := Tables([], [])

  datatype StatusRow = StatusRow(id: int, name: string)

  /** The rows the schema puts into cimple_run_status. */
  const STATUSES: seq<StatusRow> := [StatusRow(STATUS_CREATED, "created"), StatusRow(STATUS_FINISHED, "finished")]

  // ---- the statements ----

  /** The key SQLite gives a new row: one more than the largest. */
  function NextRepoId(t: Tables): int {
    if t.repos == [] then 1 else t.repos[|t.repos| - 1].id + 1
  }

  function NextRunId(t: Tables): int {
    if t.runs == [] then 1 else t.runs[|t.runs| - 1].id + 1
  }

  predicate HasUrl(t: Tables, url: string) {
    exists i :: 0 <= i < |t.repos| && t.repos[i].url == url
  }

  function RepoIdIn(repos: seq<RepoRow>, url: string): int {
    if repos == [] then 0 else if repos[0].url == url then repos[0].id else RepoIdIn(repos[1..], url)
  }

  /** SELECT id FROM cimple_repos WHERE url = ?: the id, or 0 without a row. */
  function FindRepo(t: Tables, url: string): int {
    RepoIdIn(t.repos, url)
  }

  /** INSERT INTO cimple_repos(url) VALUES (?) ON CONFLICT(url) DO NOTHING. */
  function InsertRepo(t: Tables, url: string): Tables {
    if HasUrl(t, url) then t else t.(repos := t.repos + [RepoRow(NextRepoId(t), url)])
  }

  /** The foreign key from runs to repositories. */
  predicate RepoExists(repos: seq<RepoRow>, id: int) {
    exists i :: 0 <= i < |repos| && repos[i].id == id
  }

  /** INSERT INTO cimple_runs(...) VALUES (?, -1, x'', ?, ?) RETURNING id, when the foreign keys allow it. */
  function InsertRun(t: Tables, repoId: int, rev: string): Tables {
    t.(runs := t.runs + [RunRow(NextRunId(t), STATUS_CREATED, -1, [], repoId, rev)])
  }

  function FinishRow(r: RunRow, id: int, output: ProcessOutput): RunRow {
    if r.id == id then r.(status := STATUS_FINISHED, exitCode := output.ec, output := output.data) else r
  }

  /** UPDATE cimple_runs SET status = ?, exit_code = ?, output = ? WHERE id = ?. */
  function FinishRun(t: Tables, id: int, output: ProcessOutput): (t': Tables)
    ensures |t'.runs| == |t.runs|
  {
    t.(runs := seq(|t.runs|, i requires 0 <= i < |t.runs| => FinishRow(t.runs[i], id, output)))
  }

  // ---- the view ----

  datatype ViewRow = ViewRow(id: int, status: string, exitCode: int32, url: string, rev: string)

  /** The inner joins of one run with the statuses and repositories it refers to. */
  function JoinRepos(r: RunRow, name: string, repos: seq<RepoRow>): seq<ViewRow> {
    if repos == [] then []
    else
      (if repos[0].id == r.repoId then [ViewRow(r.id, name, r.exitCode, repos[0].url, r.rev)] else [])
      + JoinRepos(r, name, repos[1..])
  }

  function JoinStatuses(r: RunRow, statuses: seq<StatusRow>, repos: seq<RepoRow>): seq<ViewRow> {
    if statuses == [] then []
    else
      (if statuses[0].id == r.status then JoinRepos(r, statuses[0].name, repos) else [])
      + JoinStatuses(r, statuses[1..], repos)
  }

  /** cimple_runs_view ... ORDER BY id DESC. */
  function ViewDescending(runs: seq<RunRow>, repos: seq<RepoRow>): seq<ViewRow> {
    if runs == [] then []
    else JoinStatuses(runs[|runs| - 1], STATUSES, repos) + ViewDescending(runs[..|runs| - 1], repos)
  }

  /** The integer SQLite reads from a text value: its leading digits. */
  function TextAsInt(s: string, acc: int): int {
    if s == "" || !('0' <= s[0] <= '9') then acc
    else TextAsInt(s[1..], acc * 10 + (s[0] as int - '0' as int))
  }

  /** `storage_sqlite_row_to_run`: the status column of the view is the label. */
  function RowToRun(v: ViewRow): Run {
    Run(ToInt32(v.id), v.url, v.rev, ToInt32(TextAsInt(v.status, 0)), v.exitCode)
  }

  function RowsToRuns(rows: seq<ViewRow>): (runs: seq<Run>)
    ensures |runs| == |rows|
  {
    seq(|rows|, i requires 0 <= i < |rows| => RowToRun(rows[i]))
  }

  function GetRuns(t: Tables): seq<Run> {
    RowsToRuns(ViewDescending(t.runs, t.repos))
  }

  /** cimple_runs_view ... WHERE status = ? ORDER BY id: the integer bound is compared, as text, with the label. */
  function ViewWhereStatus(runs: seq<RunRow>, repos: seq<RepoRow>, bound: string): seq<ViewRow> {
    if runs == [] then []
    else
      ViewWhereStatus(runs[..|runs| - 1], repos, bound)
      + WhereStatus(JoinStatuses(runs[|runs| - 1], STATUSES, repos), bound)
  }

  function WhereStatus(rows: seq<ViewRow>, bound: string): seq<ViewRow> {
    if rows == [] then []
    else (if rows[0].status == bound then [rows[0]] else []) + WhereStatus(rows[1..], bound)
  }

  const STATUS_CREATED_AS_TEXT := "1"

  /** What the server reloads into its run queue at start. */
  function GetRunQueue(t: Tables): seq<Run> {
    RowsToRuns(ViewWhereStatus(t.runs, t.repos, STATUS_CREATED_AS_TEXT))
  }

  // ---- the constraints ----

  /** The primary key of the repositories and the unique index on their urls. */
  ghost predicate ReposKeyed(repos: seq<RepoRow>) {
    && (forall i :: 0 <= i < |repos| ==> repos[i].id >= 1)
    && (forall i, j :: 0 <= i < j < |repos| ==> repos[i].id < repos[j].id && repos[i].url != repos[j].url)
  }

  ghost predicate RunsKeyed(runs: seq<RunRow>) {
    && (forall i :: 0 <= i < |runs| ==> runs[i].id >= 1)
    && (forall i, j :: 0 <= i < j < |runs| ==> runs[i].id < runs[j].id)
  }

  /** The foreign keys of the runs. */
  ghost predicate References(runs: seq<RunRow>, repos: seq<RepoRow>) {
    forall i :: 0 <= i < |runs| ==>
      runs[i].status in {STATUS_CREATED, STATUS_FINISHED} && RepoExists(repos, runs[i].repoId)
  }

  ghost predicate Consistent(t: Tables) {
    ReposKeyed(t.repos) && RunsKeyed(t.runs) && References(t.runs, t.repos)
  }

  lemma {:induction false} FindRepoFinds(repos: seq<RepoRow>, i: nat)
    requires i < |repos| && ReposKeyed(repos)
    ensures RepoIdIn(repos, repos[i].url) == repos[i].id
  {
    if i > 0 {
      FindRepoFinds(repos[1..], i - 1);
      assert repos[0].url != repos[i].url;
    }
  }

  /** The join with the repositories keeps a run once, with the url of its repository. */
  lemma {:induction false} JoinReposOnce(r: RunRow, name: string, repos: seq<RepoRow>, k: nat)
    requires k < |repos| && repos[k].id == r.repoId && ReposKeyed(repos)
    ensures JoinRepos(r, name, repos) == [ViewRow(r.id, name, r.exitCode, repos[k].url, r.rev)]
  {
    if k > 0 {
      assert repos[0].id != repos[k].id;
      JoinReposOnce(r, name, repos[1..], k - 1);
    } else {
      JoinReposNone(r, name, repos[1..]);
    }
  }

  lemma {:induction false} JoinReposNone(r: RunRow, name: string, repos: seq<RepoRow>)
    requires !RepoExists(repos, r.repoId)
    ensures JoinRepos(r, name, repos) == []
  {
    if repos != [] {
      assert forall i :: 0 <= i < |repos| - 1 ==> repos[1..][i] == repos[i + 1];
      JoinReposNone(r, name, repos[1..]);
    }
  }

  function Label(status: int): string {
    if status == STATUS_CREATED then "created" else "finished"
  }

  function Viewed(r: RunRow, url: string): ViewRow {
    ViewRow(r.id, Label(r.status), r.exitCode, url, r.rev)
  }

  /** The inner joins lose and duplicate nothing. */
  lemma JoinedOnce(r: RunRow, repos: seq<RepoRow>, k: nat)
    requires ReposKeyed(repos) && k < |repos| && repos[k].id == r.repoId
      && r.status in {STATUS_CREATED, STATUS_FINISHED}
    ensures JoinStatuses(r, STATUSES, repos) == [Viewed(r, repos[k].url)]
  {
    JoinReposOnce(r, "created", repos, k);
    JoinReposOnce(r, "finished", repos, k);
    hide JoinRepos;
    var second := STATUSES[1..];
    assert second == [STATUSES[1]] && second[1..] == [];
    assert JoinStatuses(r, second, repos)
      == if r.status == STATUS_FINISHED then JoinRepos(r, "finished", repos) else [];
  }

  // ---- what the statements keep ----

  lemma RepoExistsStill(repos: seq<RepoRow>, more: seq<RepoRow>, id: int)
    requires RepoExists(repos, id)
    ensures RepoExists(repos + more, id)
  {
    var k :| 0 <= k < |repos| && repos[k].id == id;
    assert (repos + more)[k].id == id;
  }

  lemma InsertRepoKeeps(t: Tables, url: string)
    requires Consistent(t)
    ensures
      var t' := InsertRepo(t, url);
      && Consistent(t') && HasUrl(t', url) && t'.runs == t.runs
      && t.repos <= t'.repos
  {
    var t' := InsertRepo(t, url);
    if !HasUrl(t, url) {
      assert t'.repos[|t.repos|].url == url;
      forall i | 0 <= i < |t.runs|
        ensures RepoExists(t'.repos, t.runs[i].repoId)
      {
        RepoExistsStill(t.repos, [RepoRow(NextRepoId(t), url)], t.runs[i].repoId);
      }
    }
  }

  lemma FindAfterInsert(t: Tables, url: string)
    requires Consistent(t) && HasUrl(t, url)
    ensures RepoExists(t.repos, FindRepo(t, url))
    ensures forall i :: 0 <= i < |t.repos| && t.repos[i].id == FindRepo(t, url) ==> t.repos[i].url == url
  {
    var k :| 0 <= k < |t.repos| && t.repos[k].url == url;
    FindRepoFinds(t.repos, k);
  }

  lemma InsertRunKeeps(t: Tables, repoId: int, rev: string)
    requires Consistent(t) && RepoExists(t.repos, repoId)
    ensures Consistent(InsertRun(t, repoId, rev))
    ensures forall i :: 0 <= i < |t.runs| ==> t.runs[i].id < NextRunId(t)
  {
    hide RepoExists, ReposKeyed;
  }

  lemma FinishRunKeeps(t: Tables, id: int, output: ProcessOutput)
    requires Consistent(t)
    ensures Consistent(FinishRun(t, id, output))
  {
    hide RepoExists, ReposKeyed;
  }

  // ---- databases that grew from an empty one ----

  /** An id above this may be read as the `int` id of another row. */
  const WRAP := 0x1_0000_0000

  /** Rows are never deleted, so the keys SQLite chooses number them from 1. */
  ghost predicate ReposNumbered(repos: seq<RepoRow>) {
    && (forall i :: 0 <= i < |repos| ==> repos[i].id == i + 1)
    && (forall i, j :: 0 <= i < j < |repos| ==> repos[i].url != repos[j].url)
  }

  /** Repository `id` is the one with this url. */
  predicate RepoIs(repos: seq<RepoRow>, id: int, url: string) {
    1 <= id <= |repos| && repos[id - 1].url == url
  }

  lemma NumberedIsKeyed(repos: seq<RepoRow>)
    requires ReposNumbered(repos)
    ensures ReposKeyed(repos)
  {
  }

  lemma NewRepoNumbered(t: Tables, url: string)
    requires ReposNumbered(t.repos)
    ensures ReposNumbered(InsertRepo(t, url).repos) && HasUrl(InsertRepo(t, url), url)
  {
    var t' := InsertRepo(t, url);
    if !HasUrl(t, url) {
      assert t'.repos[|t.repos|].url == url;
    }
  }

  lemma FoundRepo(t: Tables, url: string)
    requires ReposNumbered(t.repos) && HasUrl(t, url)
    ensures RepoIs(t.repos, FindRepo(t, url), url)
  {
    var k :| 0 <= k < |t.repos| && t.repos[k].url == url;
    NumberedIsKeyed(t.repos);
    FindRepoFinds(t.repos, k);
  }

  /** An id read as an `int` names a row: the row itself, unless there are more rows than ids of 32 bits. */
  lemma ReadsAsItself(id: int, rows: nat)
    requires 1 <= id <= rows <= WRAP && ToInt32(id) >= 1
    ensures ToInt32(id) == id
  {
  }

  /** The id found, as an `int`, is the id of the url's repository exactly when it fits one. */
  lemma FoundIdIsTheRepos(t: Tables, url: string)
    requires ReposNumbered(t.repos) && HasUrl(t, url)
    ensures RepoIs(t.repos, ToInt32(FindRepo(t, url)), url) <==> FindRepo(t, url) <= INT_MAX
  {
    FoundRepo(t, url);
  }

  // ---- the reloaded queue ----

  lemma {:induction false} NothingHasANumberForALabel(runs: seq<RunRow>, repos: seq<RepoRow>)
    requires ReposKeyed(repos) && References(runs, repos)
    ensures ViewWhereStatus(runs, repos, STATUS_CREATED_AS_TEXT) == []
  {
    if runs != [] {
      NothingHasANumberForALabel(runs[..|runs| - 1], repos);
      var row := runs[|runs| - 1];
      var k :| 0 <= k < |repos| && repos[k].id == row.repoId;
      JoinedOnce(row, repos, k);
      NoSuchLabel(Viewed(row, repos[k].url));
    }
  }

  lemma NoSuchLabel(row: ViewRow)
    requires row.status in {"created", "finished"}
    ensures WhereStatus([row], STATUS_CREATED_AS_TEXT) == []
  {
    assert [row][1..] == [];
    assert row.status[0] != STATUS_CREATED_AS_TEXT[0];
  }

  ghost predicate Reloaded(t: Tables, i: nat)
    requires i < |t.runs|
  {
    exists k :: 0 <= k < |GetRunQueue(t)| && GetRunQueue(t)[k].id == ToInt32(t.runs[i].id)
  }

  /** Unfinished runs are reloaded exactly when there are none. */
  lemma UnfinishedReloadedIff(t: Tables)
    requires Consistent(t)
    ensures (forall i :: 0 <= i < |t.runs| && t.runs[i].status == STATUS_CREATED ==> Reloaded(t, i))
            <==> (forall i :: 0 <= i < |t.runs| ==> t.runs[i].status == STATUS_FINISHED)
  {
    NothingHasANumberForALabel(t.runs, t.repos);
    assert GetRunQueue(t) == [];
  }

  /** One queued run, and a server that starts again without it. */
  lemma ARunIsLostAtRestart()
    ensures
      var t := InsertRun(InsertRepo(NO_TABLES, "https://example.org/repo"), 1, "main");
      && Consistent(t) && t.runs[0].status == STATUS_CREATED && GetRunQueue(t) == []
  {
    var t0 := InsertRepo(NO_TABLES, "https://example.org/repo");
    InsertRepoKeeps(NO_TABLES, "https://example.org/repo");
    assert t0.repos[0].id == 1;
    InsertRunKeeps(t0, 1, "main");
    var t := InsertRun(t0, 1, "main");
    hide InsertRepo, ReposKeyed, RunsKeyed, References;
    NothingHasANumberForALabel(t.runs, t.repos);
  }
}
