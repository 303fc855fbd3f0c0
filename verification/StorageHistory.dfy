/**
 The history of a database, from an empty one on: every interleaving of the locked
 statements of concurrent `storage_run_create` and `storage_run_finished` calls.
 */
module StorageHistory {
  import opened Bytes
  import opened Results
  import opened Protocol
  import opened Storage
  import opened RunCreation

  datatype Create = Create(url: string, rev: string, stage: Stage)

  /** What has happened to the runs, oldest first. */
  datatype Entry =
    | Inserted(id: int, url: string, rev: string, found: int)  // under the repository id found for the url
    | Reported(id: int, output: ProcessOutput)

  datatype History = History(tables: Tables, creates: seq<Create>, log: seq<Entry>)

  const EMPTY_HISTORY := History(NO_TABLES, [], [])

  /** `ok` is false when SQLite refuses to execute the statement. */
  datatype Event =
    | Begin(url: string, rev: string)
    | Advance(k: nat, ok: bool)
    | Finish(id: int32, output: ProcessOutput, ok: bool)

  predicate Possible(h: History, e: Event) {
    e.Advance? ==> e.k < |h.creates| && !h.creates[e.k].stage.Ended()
  }

  /** One statement of call `k`. */
  function Statement(h: History, k: nat, ok: bool): History
    requires Possible(h, Advance(k, ok))
  {
    var c := h.creates[k];
    var (tables, stage) := CreateStep(h.tables, c.url, c.rev, c.stage, ok);
    History(tables, h.creates[k := c.(stage := stage)],
            if Inserts(h.tables, c.stage, ok) then h.log + [Inserted(NextRunId(h.tables), c.url, c.rev, c.stage.found)]
            else h.log)
  }

  function Next(h: History, e: Event): History
    requires Possible(h, e)
  {
    match e
    case Begin(url, rev) => h.(creates := h.creates + [Create(url, rev, InsertingRepo)])
    case Advance(k, ok) => Statement(h, k, ok)
    case Finish(id, output, ok) =>
      if ok then h.(tables := FinishRun(h.tables, id, output), log := h.log + [Reported(id, output)]) else h
  }

  ghost predicate Reaches(h: History, events: seq<Event>, h': History)
    decreases |events|
  {
    if events == [] then h' == h
    else Possible(h, events[0]) && Reaches(Next(h, events[0]), events[1..], h')
  }

  // ---- what the log says ----

  /** The runs ever inserted, in order. */
  function Insertions(log: seq<Entry>): seq<Entry> {
    if log == [] then []
    else
      var last := log[|log| - 1];
      Insertions(log[..|log| - 1]) + if last.Inserted? then [last] else []
  }

  /** The last report of a run since it was inserted, if any. */
  function LastReport(log: seq<Entry>, id: int): Option<ProcessOutput> {
    if log == [] then None
    else
      var last := log[|log| - 1];
      if last.id != id then LastReport(log[..|log| - 1], id)
      else if last.Inserted? then None
      else Some(last.output)
  }

  function ExitCode(report: Option<ProcessOutput>): int32 {
    if report.Some? then report.value.ec else -1
  }

  // ---- the invariant ----

  /** Row `i` holds the i-th run inserted, as it was last reported. */
  predicate RowTells(row: RunRow, i: nat, entry: Entry, report: Option<ProcessOutput>, repos: seq<RepoRow>) {
    && row.id == i + 1 && row.exitCode == ExitCode(report)
    && row.status == (if report.Some? then STATUS_FINISHED else STATUS_CREATED)
    && row.output == (if report.Some? then report.value.data else [])
    && entry.Inserted? && entry.id == i + 1 && entry.rev == row.rev
    && RepoIs(repos, entry.found, entry.url) && row.repoId == ToInt32(entry.found)
  }

  ghost predicate RowsTell(runs: seq<RunRow>, log: seq<Entry>, repos: seq<RepoRow>) {
    && |Insertions(log)| == |runs|
    && forall i :: 0 <= i < |runs| ==> RowTells(runs[i], i, Insertions(log)[i], LastReport(log, i + 1), repos)
  }

  ghost predicate StagesOk(creates: seq<Create>, t: Tables) {
    forall k :: 0 <= k < |creates| ==> StageOk(creates[k].url, creates[k].stage, t)
  }

  ghost predicate Inv(h: History) {
    Grown(h.tables) && RowsTell(h.tables.runs, h.log, h.tables.repos) && StagesOk(h.creates, h.tables)
  }

  lemma NothingInserted()
    ensures Inv(EMPTY_HISTORY)
  {
  }

  lemma LogSnoc(log: seq<Entry>, e: Entry)
    ensures Insertions(log + [e]) == Insertions(log) + if e.Inserted? then [e] else []
    ensures forall id ::
      LastReport(log + [e], id) ==
      (if e.id != id then LastReport(log, id) else if e.Inserted? then None else Some(e.output))
  {
    assert (log + [e])[..|log|] == log;
  }

  lemma StagesStayOk(creates: seq<Create>, t: Tables, t': Tables)
    requires StagesOk(creates, t) && Extends(t, t')
    ensures StagesOk(creates, t')
  {
    hide StageOk, Extends;
    forall k | 0 <= k < |creates|
      ensures StageOk(creates[k].url, creates[k].stage, t')
    {
      StageStaysOk(creates[k].url, creates[k].stage, t, t');
    }
  }

  /** More repositories do not change what the rows tell. */
  lemma MoreReposKeep(runs: seq<RunRow>, log: seq<Entry>, repos: seq<RepoRow>, repos': seq<RepoRow>)
    requires RowsTell(runs, log, repos) && repos <= repos'
    ensures RowsTell(runs, log, repos')
  {
    hide Insertions, LastReport;
  }

  lemma NewRunKeeps(t: Tables, t': Tables, log: seq<Entry>, url: string, rev: string, found: int)
    requires RowsTell(t.runs, log, t.repos) && RepoIs(t.repos, found, url) && InsertedBy(t, t', rev, found)
    ensures RowsTell(t'.runs, log + [Inserted(|t.runs| + 1, url, rev, found)], t'.repos)
  {
    LogSnoc(log, Inserted(|t.runs| + 1, url, rev, found));
    hide Insertions, ToInt32;
    NotReportedYet(log, |t.runs| + 1, url, rev, found);
    hide LastReport;
  }

  lemma NotReportedYet(log: seq<Entry>, id: int, url: string, rev: string, found: int)
    ensures LastReport(log + [Inserted(id, url, rev, found)], id) == None
  {
  }

  lemma ReportKeeps(runs: seq<RunRow>, log: seq<Entry>, repos: seq<RepoRow>, id: int32, output: ProcessOutput)
    requires RowsTell(runs, log, repos)
    ensures RowsTell(FinishRun(Tables(repos, runs), id, output).runs, log + [Reported(id, output)], repos)
  {
    LogSnoc(log, Reported(id, output));
    hide Insertions, LastReport, ToInt32;
  }

  lemma StatementKeeps(h: History, k: nat, ok: bool)
    requires Inv(h) && Possible(h, Advance(k, ok))
    ensures Inv(Statement(h, k, ok))
  {
    hide RowsTell, Grown, CreateStep, StageOk, Extends, ToInt32;
    var c, t := h.creates[k], h.tables;
    CreateStepKeeps(t, c.url, c.rev, c.stage, ok);
    var (t', stage) := CreateStep(t, c.url, c.rev, c.stage, ok);
    StagesStayOk(h.creates, t, t');
    if Inserts(t, c.stage, ok) {
      NextIsLength(t);
      StageFound(c.url, c.stage, t);
      NewRunKeeps(t, t', h.log, c.url, c.rev, c.stage.found);
    } else {
      ReposGrow(t, t');
      MoreReposKeep(t.runs, h.log, t.repos, t'.repos);
    }
  }

  lemma StageFound(url: string, stage: Stage, t: Tables)
    requires StageOk(url, stage, t) && stage.InsertingRun?
    ensures RepoIs(t.repos, stage.found, url)
  {
  }

  lemma ReposGrow(t: Tables, t': Tables)
    requires Extends(t, t')
    ensures t.repos <= t'.repos
  {
  }

  lemma NextKeeps(h: History, e: Event)
    requires Inv(h) && Possible(h, e)
    ensures Inv(Next(h, e))
  {
    hide RowsTell, Grown, Statement, Extends;
    match e
    case Begin(url, rev) =>
    case Advance(k, ok) => StatementKeeps(h, k, ok);
    case Finish(id, output, ok) =>
      if ok {
        ReportKeeps(h.tables.runs, h.log, h.tables.repos, id, output);
        FinishExtends(h.tables, id, output);
        StagesStayOk(h.creates, h.tables, Next(h, e).tables);
      }
  }

  lemma {:induction false} HistoryKept(h: History, events: seq<Event>, h': History)
    requires Inv(h) && Reaches(h, events, h')
    ensures Inv(h')
    decreases |events|
  {
    hide Inv, Next;
    if events != [] {
      NextKeeps(h, events[0]);
      HistoryKept(Next(h, events[0]), events[1..], h');
    }
  }

  // ---- what get_runs returns ----

  /** The url of the repository a row refers to. */
  function UrlOf(row: RunRow, repos: seq<RepoRow>): string {
    if 1 <= row.repoId <= |repos| then repos[row.repoId - 1].url else ""
  }

  lemma RowJoins(t: Tables, log: seq<Entry>, i: nat)
    requires RowsTell(t.runs, log, t.repos) && Grown(t) && i < |t.runs|
    ensures JoinStatuses(t.runs[i], STATUSES, t.repos) == [Viewed(t.runs[i], UrlOf(t.runs[i], t.repos))]
  {
    var row := t.runs[i];
    assert RowTells(row, i, Insertions(log)[i], LastReport(log, i + 1), t.repos);
    hide Insertions, LastReport;
    var k :| 0 <= k < |t.repos| && t.repos[k].id == row.repoId;
    NumberedIsKeyed(t.repos);
    JoinedOnce(row, t.repos, k);
  }

  lemma {:induction false} ViewTells(t: Tables, log: seq<Entry>, n: nat, k: nat)
    requires RowsTell(t.runs, log, t.repos) && Grown(t) && k <= n <= |t.runs|
    ensures |ViewDescending(t.runs[..n], t.repos)| == n
    ensures k < n ==>
      ViewDescending(t.runs[..n], t.repos)[k] == Viewed(t.runs[n - 1 - k], UrlOf(t.runs[n - 1 - k], t.repos))
  {
    hide RowsTell, Grown, JoinStatuses, Viewed, UrlOf;
    if n > 0 {
      RowJoins(t, log, n - 1);
      ViewTells(t, log, n - 1, if k > 0 then k - 1 else 0);
      assert t.runs[..n][..n - 1] == t.runs[..n - 1] && t.runs[..n][n - 1] == t.runs[n - 1];
    }
  }

  /** The status column of the view is a label, which reads as the integer 0. */
  lemma LabelsAreNotNumbers(status: int)
    ensures ToInt32(TextAsInt(Label(status), 0)) == 0
  {
  }

  /**
   A run as `get_runs` reports it, against its insertion and its last report.  Its id and its
   url are its own exactly when the ids they were read from fit an `int`.
   */
  predicate Tells(run: Run, entry: Entry, report: Option<ProcessOutput>) {
    && entry.Inserted?
    && run.rev == entry.rev && run.status == 0 && run.exitCode == ExitCode(report)
    && run.id == ToInt32(entry.id) && (run.id == entry.id <==> entry.id <= INT_MAX)
    && (run.url == entry.url <==> entry.found <= INT_MAX)
  }

  /** Run `k`, newest first, against the log of as many insertions. */
  ghost predicate RunTold(runs: seq<Run>, log: seq<Entry>, k: nat)
    requires k < |runs| == |Insertions(log)|
  {
    var id := |runs| - k;
    Insertions(log)[id - 1].id == id && Tells(runs[k], Insertions(log)[id - 1], LastReport(log, id))
  }

  /** What get_runs returns for a log: every run inserted, newest first. */
  ghost predicate RunsTell(runs: seq<Run>, log: seq<Entry>) {
    |runs| == |Insertions(log)| && forall k :: 0 <= k < |runs| ==> RunTold(runs, log, k)
  }

  /**
   After any interleaving: equal urls share one row, each row holds what was inserted and last
   reported, and `get_runs` returns every run ever inserted exactly once, newest first, with its
   own revision and the exit code last reported since; its id and its url are its own exactly
   when they were read from ids that fit an `int`, as all do up to 2^31-1 rows.
   */
  lemma RunsTellTheHistory(events: seq<Event>, h: History)
    requires Reaches(EMPTY_HISTORY, events, h)
    ensures Consistent(h.tables) && RowsTell(h.tables.runs, h.log, h.tables.repos)
    ensures forall i, j :: 0 <= i < j < |h.tables.repos| ==> h.tables.repos[i].url != h.tables.repos[j].url
    ensures RunsTell(GetRuns(h.tables), h.log)
    ensures |h.tables.repos| <= INT_MAX ==>
      forall k :: 0 <= k < |GetRuns(h.tables)| ==> GetRuns(h.tables)[k].url == UrlIn(h.log, |GetRuns(h.tables)| - 1 - k)
    ensures
      var runs := GetRuns(h.tables);
      (forall k :: 0 <= k < |runs| ==> runs[k].id == |runs| - k) <==> |runs| <= INT_MAX
  {
    hide ViewDescending, Insertions, LastReport, Reaches, RowTells, Tells;
    NothingInserted();
    HistoryKept(EMPTY_HISTORY, events, h);
    var t := h.tables;
    NumberedIsKeyed(t.repos);
    TellingIsConsistent(t, h.log);
    AllRunsTell(t, h.log);
    IdsAreTheRuns(GetRuns(t), h.log);
    if |t.repos| <= INT_MAX {
      UrlsAreTheRuns(t, h.log);
    }
  }

  /** The url of the i-th run inserted. */
  function UrlIn(log: seq<Entry>, i: int): string {
    if 0 <= i < |Insertions(log)| && Insertions(log)[i].Inserted? then Insertions(log)[i].url else ""
  }

  lemma UrlsAreTheRuns(t: Tables, log: seq<Entry>)
    requires RowsTell(t.runs, log, t.repos) && RunsTell(GetRuns(t), log) && |t.repos| <= INT_MAX
    ensures forall k :: 0 <= k < |GetRuns(t)| ==> GetRuns(t)[k].url == UrlIn(log, |GetRuns(t)| - 1 - k)
  {
    hide GetRuns, Insertions, LastReport, ToInt32;
    var runs := GetRuns(t);
    forall k | 0 <= k < |runs|
      ensures runs[k].url == UrlIn(log, |runs| - 1 - k)
    {
      assert RunTold(runs, log, k);
      RowAt(t.runs, log, t.repos, |runs| - 1 - k);
    }
  }

  lemma AllRunsTell(t: Tables, log: seq<Entry>)
    requires RowsTell(t.runs, log, t.repos) && Grown(t)
    ensures RunsTell(GetRuns(t), log)
  {
    hide ViewDescending, Insertions, LastReport, RowTells, Tells, Grown;
    var n := |t.runs|;
    assert t.runs[..n] == t.runs;
    ViewTells(t, log, n, n);
    forall k | 0 <= k < n
      ensures RunTold(GetRuns(t), log, k)
    {
      RunTells(t, log, k);
    }
  }

  lemma IdsAreTheRuns(runs: seq<Run>, log: seq<Entry>)
    requires RunsTell(runs, log)
    ensures (forall k :: 0 <= k < |runs| ==> runs[k].id == |runs| - k) <==> |runs| <= INT_MAX
  {
    hide Insertions, LastReport, ToInt32;
    forall k | 0 <= k < |runs|
      ensures runs[k].id == |runs| - k <==> |runs| - k <= INT_MAX
    {
      assert RunTold(runs, log, k);
    }
    if |runs| > INT_MAX {
      assert runs[0].id != |runs|;
    }
  }

  lemma RowAt(runs: seq<RunRow>, log: seq<Entry>, repos: seq<RepoRow>, i: nat)
    requires RowsTell(runs, log, repos) && i < |runs|
    ensures |Insertions(log)| == |runs| && RowTells(runs[i], i, Insertions(log)[i], LastReport(log, i + 1), repos)
  {
  }

  /** Two ids that read as the same `int` are the same only if both fit one; urls tell repositories apart. */
  lemma UrlReadIff(repos: seq<RepoRow>, found: int, url: string)
    requires ReposNumbered(repos) && RepoIs(repos, found, url) && RepoExists(repos, ToInt32(found))
    ensures 1 <= ToInt32(found) <= |repos|
    ensures repos[ToInt32(found) - 1].url == url <==> found <= INT_MAX
  {
    var k :| 0 <= k < |repos| && repos[k].id == ToInt32(found);
    assert k == ToInt32(found) - 1;
    if ToInt32(found) != found {
      assert repos[k].url != repos[found - 1].url;
    }
  }

  lemma RunTells(t: Tables, log: seq<Entry>, k: nat)
    requires RowsTell(t.runs, log, t.repos) && Grown(t) && k < |t.runs|
    requires |GetRuns(t)| == |t.runs|
    ensures |Insertions(log)| == |t.runs| && RunTold(GetRuns(t), log, k)
  {
    hide RowsTell, Insertions, LastReport, ViewDescending, ToInt32, ReposNumbered, RepoExists, RepoIs, TextAsInt;
    var n := |t.runs|;
    var i := n - 1 - k;
    RowAt(t.runs, log, t.repos, i);
    assert t.runs[..n] == t.runs;
    ViewTells(t, log, n, k);
    LabelsAreNotNumbers(t.runs[i].status);
    UrlReadIff(t.repos, Insertions(log)[i].found, Insertions(log)[i].url);
    ReadAsIntIff(i + 1);
  }

  /** An id read as an `int` is the id exactly when it fits one. */
  lemma ReadAsIntIff(id: int)
    requires id >= 1
    ensures ToInt32(id) == id <==> id <= INT_MAX
  {
  }

  lemma TellingIsConsistent(t: Tables, log: seq<Entry>)
    requires RowsTell(t.runs, log, t.repos) && Grown(t)
    ensures RunsKeyed(t.runs) && References(t.runs, t.repos)
  {
    hide RepoExists, ReposNumbered;
    forall i | 0 <= i < |t.runs|
      ensures t.runs[i].status in {STATUS_CREATED, STATUS_FINISHED}
    {
      assert RowTells(t.runs[i], i, Insertions(log)[i], LastReport(log, i + 1), t.repos);
    }
  }

  // ---- what the events alone say ----

  datatype Call = Call(url: string, rev: string)

  /** The calls to `storage_run_create`, in order. */
  function Calls(events: seq<Event>): seq<Call> {
    if events == [] then []
    else
      var last := events[|events| - 1];
      Calls(events[..|events| - 1]) + if last.Begin? then [Call(last.url, last.rev)] else []
  }

  /** How many statements of call `k` were executed, or -1 once one was refused. */
  function Executed(events: seq<Event>, k: nat): int {
    if events == [] then 0
    else
      var last, before := events[|events| - 1], Executed(events[..|events| - 1], k);
      if !last.Advance? || last.k != k then before else if last.ok then before + 1 else -1
  }

  datatype Deed = RunMade(url: string, rev: string) | RunReported(id: int, output: ProcessOutput)

  /** Each call's third executed statement makes its run; each executed update reports one. */
  function Done(earlier: seq<Event>, e: Event): seq<Deed> {
    if e.Advance? && e.ok && Executed(earlier, e.k) == 2 && e.k < |Calls(earlier)|
      then [RunMade(Calls(earlier)[e.k].url, Calls(earlier)[e.k].rev)]
    else if e.Finish? && e.ok then [RunReported(e.id, e.output)]
    else []
  }

  function Deeds(events: seq<Event>): seq<Deed> {
    if events == [] then []
    else Deeds(events[..|events| - 1]) + Done(events[..|events| - 1], events[|events| - 1])
  }

  function DeedOf(e: Entry): Deed {
    match e
    case Inserted(_, url, rev, _) => RunMade(url, rev)
    case Reported(id, output) => RunReported(id, output)
  }

  function DeedsOf(log: seq<Entry>): (deeds: seq<Deed>)
    ensures |deeds| == |log| && forall i :: 0 <= i < |log| ==> deeds[i] == DeedOf(log[i])
  {
    seq(|log|, i requires 0 <= i < |log| => DeedOf(log[i]))
  }

  /** Run number `id` is this call's. */
  predicate RunIs(log: seq<Entry>, id: int, call: Call) {
    && 1 <= id <= |Insertions(log)|
    && var e := Insertions(log)[id - 1];
    && e.Inserted? && e.url == call.url && e.rev == call.rev
  }

  /** Where a call is after so many executed statements. */
  predicate StageIs(stage: Stage, executed: int, call: Call, log: seq<Entry>) {
    match stage
    case InsertingRepo => executed == 0
    case FindingRepo => executed == 1
    case InsertingRun(found) => executed == 2 && found <= INT_MAX
    case Created(id) => executed == 3 && RunIs(log, id, call)
    case Failed => executed == -1
  }

  ghost predicate Accounted(events: seq<Event>, h: History) {
    && |h.creates| == |Calls(events)|
    && (forall k :: 0 <= k < |h.creates| ==>
          && Call(h.creates[k].url, h.creates[k].rev) == Calls(events)[k]
          && StageIs(h.creates[k].stage, Executed(events, k), Calls(events)[k], h.log))
    && (forall k: nat :: k >= |h.creates| ==> Executed(events, k) == 0)
    && DeedsOf(h.log) == Deeds(events)
  }

  predicate Fit(t: Tables) {
    |t.repos| <= INT_MAX && |t.runs| <= INT_MAX
  }

  lemma EventSnoc(events: seq<Event>, e: Event)
    ensures Calls(events + [e]) == Calls(events) + if e.Begin? then [Call(e.url, e.rev)] else []
    ensures forall k: nat ::
      Executed(events + [e], k) ==
      (if !e.Advance? || e.k != k then Executed(events, k) else if e.ok then Executed(events, k) + 1 else -1)
    ensures Deeds(events + [e]) == Deeds(events) + Done(events, e)
  {
    assert (events + [e])[..|events|] == events;
  }

  lemma DeedsSnoc(log: seq<Entry>, e: Entry)
    ensures DeedsOf(log + [e]) == DeedsOf(log) + [DeedOf(e)]
  {
  }

  lemma RunStays(log: seq<Entry>, e: Entry, id: int, call: Call)
    requires RunIs(log, id, call)
    ensures RunIs(log + [e], id, call)
  {
    LogSnoc(log, e);
    hide Insertions;
  }

  lemma StagesStay(events: seq<Event>, h: History, e: Entry)
    requires Accounted(events, h)
    ensures forall k :: 0 <= k < |h.creates| ==>
      StageIs(h.creates[k].stage, Executed(events, k), Calls(events)[k], h.log + [e])
  {
    hide Insertions, Calls, Executed, Deeds;
    forall k | 0 <= k < |h.creates|
      ensures StageIs(h.creates[k].stage, Executed(events, k), Calls(events)[k], h.log + [e])
    {
      if h.creates[k].stage.Created? {
        hide RunIs;
        RunStays(h.log, e, h.creates[k].stage.id, Calls(events)[k]);
      }
    }
  }

  /** What the log gains with one statement. */
  function Gained(h: History, k: nat, ok: bool): seq<Entry>
    requires k < |h.creates|
  {
    var c := h.creates[k];
    if Inserts(h.tables, c.stage, ok) then [Inserted(NextRunId(h.tables), c.url, c.rev, c.stage.found)] else []
  }

  /** One statement of call `k`, when ids fit: the stage it leads to. */
  lemma StageAccounted(h: History, k: nat, ok: bool, executed: int)
    requires Inv(h) && Possible(h, Advance(k, ok)) && Fit(Statement(h, k, ok).tables)
    requires StageIs(h.creates[k].stage, executed, Call(h.creates[k].url, h.creates[k].rev), h.log)
    ensures
      var h', c := Statement(h, k, ok), h.creates[k];
      && h'.log == h.log + Gained(h, k, ok) && (Gained(h, k, ok) != [] <==> ok && executed == 2)
      && h'.creates == h.creates[k := c.(stage := h'.creates[k].stage)]
      && StageIs(h'.creates[k].stage, if ok then executed + 1 else -1, Call(c.url, c.rev), h'.log)
  {
    hide Insertions;
    var c, t := h.creates[k], h.tables;
    CreateStepKeeps(t, c.url, c.rev, c.stage, ok);
    CreateStepExtends(t, c.url, c.rev, c.stage, ok);
    CreateStepSucceedsIff(t, c.url, c.rev, c.stage, ok);
    if c.stage.FindingRepo? {
      FewReposFit(t, c.url);
    }
    hide CreateStep, Grown, ToInt32, RowsTell, UrlFits;
    if Inserts(t, c.stage, ok) {
      NextIsLength(t);
      NewRunIs(t, h.log, Gained(h, k, ok)[0]);
    } else if c.stage.InsertingRun? {
      StageFound(c.url, c.stage, t);
      GrownRepos(t);
      FoundExistsIff(t.repos, c.stage.found, c.url);
      ReadPositiveIff(c.stage.found);
    }
  }

  lemma StatementAccounted(events: seq<Event>, h: History, k: nat, ok: bool)
    requires Inv(h) && Possible(h, Advance(k, ok)) && Accounted(events, h) && Fit(Statement(h, k, ok).tables)
    ensures Accounted(events + [Advance(k, ok)], Statement(h, k, ok))
  {
    EventSnoc(events, Advance(k, ok));
    StageAccounted(h, k, ok, Executed(events, k));
    var c := h.creates[k];
    if Gained(h, k, ok) != [] {
      var e := Inserted(NextRunId(h.tables), c.url, c.rev, c.stage.found);
      DeedsSnoc(h.log, e);
      StagesStay(events, h, e);
    }
    hide Calls, Executed, Deeds, StageIs, Statement, Inserts, NextRunId, Inv, Fit;
  }

  lemma GrownRepos(t: Tables)
    requires Grown(t)
    ensures ReposNumbered(t.repos)
  {
  }

  lemma FewReposFit(t: Tables, url: string)
    requires |t.repos| <= INT_MAX && HasUrl(t, url)
    ensures UrlFits(t, url)
  {
  }

  lemma NewRunIs(t: Tables, log: seq<Entry>, e: Entry)
    requires e.Inserted? && RowsTell(t.runs, log, t.repos)
    ensures RunIs(log + [e], |t.runs| + 1, Call(e.url, e.rev))
  {
    LogSnoc(log, e);
    hide Insertions;
  }

  lemma NextAccounted(events: seq<Event>, h: History, e: Event)
    requires Inv(h) && Possible(h, e) && Accounted(events, h) && Fit(Next(h, e).tables)
    ensures Accounted(events + [e], Next(h, e))
  {
    if e.Advance? {
      StatementAccounted(events, h, e.k, e.ok);
    } else {
      EventSnoc(events, e);
      hide Calls, Executed, Deeds, Insertions, RunIs;
      if e.Finish? && e.ok {
        DeedsSnoc(h.log, Reported(e.id, e.output));
        StagesStay(events, h, Reported(e.id, e.output));
      }
    }
  }

  lemma NextExtends(h: History, e: Event)
    requires Possible(h, e)
    ensures |h.tables.repos| <= |Next(h, e).tables.repos| && |h.tables.runs| <= |Next(h, e).tables.runs|
  {
    match e
    case Begin(_, _) =>
    case Advance(k, ok) => CreateStepExtends(h.tables, h.creates[k].url, h.creates[k].rev, h.creates[k].stage, ok);
    case Finish(_, _, _) =>
  }

  lemma {:induction false} TablesGrow(h: History, events: seq<Event>, h': History)
    requires Reaches(h, events, h')
    ensures |h.tables.repos| <= |h'.tables.repos| && |h.tables.runs| <= |h'.tables.runs|
    decreases |events|
  {
    hide Next;
    if events != [] {
      NextExtends(h, events[0]);
      TablesGrow(Next(h, events[0]), events[1..], h');
    }
  }

  lemma {:induction false} AlwaysAccounted(past: seq<Event>, h: History, events: seq<Event>, h': History)
    requires Inv(h) && Accounted(past, h) && Reaches(h, events, h') && Fit(h'.tables)
    ensures Accounted(past + events, h')
    decreases |events|
  {
    hide Inv, Next, Accounted;
    if events == [] {
      assert past + events == past;
    } else {
      var e := events[0];
      TablesGrow(Next(h, e), events[1..], h');
      NextKeeps(h, e);
      NextAccounted(past, h, e);
      AlwaysAccounted(past + [e], Next(h, e), events[1..], h');
      assert past + [e] + events[1..] == past + events;
    }
  }

  /**
   While ids fit an `int`, the history is exactly what the events call for: a call makes its run
   with its third executed statement and returns that run's number, a call with a refused
   statement fails, every executed update is a report, and nothing else happens.
   */
  lemma LogIsTheEvents(events: seq<Event>, h: History)
    requires Reaches(EMPTY_HISTORY, events, h) && Fit(h.tables)
    ensures DeedsOf(h.log) == Deeds(events) && |h.creates| == |Calls(events)|
    ensures forall k :: 0 <= k < |h.creates| ==>
      StageIs(h.creates[k].stage, Executed(events, k), Calls(events)[k], h.log)
  {
    NothingInserted();
    assert Accounted([], EMPTY_HISTORY);
    AlwaysAccounted([], EMPTY_HISTORY, events, h);
    assert [] + events == events;
  }
}
