/** Every run that gets into the run queue has a row that says what was asked for. */
module SchedulerRows {
  import opened Protocol
  import opened Storage
  import opened RunCreation
  import opened ServerState
  import opened Scheduler

  /** Row `i` is this run's: its id reads as the run's id, and it refers to the repository found for its url. */
  predicate RowReads(t: Tables, run: Run, i: int, found: int) {
    && 0 <= i < |t.runs| && ToInt32(i + 1) == run.id && t.runs[i].rev == run.rev
    && RepoIs(t.repos, found, run.url) && t.runs[i].repoId == ToInt32(found)
  }

  ghost predicate HasRow(t: Tables, run: Run) {
    run.id >= 0 && exists i, found :: RowReads(t, run, i, found)
  }

  /** The row under the run's own id, with the repository of its own url. */
  predicate OwnRow(t: Tables, run: Run) {
    && 1 <= run.id <= |t.runs| && t.runs[run.id - 1].rev == run.rev
    && RepoIs(t.repos, t.runs[run.id - 1].repoId, run.url)
  }

  /** What a client thread relies on: the stage of its creation, or the row of the run it is about to queue. */
  ghost predicate ClientKnows(pc: ClientPc, t: Tables) {
    && (pc.Creating? ==> StageOk(pc.run.url, pc.stage, t))
    && (pc.Pending() && pc.job.AddRun? ==> HasRow(t, pc.job.run))
  }

  ghost predicate RowsInv(t: Tables, clients: seq<ClientPc>, appended: seq<Run>) {
    && Grown(t)
    && (forall c :: 0 <= c < |clients| ==> ClientKnows(clients[c], t))
    && (forall k :: 0 <= k < |appended| ==> HasRow(t, appended[k]))
  }

  lemma HasRowStays(t: Tables, t': Tables, run: Run)
    requires HasRow(t, run) && Extends(t, t')
    ensures HasRow(t', run)
  {
    var i, found :| RowReads(t, run, i, found);
    assert RowReads(t', run, i, found);
  }

  lemma ClientStillKnows(pc: ClientPc, t: Tables, t': Tables)
    requires ClientKnows(pc, t) && Extends(t, t')
    ensures ClientKnows(pc, t')
  {
    hide HasRow, StageOk, Extends;
    if pc.Creating? {
      StageStaysOk(pc.run.url, pc.stage, t, t');
    }
    if pc.Pending() && pc.job.AddRun? {
      HasRowStays(t, t', pc.job.run);
    }
  }

  lemma ExtensionKeeps(t: Tables, t': Tables, clients: seq<ClientPc>, appended: seq<Run>)
    requires RowsInv(t, clients, appended) && Grown(t') && Extends(t, t')
    ensures RowsInv(t', clients, appended)
  {
    hide Grown, ClientKnows, HasRow, Extends;
    forall c | 0 <= c < |clients|
      ensures ClientKnows(clients[c], t')
    {
      ClientStillKnows(clients[c], t, t');
    }
    forall k | 0 <= k < |appended|
      ensures HasRow(t', appended[k])
    {
      HasRowStays(t, t', appended[k]);
    }
  }

  lemma InsertedRunHasRow(t: Tables, t': Tables, run: Run, found: int)
    requires Grown(t) && RepoIs(t.repos, found, run.url) && InsertedBy(t, t', run.rev, found) && ToInt32(|t'.runs|) >= 0
    ensures HasRow(t', run.(id := ToInt32(|t'.runs|)))
  {
    assert RowReads(t', run.(id := ToInt32(|t'.runs|)), |t.runs|, found);
  }

  lemma CreatingKnows(t: Tables, run: Run, stage: NextStage, ok: bool)
    requires Grown(t) && StageOk(run.url, stage, t)
    ensures
      var (t', stage') := CreateStep(t, run.url, run.rev, stage, ok);
      Grown(t') && Extends(t, t') && ClientKnows(AfterStage(run, stage'), t')
  {
    hide CreateStep, Grown, ToInt32, Extends, HasRow;
    CreateStepKeeps(t, run.url, run.rev, stage, ok);
    var (t', stage') := CreateStep(t, run.url, run.rev, stage, ok);
    if stage'.Created? {
      InsertedRunHasRow(t, t', run, stage.found);
    }
  }

  /** The step of one client, as far as its own knowledge and the tables go. */
  lemma ClientKnowsNext(s: State, c: nat, message: Message, ok: bool)
    requires ClientCan(s, c) && Grown(s.tables) && ClientKnows(s.clients[c], s.tables)
    ensures
      var s', pc := ClientNext(s, c, message, ok), s.clients[c];
      && Grown(s'.tables) && Extends(s.tables, s'.tables) && ClientKnows(s'.clients[c], s'.tables)
      && s'.clients == s.clients[c := s'.clients[c]]
      && s'.past.appended == s.past.appended + (if pc.Appending? && pc.job.AddRun? then [pc.job.run] else [])
  {
    hide CreateStep, Grown, FinishRun, HasRow, StageOk, Extends;
    var pc := s.clients[c];
    SameExtends(s.tables);
    if pc.Creating? {
      CreatingKnows(s.tables, pc.run, pc.stage, ok);
    } else if pc.Reporting? {
      FinishExtends(s.tables, pc.id, pc.output);
    } else if pc.Receiving? {
      FreshStageOk(s.tables);
    }
  }

  lemma SameExtends(t: Tables)
    ensures Extends(t, t)
  {
  }

  lemma FreshStageOk(t: Tables)
    ensures forall url :: StageOk(url, InsertingRepo, t)
  {
  }

  lemma ClientKeepsRows(s: State, c: nat, message: Message, ok: bool)
    requires RowsInv(s.tables, s.clients, s.past.appended) && ClientCan(s, c)
    ensures
      var s' := ClientNext(s, c, message, ok);
      RowsInv(s'.tables, s'.clients, s'.past.appended)
  {
    hide ClientNext, Grown, HasRow, StageOk, Extends;
    ClientKnowsNext(s, c, message, ok);
    ExtensionKeeps(s.tables, ClientNext(s, c, message, ok).tables, s.clients, s.past.appended);
    var pc := s.clients[c];
    if pc.Appending? && pc.job.AddRun? {
      HasRowStays(s.tables, ClientNext(s, c, message, ok).tables, pc.job.run);
    }
  }

  lemma RowsKept(s: State, a: Action)
    requires RowsInv(s.tables, s.clients, s.past.appended) && Can(s, a)
    ensures var s' := Next(s, a); RowsInv(s'.tables, s'.clients, s'.past.appended)
  {
    hide ClientNext, Grown, HasRow, StageOk, WithoutClient, Ready, TEARDOWN;
    if a.ClientStep? {
      ClientKeepsRows(s, a.c, a.message, a.ok);
    }
  }

  lemma {:induction false} RowsAlways(s: State, actions: seq<Action>, s': State)
    requires RowsInv(s.tables, s.clients, s.past.appended) && Reaches(s, actions, s')
    ensures RowsInv(s'.tables, s'.clients, s'.past.appended)
    decreases |actions|
  {
    hide RowsInv, Next;
    if actions != [] {
      RowsKept(s, actions[0]);
      RowsAlways(Next(s, actions[0]), actions[1..], s');
    }
  }

  /** With fewer than 2^32 rows the row of a queued run is the one under its id. */
  lemma HasRowIsOwn(t: Tables, run: Run)
    requires Grown(t) && HasRow(t, run) && |t.runs| < WRAP && |t.repos| <= WRAP
    ensures OwnRow(t, run)
  {
    var i, found :| RowReads(t, run, i, found);
    hide RepoIs, ReposNumbered;
    assert run.id == i + 1;
    assert RepoExists(t.repos, t.runs[i].repoId);
    OwnRepo(t.repos, found, run.url);
  }

  lemma OwnRepo(repos: seq<RepoRow>, found: int, url: string)
    requires ReposNumbered(repos) && |repos| <= WRAP && RepoIs(repos, found, url) && RepoExists(repos, ToInt32(found))
    ensures RepoIs(repos, ToInt32(found), url)
  {
    ReadsAsItself(found, |repos|);
  }

  /**
   However the threads interleave and whatever they are sent, every run ever appended to the
   queue has a row with its revision and the repository found for its url, whose id reads as
   the run's; with fewer than 2^32 rows it is the row under that id.
   */
  lemma QueuedRunsHaveRows(init: seq<Run>, tables: Tables, actions: seq<Action>, s: State)
    requires Grown(tables) && Reaches(Initial(init, tables), actions, s)
    ensures forall k :: 0 <= k < |s.past.appended| ==> HasRow(s.tables, s.past.appended[k])
    ensures |s.tables.runs| < WRAP && |s.tables.repos| <= WRAP ==>
      forall k :: 0 <= k < |s.past.appended| ==> OwnRow(s.tables, s.past.appended[k])
  {
    RowsAlways(Initial(init, tables), actions, s);
    hide Reaches, Grown, HasRow, OwnRow, ClientKnows;
    if |s.tables.runs| < WRAP && |s.tables.repos| <= WRAP {
      forall k | 0 <= k < |s.past.appended|
        ensures OwnRow(s.tables, s.past.appended[k])
      {
        HasRowIsOwn(s.tables, s.past.appended[k]);
      }
    }
  }

  // ---- rows stay ----

  lemma TablesExtend(s: State, a: Action)
    requires Can(s, a)
    ensures Extends(s.tables, Next(s, a).tables)
  {
    hide CreateStep, FinishRun, WithoutClient, Ready, Extends;
    SameExtends(s.tables);
    if a.ClientStep? && s.clients[a.c].Creating? {
      CreateStepExtends(s.tables, s.clients[a.c].run.url, s.clients[a.c].run.rev, s.clients[a.c].stage, a.ok);
    } else if a.ClientStep? && s.clients[a.c].Reporting? {
      FinishExtends(s.tables, s.clients[a.c].id, s.clients[a.c].output);
    }
  }

  lemma {:induction false} TablesAlwaysExtend(s: State, actions: seq<Action>, s': State)
    requires Reaches(s, actions, s')
    ensures Extends(s.tables, s'.tables)
    decreases |actions|
  {
    hide Next, Extends;
    if actions == [] {
      SameExtends(s.tables);
    } else {
      TablesExtend(s, actions[0]);
      TablesAlwaysExtend(Next(s, actions[0]), actions[1..], s');
      ExtendsTransitive(s.tables, Next(s, actions[0]).tables, s'.tables);
    }
  }

  /** A finished run stays finished, whoever reports what. */
  lemma FinishedIsForGood(s: State, actions: seq<Action>, s': State, i: nat)
    requires Reaches(s, actions, s') && i < |s.tables.runs| && s.tables.runs[i].status == STATUS_FINISHED
    ensures i < |s'.tables.runs| && s'.tables.runs[i].id == s.tables.runs[i].id
    ensures s'.tables.runs[i].status == STATUS_FINISHED
  {
    TablesAlwaysExtend(s, actions, s');
  }
}
