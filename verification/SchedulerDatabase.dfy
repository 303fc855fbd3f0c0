/** What the rows of the database say about the queues. */
module SchedulerDatabase {
  import opened Results
  import opened Sequences
  import opened Protocol
  import opened Storage
  import opened RunCreation
  import opened ServerState
  import opened Scheduler
  import opened SchedulerSafety
  import opened SchedulerQueues
  import opened SchedulerRows

  function Ids(runs: seq<Run>): (ids: seq<int>)
    ensures |ids| == |runs| && forall i :: 0 <= i < |runs| ==> ids[i] == runs[i].id
  {
    seq(|runs|, i requires 0 <= i < |runs| => runs[i].id)
  }

  lemma IdsAppend(a: seq<Run>, b: seq<Run>)
    ensures Ids(a + b) == Ids(a) + Ids(b)
  {
  }

  // ---- ids are handed out once ----

  /** The id of the row a client thread has inserted and has yet to queue, if any. */
  function PendingRun(pc: ClientPc): int {
    if pc.Pending() && pc.job.AddRun? then pc.job.run.id else NONE
  }

  function PendingRuns(clients: seq<ClientPc>): (held: seq<int>)
    ensures |held| == |clients| && forall c :: 0 <= c < |clients| ==> held[c] == PendingRun(clients[c])
  {
    seq(|clients|, c requires 0 <= c < |clients| => PendingRun(clients[c]))
  }

  lemma PendingRunsUpdated(clients: seq<ClientPc>, c: nat, pc: ClientPc)
    requires c < |clients|
    ensures PendingRuns(clients[c := pc]) == PendingRuns(clients)[c := PendingRun(pc)]
    ensures PendingRun(pc) == PendingRun(clients[c]) ==> PendingRuns(clients[c := pc]) == PendingRuns(clients)
  {
  }

  lemma NewClientHasNoRun(clients: seq<ClientPc>)
    ensures PendingRuns(clients + [Receiving]) == PendingRuns(clients) + [NONE]
  {
  }

  /** The ids that reached a client thread: those of the rows, as far as they fit an `int`. */
  function IdsIssued(rows: nat): int {
    (if rows <= INT_MAX then rows else INT_MAX) + 1
  }

  ghost predicate IdsInv(s: State) {
    Tickets(PendingRuns(s.clients), Ids(s.past.appended), 1, IdsIssued(|s.tables.runs|))
  }

  /** A client's step as far as it concerns ids. */
  lemma ClientIds(s: State, c: nat, message: Message, ok: bool)
    requires ClientCan(s, c) && RowsInv(s.tables, s.clients, s.past.appended)
    ensures
      var s', pc := ClientNext(s, c, message, ok), s.clients[c];
      var inserts := pc.Creating? && Inserts(s.tables, pc.stage, ok);
      && s'.clients == s.clients[c := s'.clients[c]]
      && |s'.tables.runs| == |s.tables.runs| + (if inserts then 1 else 0)
      && (if inserts then
            PendingRun(pc) == NONE
            && PendingRun(s'.clients[c]) == (if ToInt32(|s'.tables.runs|) >= 0 then ToInt32(|s'.tables.runs|) else NONE)
            && s'.past.appended == s.past.appended
          else if pc.Appending? && pc.job.AddRun? then
            PendingRun(s'.clients[c]) == NONE && s'.past.appended == s.past.appended + [pc.job.run]
          else PendingRun(s'.clients[c]) == PendingRun(pc) && s'.past.appended == s.past.appended)
  {
    hide CreateStep, Grown, HasRow, ToInt32, StageOk, Extends;
    var pc := s.clients[c];
    assert ClientKnows(pc, s.tables);
    if pc.Creating? {
      CreateStepKeeps(s.tables, pc.run.url, pc.run.rev, pc.stage, ok);
    }
  }

  lemma ClientKeepsIds(s: State, c: nat, message: Message, ok: bool)
    requires IdsInv(s) && RowsInv(s.tables, s.clients, s.past.appended) && ClientCan(s, c)
    requires |ClientNext(s, c, message, ok).tables.runs| < WRAP
    ensures IdsInv(ClientNext(s, c, message, ok))
  {
    ClientIds(s, c, message, ok);
    AppendedHaveIds(s, c);
    hide ClientNext, Tickets, Ids, PendingRuns, RowsInv;
    var s', pc := ClientNext(s, c, message, ok), s.clients[c];
    var held, entered, hi := PendingRuns(s.clients), Ids(s.past.appended), IdsIssued(|s.tables.runs|);
    PendingRunsUpdated(s.clients, c, s'.clients[c]);
    if pc.Creating? && Inserts(s.tables, pc.stage, ok) {
      if |s'.tables.runs| <= INT_MAX {
        TicketIssued(held, entered, 1, hi, c);
      }
    } else if pc.Appending? && pc.job.AddRun? {
      TicketEntered(held, entered, 1, hi, c, NONE);
      IdsAppend(s.past.appended, [pc.job.run]);
      assert Ids([pc.job.run]) == [pc.job.run.id as int];
    }
  }

  /** A run about to be queued has a positive id. */
  lemma AppendedHaveIds(s: State, c: nat)
    requires RowsInv(s.tables, s.clients, s.past.appended) && c < |s.clients| && |s.tables.runs| < WRAP
    ensures s.clients[c].Pending() && s.clients[c].job.AddRun? ==> s.clients[c].job.run.id >= 1
  {
    if s.clients[c].Pending() && s.clients[c].job.AddRun? {
      var run := s.clients[c].job.run;
      assert ClientKnows(s.clients[c], s.tables);
      var i, found :| RowReads(s.tables, run, i, found);
    }
  }

  lemma IdsKept(s: State, a: Action)
    requires IdsInv(s) && RowsInv(s.tables, s.clients, s.past.appended) && Can(s, a) && |Next(s, a).tables.runs| < WRAP
    ensures IdsInv(Next(s, a))
  {
    hide ClientNext, Tickets, Ids, PendingRuns, RowsInv, WithoutClient, Ready, TEARDOWN;
    if a.ClientStep? {
      ClientKeepsIds(s, a.c, a.message, a.ok);
    } else if a.ListenStep? {
      NewHolder(PendingRuns(s.clients), Ids(s.past.appended), 1, IdsIssued(|s.tables.runs|), NONE);
      NewClientHasNoRun(s.clients);
    }
  }

  lemma {:induction false} IdsAlways(s: State, actions: seq<Action>, s': State)
    requires IdsInv(s) && RowsInv(s.tables, s.clients, s.past.appended) && Reaches(s, actions, s')
      && |s'.tables.runs| < WRAP
    ensures IdsInv(s')
    decreases |actions|
  {
    hide IdsInv, RowsInv, Next;
    if actions != [] {
      TablesAlwaysExtend(Next(s, actions[0]), actions[1..], s');
      IdsKept(s, actions[0]);
      RowsKept(s, actions[0]);
      IdsAlways(Next(s, actions[0]), actions[1..], s');
    }
  }

  lemma InitialDatabase()
    ensures IdsInv(Initial([], NO_TABLES)) && RowsInv(NO_TABLES, [], []) && Grown(NO_TABLES)
  {
  }

  /** With fewer than 2^32 rows no two runs ever queued have the same id, whoever reports what. */
  lemma QueuedIdsAreDistinct(actions: seq<Action>, s: State)
    requires Reaches(Initial([], NO_TABLES), actions, s) && |s.tables.runs| < WRAP
    ensures Distinct(Ids(s.past.appended))
  {
    hide Reaches, Ids, RowsInv, PendingRuns;
    InitialDatabase();
    IdsAlways(Initial([], NO_TABLES), actions, s);
  }

  // ---- the agreement ----

  predicate IsCreated(s: State, id: int) {
    1 <= id <= |s.tables.runs| && s.tables.runs[id - 1].status == STATUS_CREATED
  }

  predicate IsFinished(s: State, id: int) {
    1 <= id <= |s.tables.runs| && s.tables.runs[id - 1].status == STATUS_FINISHED
  }

  /** How many places of the program a run id is in. */
  function Places(s: State, id: int): nat {
    multiset(Ids(s.shared.runs))[id]                 // queued
    + multiset(Ids(RunInHand(s.main)))[id]           // being sent
    + multiset(PendingRuns(s.clients))[id]           // inserted, not yet queued
    + (if IsFinished(s, id) then 0 else multiset(Ids(s.past.dispatched))[id])  // dispatched, not reported
    + multiset(Ids(s.past.discarded))[id]            // freed at shutdown
  }

  /** The created rows are the disjoint union of those places. */
  ghost predicate Agrees(s: State) {
    forall id :: id >= 1 ==> Places(s, id) == if IsCreated(s, id) then 1 else 0
  }

  /** No row was finished before its run was sent to a worker. */
  ghost predicate FinishedWereDispatched(s: State) {
    forall id :: IsFinished(s, id) ==> id in Ids(s.past.dispatched)
  }

  /** Rows have one of two statuses, and ids beyond `int` belong to rows nobody can report. */
  ghost predicate StatusInv(runs: seq<RunRow>) {
    forall i :: 0 <= i < |runs| ==>
      && runs[i].id == i + 1 && runs[i].status in {STATUS_CREATED, STATUS_FINISHED}
      && (i + 1 > INT_MAX ==> runs[i].status == STATUS_CREATED)
  }

  lemma StatusKept(s: State, a: Action)
    requires StatusInv(s.tables.runs) && Can(s, a)
    ensures StatusInv(Next(s, a).tables.runs)
  {
    hide FindRepo, WithoutClient, Ready, RepoExists, HasUrl, NextRepoId, ToInt32;
  }

  lemma {:induction false} StatusAlways(s: State, actions: seq<Action>, s': State)
    requires StatusInv(s.tables.runs) && Reaches(s, actions, s')
    ensures StatusInv(s'.tables.runs)
    decreases |actions|
  {
    hide StatusInv, Next;
    if actions != [] {
      StatusKept(s, actions[0]);
      StatusAlways(Next(s, actions[0]), actions[1..], s');
    }
  }

  lemma LargeIdsAreNowhere(s: State)
    requires StatusInv(s.tables.runs) && |s.tables.runs| > INT_MAX
    ensures IsCreated(s, INT_MAX + 1) && Places(s, INT_MAX + 1) == 0
  {
    var id := INT_MAX + 1;
    assert s.tables.runs[id - 1].status == STATUS_CREATED;
    assert id !in Ids(s.shared.runs) && id !in Ids(RunInHand(s.main)) && id !in PendingRuns(s.clients);
    assert id !in Ids(s.past.dispatched) && id !in Ids(s.past.discarded);
  }

  lemma AppendedCount(s: State, id: int)
    requires RunsInv(s, [])
    ensures multiset(Ids(s.past.appended))[id] ==
      multiset(Ids(s.past.dispatched))[id] + multiset(Ids(RunInHand(s.main)))[id]
      + multiset(Ids(s.past.discarded))[id] + multiset(Ids(s.shared.runs))[id]
  {
    var p, hand := s.past, RunInHand(s.main);
    assert [] + p.appended == p.appended;
    IdsAppend(p.dispatched + hand + p.discarded, s.shared.runs);
    IdsAppend(p.dispatched + hand, p.discarded);
    IdsAppend(p.dispatched, hand);
  }

  /** An id is in the right places unless its row was finished before it was dispatched. */
  lemma PlacesMatchIff(s: State, id: int)
    requires IdsInv(s) && RunsInv(s, []) && StatusInv(s.tables.runs) && |s.tables.runs| <= INT_MAX && id >= 1
    ensures Places(s, id) == (if IsCreated(s, id) then 1 else 0)
      <==> (IsFinished(s, id) ==> id in Ids(s.past.dispatched))
  {
    AppendedCount(s, id);
    TicketsCount(PendingRuns(s.clients), Ids(s.past.appended), 1, |s.tables.runs| + 1, id);
    hide Tickets, PendingRuns, Line, RunInHand, Ids;
    var dispatched := Ids(s.past.dispatched);
    assert id in dispatched <==> multiset(dispatched)[id] > 0;
    assert 1 <= id <= |s.tables.runs| ==> IsCreated(s, id) || IsFinished(s, id);
  }

  lemma AgreesParts(s: State)
    requires IdsInv(s) && RunsInv(s, []) && StatusInv(s.tables.runs) && |s.tables.runs| <= INT_MAX
    ensures Agrees(s) <==> FinishedWereDispatched(s)
  {
    hide IdsInv, RunsInv, StatusInv, Places, IsCreated, IsFinished, Ids;
    forall id | id >= 1
      ensures Places(s, id) == (if IsCreated(s, id) then 1 else 0)
        <==> (IsFinished(s, id) ==> id in Ids(s.past.dispatched))
    {
      PlacesMatchIff(s, id);
    }
    FinishedIsPositive(s);
  }

  lemma FinishedIsPositive(s: State)
    ensures forall id :: IsFinished(s, id) ==> id >= 1
  {
  }

  /** What holds of every state reached from an empty database with at most INT_MAX rows. */
  lemma Reached(actions: seq<Action>, s: State)
    requires Reaches(Initial([], NO_TABLES), actions, s)
    ensures StatusInv(s.tables.runs) && RunsInv(s, []) && SafetyInv(s) && RowsInv(s.tables, s.clients, s.past.appended)
    ensures |s.tables.runs| <= INT_MAX ==> IdsInv(s)
  {
    hide Reaches, IdsInv, WorkersInv, EmptiedInv, Line, MutexInv, WakeupInv, ThreadsInv;
    InitialDatabase();
    InitialQueues([], NO_TABLES);
    QueuesAlways(Initial([], NO_TABLES), [], actions, s);
    StatusAlways(Initial([], NO_TABLES), actions, s);
    RowsAlways(Initial([], NO_TABLES), actions, s);
    if |s.tables.runs| <= INT_MAX {
      IdsAlways(Initial([], NO_TABLES), actions, s);
    }
  }

  /**
   From an empty database, in every reachable state and whatever finished-run messages clients
   send: the created rows are the disjoint union of the runs queued, in hand, inserted but not
   yet queued, dispatched but not yet reported, and freed at shutdown, exactly while ids fit an
   `int` and no row was finished before its run was dispatched.
   */
  lemma DatabaseAgreesIff(actions: seq<Action>, s: State)
    requires Reaches(Initial([], NO_TABLES), actions, s)
    ensures Agrees(s) <==> |s.tables.runs| <= INT_MAX && FinishedWereDispatched(s)
  {
    Reached(actions, s);
    hide Reaches, IdsInv, RunsInv, StatusInv, SafetyInv, RowsInv, Places, IsCreated, FinishedWereDispatched;
    if |s.tables.runs| > INT_MAX {
      LargeIdsAreNowhere(s);
    } else {
      AgreesParts(s);
    }
  }

  // ---- reports ----

  /**
   Storing a finished-run message keeps the agreement exactly when it names a run that was
   dispatched, or no row at all.
   */
  lemma ReportAgreesIff(actions: seq<Action>, s: State, c: nat, message: Message)
    requires Reaches(Initial([], NO_TABLES), actions, s) && Agrees(s) && c < |s.clients| && s.clients[c].Reporting?
    ensures
      var id := s.clients[c].id;
      Agrees(ClientNext(s, c, message, true)) <==> id in Ids(s.past.dispatched) || id < 1 || id > |s.tables.runs|
  {
    hide Reaches, Agrees;
    DatabaseAgreesIff(actions, s);
    var a := ClientStep(c, message, true);
    ReachesOneMore(Initial([], NO_TABLES), actions, s, a);
    DatabaseAgreesIff(actions + [a], Next(s, a));
    Reached(actions, s);
    ReportFinishes(s, s.clients[c].id, s.clients[c].output);
  }

  lemma ReportFinishes(s: State, id: int, output: ProcessOutput)
    requires StatusInv(s.tables.runs)
    ensures forall x :: IsFinished(s.(tables := FinishRun(s.tables, id, output)), x) <==>
      IsFinished(s, x) || (x == id && 1 <= id <= |s.tables.runs|)
  {
  }

  /** A finished-run message names a run that was dispatched. */
  predicate Honest(s: State, a: Action) {
    a.ClientStep? && a.message.FinishedRun? && a.c < |s.clients| && s.clients[a.c].Receiving? ==>
      a.message.id in Ids(s.past.dispatched)
  }

  ghost predicate HonestRun(s: State, actions: seq<Action>)
    decreases |actions|
  {
    actions != [] ==> Can(s, actions[0]) && Honest(s, actions[0]) && HonestRun(Next(s, actions[0]), actions[1..])
  }

  ghost predicate ReportsInv(s: State) {
    && FinishedWereDispatched(s)
    && (forall c :: 0 <= c < |s.clients| && s.clients[c].Reporting? ==> s.clients[c].id in Ids(s.past.dispatched))
  }

  /** Creating a run changes no row, and finishes none. */
  lemma CreationFinishesNothing(t: Tables, url: string, rev: string, stage: NextStage, ok: bool)
    ensures
      var t' := CreateStep(t, url, rev, stage, ok).0;
      && t.runs <= t'.runs
      && forall i :: |t.runs| <= i < |t'.runs| ==> t'.runs[i].status == STATUS_CREATED
  {
    hide FindRepo, RepoExists, HasUrl, NextRepoId, NextRunId, ToInt32;
  }

  /** Only a report finishes a row. */
  lemma FinishedFrame(s: State, a: Action)
    requires Can(s, a) && StatusInv(s.tables.runs)
    ensures
      var s' := Next(s, a);
      if a.ClientStep? && s.clients[a.c].Reporting? then
        forall id :: IsFinished(s', id) ==> IsFinished(s, id) || id == s.clients[a.c].id
      else forall id :: IsFinished(s', id) ==> IsFinished(s, id)
  {
    hide CreateStep, FinishRun, WithoutClient, Ready, TEARDOWN, StatusInv;
    if a.ClientStep? {
      var pc := s.clients[a.c];
      if pc.Reporting? {
        ReportFinishes(s, pc.id, pc.output);
      } else if pc.Creating? {
        CreationFinishesNothing(s.tables, pc.run.url, pc.run.rev, pc.stage, a.ok);
      }
    }
  }

  /** A client thread reports what it received. */
  lemma ClientReports(s: State, c: nat, message: Message, ok: bool)
    requires ClientCan(s, c)
    ensures
      var s' := ClientNext(s, c, message, ok);
      && s'.past.dispatched == s.past.dispatched && s'.clients == s.clients[c := s'.clients[c]]
      && (s'.clients[c].Reporting? ==>
            s.clients[c].Receiving? && message.FinishedRun? && message.id == s'.clients[c].id)
  {
    hide CreateStep, FinishRun, WithRun, WithWorker;
  }

  /** Dispatched runs stay dispatched, and honest reports name them. */
  lemma ReportingKept(s: State, a: Action)
    requires ReportsInv(s) && Can(s, a) && Honest(s, a)
    ensures s.past.dispatched <= Next(s, a).past.dispatched
    ensures forall c :: 0 <= c < |Next(s, a).clients| && Next(s, a).clients[c].Reporting? ==>
      Next(s, a).clients[c].id in Ids(s.past.dispatched)
  {
    hide ClientNext, WithoutClient, Ready, TEARDOWN, FinishedWereDispatched, Ids;
    if a.ClientStep? {
      ClientReports(s, a.c, a.message, a.ok);
    }
  }

  lemma ReportsKept(s: State, a: Action)
    requires ReportsInv(s) && StatusInv(s.tables.runs) && Can(s, a) && Honest(s, a)
    ensures ReportsInv(Next(s, a))
  {
    FinishedFrame(s, a);
    ReportingKept(s, a);
    hide Next, StatusInv, IsFinished;
    assert forall id :: id in Ids(s.past.dispatched) ==> id in Ids(Next(s, a).past.dispatched) by {
      IdsAppend(s.past.dispatched, Next(s, a).past.dispatched[|s.past.dispatched|..]);
      assert s.past.dispatched + Next(s, a).past.dispatched[|s.past.dispatched|..] == Next(s, a).past.dispatched;
    }
    hide Ids;
  }

  lemma {:induction false} ReportsAlways(s: State, actions: seq<Action>, s': State)
    requires ReportsInv(s) && StatusInv(s.tables.runs) && Reaches(s, actions, s') && HonestRun(s, actions)
    ensures ReportsInv(s')
    decreases |actions|
  {
    hide ReportsInv, StatusInv, Next, Honest;
    if actions != [] {
      ReportsKept(s, actions[0]);
      StatusKept(s, actions[0]);
      ReportsAlways(Next(s, actions[0]), actions[1..], s');
    }
  }

  /** With finished-run messages for dispatched runs only, database and queues agree exactly while ids fit an `int`. */
  lemma DatabaseAgreesWithQueues(actions: seq<Action>, s: State)
    requires Reaches(Initial([], NO_TABLES), actions, s) && HonestRun(Initial([], NO_TABLES), actions)
    ensures Agrees(s) <==> |s.tables.runs| <= INT_MAX
  {
    hide Reaches, HonestRun, Agrees;
    DatabaseAgreesIff(actions, s);
    ReportsAlways(Initial([], NO_TABLES), actions, s);
  }

  // ---- a message that names a run too early ----

  /** The first run of a database, statement by statement. */
  lemma FirstRun(url: string, rev: string)
    ensures
      var t1 := Tables([RepoRow(1, url)], []);
      var t2 := Tables([RepoRow(1, url)], [RunRow(1, STATUS_CREATED, -1, [], 1, rev)]);
      && CreateStep(NO_TABLES, url, rev, InsertingRepo, true) == (t1, FindingRepo)
      && CreateStep(t1, url, rev, FindingRepo, true) == (t1, InsertingRun(1))
      && CreateStep(t1, url, rev, InsertingRun(1), true) == (t2, Created(1))
  {
    var t1 := Tables([RepoRow(1, url)], []);
    assert NO_TABLES.repos + [RepoRow(1, url)] == t1.repos && !HasUrl(NO_TABLES, url);
    assert t1.repos[0].id == 1 && RepoExists(t1.repos, 1);
    assert t1.runs + [RunRow(1, STATUS_CREATED, -1, [], 1, rev)] == [RunRow(1, STATUS_CREATED, -1, [], 1, rev)];
  }

  /** A run is inserted, and its client thread is about to queue it. */
  lemma RunInserted(url: string, rev: string) returns (actions: seq<Action>, s: State)
    ensures Reaches(Initial([], NO_TABLES), actions, s)
    ensures s == Initial([], NO_TABLES).(
      tables := Tables([RepoRow(1, url)], [RunRow(1, STATUS_CREATED, -1, [], 1, rev)]),
      clients := [Locking(AddRun(Run(1, url, rev, STATUS_CREATED, -1)))], clientQueue := [0])
  {
    FirstRun(url, rev);
    hide Reaches, CreateStep, TEARDOWN;
    var start := Initial([], NO_TABLES);
    actions, s := [], start;
    NoSteps(start);
    actions, s := Then(start, actions, s, ListenStep(Accept));
    actions, s := Then(start, actions, s, ClientStep(0, QueueRun(url, rev), true));
    actions, s := Then(start, actions, s, ClientStep(0, NoMessage, true));
    actions, s := Then(start, actions, s, ClientStep(0, NoMessage, true));
    actions, s := Then(start, actions, s, ClientStep(0, NoMessage, true));
  }

  /** A finished-run for a run that is still in the queue is stored, and the run is dispatched all the same. */
  lemma EarlyReportDisagrees(url: string, rev: string, output: ProcessOutput) returns (actions: seq<Action>, s: State)
    ensures Reaches(Initial([], NO_TABLES), actions, s)
    ensures s.shared.runs == [Run(1, url, rev, STATUS_CREATED, -1)] && IsFinished(s, 1) && !Agrees(s)
  {
    actions, s := RunInserted(url, rev);
    hide Reaches, CreateStep, TEARDOWN, Agrees;
    var start := Initial([], NO_TABLES);
    actions, s := Then(start, actions, s, ClientStep(0, NoMessage, true));
    actions, s := Then(start, actions, s, ClientStep(0, NoMessage, true));
    actions, s := Then(start, actions, s, ListenStep(Accept));
    actions, s := Then(start, actions, s, ClientStep(1, FinishedRun(1, output, false), true));
    actions, s := Then(start, actions, s, ClientStep(1, NoMessage, true));
    hide Next, Can;
    assert IsFinished(s, 1) && 1 !in Ids(s.past.dispatched);
    DatabaseAgreesIff(actions, s);
  }
}
