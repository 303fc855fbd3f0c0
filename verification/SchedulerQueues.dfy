/** Nothing is lost, duplicated or reordered on the way from one end of a queue to the other. */
module SchedulerQueues {
  import opened Results
  import opened Sequences
  import opened Protocol
  import opened Storage
  import opened RunCreation
  import opened ServerState
  import opened Scheduler
  import opened SchedulerSafety

  // ---- a line of waiting things ----

  /** What was there and what came in is what went out, what is in hand, what was dropped, what waits. */
  ghost predicate Line<T>(init: seq<T>, in_: seq<T>, out: seq<T>, hand: seq<T>, dropped: seq<T>, waiting: seq<T>) {
    init + in_ == out + hand + dropped + waiting
  }

  lemma {:induction false} LineGrows<T>(init: seq<T>, in_: seq<T>, out: seq<T>, hand: seq<T>, dropped: seq<T>,
                                        waiting: seq<T>, x: T)
    requires Line(init, in_, out, hand, dropped, waiting)
    ensures Line(init, in_ + [x], out, hand, dropped, waiting + [x])
  {
    assert init + (in_ + [x]) == init + in_ + [x];
    assert out + hand + dropped + (waiting + [x]) == out + hand + dropped + waiting + [x];
  }

  lemma {:induction false} LineTakes<T>(init: seq<T>, in_: seq<T>, out: seq<T>, waiting: seq<T>)
    requires Line(init, in_, out, [], [], waiting) && waiting != []
    ensures Line(init, in_, out, [waiting[0]], [], waiting[1..])
  {
    assert out + [] + [] + waiting == out + [waiting[0]] + [] + waiting[1..];
  }

  lemma {:induction false} LineServes<T>(init: seq<T>, in_: seq<T>, out: seq<T>, x: T, waiting: seq<T>)
    requires Line(init, in_, out, [x], [], waiting)
    ensures Line(init, in_, out + [x], [], [], waiting)
  {
    assert out + [x] + [] + waiting == out + [x] + [] + [] + waiting;
  }

  lemma {:induction false} LinePutsBack<T>(init: seq<T>, in_: seq<T>, out: seq<T>, x: T, waiting: seq<T>)
    requires Line(init, in_, out, [x], [], waiting)
    ensures Line(init, in_, out, [], [], [x] + waiting)
  {
    assert out + [x] + [] + waiting == out + [] + [] + ([x] + waiting);
  }

  lemma {:induction false} LineDrops<T>(init: seq<T>, in_: seq<T>, out: seq<T>, hand: seq<T>, dropped: seq<T>,
                                        waiting: seq<T>)
    requires Line(init, in_, out, hand, dropped, waiting)
    ensures Line(init, in_, out, hand, dropped + waiting, [])
  {
    assert out + hand + (dropped + waiting) + [] == out + hand + dropped + waiting;
  }

  // ---- the runs ----

  function RunInHand(main: MainPc): seq<Run> {
    if main.Sending? then [main.run] else []
  }

  function WorkerInHand(main: MainPc): seq<nat> {
    if main.Sending? || main.Retiring? then [main.worker] else []
  }

  ghost predicate RunsInv(s: State, init: seq<Run>) {
    && Line(init, s.past.appended, s.past.dispatched, RunInHand(s.main), s.past.discarded, s.shared.runs)
    && (s.past.destroyed == [] ==> s.past.discarded == [])
  }

  ghost predicate WorkersInv(s: State) {
    && Line([], s.past.enqueued, s.past.served, WorkerInHand(s.main), s.past.dropped, s.shared.workers)
    && (s.past.destroyed == [] ==> s.past.dropped == [])
    && s.past.offered == s.past.served + (if s.main.Retiring? then [s.main.worker] else [])
    && s.past.closed == s.past.served + s.past.dropped
  }

  /** A destroyed queue stays empty: nobody is left to append. */
  ghost predicate EmptiedInv(s: State) {
    && (s.listen.Destroying? && s.listen.k >= 2 ==> s.shared.runs == [])
    && (s.listen.Destroying? && s.listen.k >= 3 ==> s.shared.workers == [])
  }

  ghost predicate QueuesInv(s: State, init: seq<Run>) {
    RunsInv(s, init) && WorkersInv(s) && EmptiedInv(s)
  }

  lemma MainKeepsRuns(s: State, init: seq<Run>, ok: bool)
    requires RunsInv(s, init) && ThreadsInv(s) && MainCan(s)
    ensures RunsInv(MainNext(s, ok), init)
  {
    hide Line, Ready;
    match s.main
    case Assigning => LineTakes(init, s.past.appended, s.past.dispatched, s.shared.runs);
    case Sending(run, worker) =>
      LineServes(init, s.past.appended, s.past.dispatched, run, s.shared.runs);
      LinePutsBack(init, s.past.appended, s.past.dispatched, run, s.shared.runs);
    case _ =>
  }

  lemma MainKeepsWorkers(s: State, ok: bool)
    requires WorkersInv(s) && EmptiedInv(s) && ThreadsInv(s) && MainCan(s)
    ensures WorkersInv(MainNext(s, ok)) && EmptiedInv(MainNext(s, ok))
  {
    hide Line, Ready;
    match s.main
    case Assigning => LineTakes([], s.past.enqueued, s.past.served, s.shared.workers);
    case Retiring(worker) => LineServes([], s.past.enqueued, s.past.served, worker, s.shared.workers);
    case _ =>
  }

  /** A client changes the queues only by appending, in its critical section. */
  lemma ClientQueues(s: State, c: nat, message: Message, ok: bool)
    requires ClientCan(s, c)
    ensures
      var s' := ClientNext(s, c, message, ok);
      var job := s.clients[c];
      && s'.past.dispatched == s.past.dispatched && s'.past.discarded == s.past.discarded
      && s'.past.offered == s.past.offered && s'.past.served == s.past.served
      && s'.past.dropped == s.past.dropped && s'.past.closed == s.past.closed
      && s'.shared.stopping == s.shared.stopping
      && (if job.Appending? && job.job.AddRun? then
            s'.shared.runs == s.shared.runs + [job.job.run] && s'.past.appended == s.past.appended + [job.job.run]
          else s'.shared.runs == s.shared.runs && s'.past.appended == s.past.appended)
      && (if job.Appending? && job.job.AddWorker? then
            s'.shared.workers == s.shared.workers + [job.job.fd] && s'.past.enqueued == s.past.enqueued + [job.job.fd]
          else s'.shared.workers == s.shared.workers && s'.past.enqueued == s.past.enqueued)
  {
    hide CreateStep, FinishRun;
  }

  lemma ClientKeepsQueues(s: State, init: seq<Run>, c: nat, message: Message, ok: bool)
    requires QueuesInv(s, init) && ThreadsInv(s) && ClientCan(s, c)
    ensures QueuesInv(ClientNext(s, c, message, ok), init)
  {
    hide ClientNext, Line, RecordInv;
    RecordedOnce(s);
    ClientFrame(s, c, message, ok);
    ClientQueues(s, c, message, ok);
    var pc := s.clients[c];
    if pc.Appending? {
      match pc.job
      case AddRun(run) =>
        LineGrows(init, s.past.appended, s.past.dispatched, RunInHand(s.main), s.past.discarded, s.shared.runs, run);
      case AddWorker(fd, _) =>
        LineGrows([], s.past.enqueued, s.past.served, WorkerInHand(s.main), s.past.dropped, s.shared.workers, fd);
    }
  }

  /** The listening thread changes the queues only when it destroys them. */
  lemma ListenFrame(s: State, what: Happening)
    requires ListenCan(s, what) && !s.listen.Destroying?
    ensures
      var s' := ListenNext(s, what);
      && s'.past == s.past.(joined := s'.past.joined)
      && s'.shared.runs == s.shared.runs && s'.shared.workers == s.shared.workers
      && (s'.main == s.main || s'.main == Notified(s.main))
      && (s'.listen.Destroying? ==> s'.listen.k == 0)
  {
    hide WithoutClient;
  }

  lemma DestroyKeepsRuns(s: State, init: seq<Run>, k: nat)
    requires RunsInv(s, init) && k < |TEARDOWN|
    ensures RunsInv(Destroyed(s, TEARDOWN[k]), init)
  {
    hide Line, TEARDOWN;
    LineDrops(init, s.past.appended, s.past.dispatched, RunInHand(s.main), s.past.discarded, s.shared.runs);
  }

  lemma DestroyKeepsWorkers(s: State, k: nat)
    requires WorkersInv(s) && k < |TEARDOWN|
    ensures WorkersInv(Destroyed(s, TEARDOWN[k]))
  {
    hide Line, TEARDOWN;
    LineDrops([], s.past.enqueued, s.past.served, WorkerInHand(s.main), s.past.dropped, s.shared.workers);
    assert s.past.closed + s.shared.workers == s.past.served + (s.past.dropped + s.shared.workers);
  }

  lemma DestroyEmpties(s: State, k: nat)
    requires EmptiedInv(s) && s.listen == Destroying(k) && k < |TEARDOWN|
    ensures EmptiedInv(Destroyed(s, TEARDOWN[k]).(listen := Destroying(k + 1)))
  {
  }

  lemma ListenKeepsQueues(s: State, init: seq<Run>, what: Happening)
    requires QueuesInv(s, init) && ListenCan(s, what)
    ensures QueuesInv(ListenNext(s, what), init)
  {
    hide Line, Destroyed, TEARDOWN;
    if s.listen.Destroying? {
      var k := s.listen.k;
      DestroyKeepsRuns(s, init, k);
      DestroyKeepsWorkers(s, k);
      DestroyEmpties(s, k);
    } else {
      ListenFrame(s, what);
      hide ListenNext;
    }
  }

  lemma QueuesKept(s: State, init: seq<Run>, a: Action)
    requires QueuesInv(s, init) && ThreadsInv(s) && Can(s, a)
    ensures QueuesInv(Next(s, a), init)
  {
    hide MainNext, ClientNext, ListenNext, Line;
    match a
    case MainStep(ok) =>
      MainKeepsRuns(s, init, ok);
      MainKeepsWorkers(s, ok);
    case SpuriousWakeup =>
    case ClientStep(c, message, ok) => ClientKeepsQueues(s, init, c, message, ok);
    case ListenStep(what) => ListenKeepsQueues(s, init, what);
  }

  lemma {:induction false} QueuesAlways(s: State, init: seq<Run>, actions: seq<Action>, s': State)
    requires QueuesInv(s, init) && SafetyInv(s) && Reaches(s, actions, s')
    ensures QueuesInv(s', init) && SafetyInv(s')
    decreases |actions|
  {
    hide QueuesInv, MutexInv, WakeupInv, ThreadsInv, Next;
    if actions != [] {
      SafetyKept(s, actions[0]);
      QueuesKept(s, init, actions[0]);
      QueuesAlways(Next(s, actions[0]), init, actions[1..], s');
    }
  }

  lemma InitialQueues(init: seq<Run>, tables: Tables)
    ensures QueuesInv(Initial(init, tables), init) && SafetyInv(Initial(init, tables))
  {
    assert [] + [] + [] + init == init;
    InitiallySafe(init, tables);
  }

  /**
   Over all interleavings and all failed sends: whenever the mutex is free, and before the
   queue is destroyed, what the queue held at first and every run appended since is the runs
   dispatched, in order, and then the queue.
   */
  lemma FifoConservation(init: seq<Run>, tables: Tables, actions: seq<Action>, s: State)
    requires Reaches(Initial(init, tables), actions, s)
    ensures s.owner.None? && s.past.destroyed == [] ==>
      init + s.past.appended == s.past.dispatched + s.shared.runs
    ensures s.owner.None? ==>
      init + s.past.appended == s.past.dispatched + s.past.discarded + s.shared.runs
  {
    hide QueuesInv, SafetyInv, Reaches;
    InitialQueues(init, tables);
    QueuesAlways(Initial(init, tables), init, actions, s);
    if s.owner.None? {
      RunsParts(s, init);
    }
  }

  lemma RunsParts(s: State, init: seq<Run>)
    requires QueuesInv(s, init) && SafetyInv(s) && s.owner.None?
    ensures init + s.past.appended == s.past.dispatched + s.past.discarded + s.shared.runs
    ensures s.past.destroyed == [] ==> init + s.past.appended == s.past.dispatched + s.shared.runs
  {
    hide WakeupInv, ThreadsInv, WorkersInv, EmptiedInv;
    assert RunInHand(s.main) == [];
    assert s.past.dispatched + [] == s.past.dispatched;
  }

  /**
   The three steps of the main thread in `server_assign_run`: one whole assignment, which when
   the send fails leaves the run queue as it was.
   */
  lemma AssignmentInThreeSteps(s: State, ok: bool)
    requires s.main.Assigning? && MainCan(s)
    ensures
      var s3 := MainNext(MainNext(MainNext(s, true), ok), true);
      var run, worker := s.shared.runs[0], s.shared.workers[0];
      && s3.main.Checking? && s3.shared == Assigned(s.shared, ok)
      && (!ok ==> s3.shared.runs == s.shared.runs && s3.past.dispatched == s.past.dispatched)
      && (ok ==> s3.past.dispatched == s.past.dispatched + [run])
      && s3.past.offered == s.past.offered + [worker] && s3.past.closed == s.past.closed + [worker]
  {
    assert [s.shared.runs[0]] + s.shared.runs[1..] == s.shared.runs;
  }

  /** Steps of the main thread, whose i-th offer succeeds if `sendOk(i)`. */
  ghost predicate MainAlone(start: State, actions: seq<Action>, s: State) {
    Reaches(start, actions, s) && forall i :: 0 <= i < |actions| ==> actions[i].MainStep?
  }

  lemma MainAgain(start: State, actions: seq<Action>, s: State, ok: bool) returns (actions': seq<Action>, s': State)
    requires MainAlone(start, actions, s) && MainCan(s)
    ensures MainAlone(start, actions', s') && s' == MainNext(s, ok)
  {
    hide Reaches, MainNext, Ready;
    actions', s' := actions + [MainStep(ok)], MainNext(s, ok);
    ReachesOneMore(start, actions, s, MainStep(ok));
  }

  /**
   The main thread alone, from its check of the condition: it offers runs to workers until one
   of them runs out, what the workers take is dispatched, and then it sleeps.
   */
  lemma {:induction false} MainServesAll(start: State, actions: seq<Action>, s: State, sendOk: nat -> bool)
    returns (actions': seq<Action>, s': State)
    requires MainAlone(start, actions, s) && s.main.Checking? && s.owner == Some(MainThread) && !s.shared.stopping
    ensures MainAlone(start, actions', s') && s'.main.Asleep? && s'.owner.None?
    ensures s'.shared.runs == [] || s'.shared.workers == []
    ensures s'.past.dispatched + s'.shared.runs == s.past.dispatched + s.shared.runs
    ensures s'.past.offered + s'.shared.workers == s.past.offered + s.shared.workers
    ensures |s.past.offered| <= |s'.past.offered|
    ensures |s'.past.dispatched| ==
      |s.past.dispatched| + Successes(sendOk, |s.past.offered|, |s'.past.offered|)
    decreases |s.shared.workers|
  {
    hide Reaches, Successes;
    if s.shared.runs == [] || s.shared.workers == [] {
      actions', s' := MainAgain(start, actions, s, true);
      NoneYet(sendOk, |s.past.offered|);
    } else {
      var ok := sendOk(|s.past.offered|);
      actions', s' := MainAgain(start, actions, s, true);
      AssignmentInThreeSteps(s', ok);
      AssignmentMovesOn(s.shared, ok, s.past.dispatched, s.past.offered);
      actions', s' := MainAgain(start, actions', s', true);
      actions', s' := MainAgain(start, actions', s', ok);
      actions', s' := MainAgain(start, actions', s', true);
      var s3 := s';
      hide MainNext, Assigned;
      actions', s' := MainServesAll(start, actions', s', sendOk);
      FirstOne(sendOk, |s.past.offered|, |s'.past.offered|);
    }
  }

  // ---- the order of the queue is the order of the lock ----

  lemma FourSteps(s: State, a: Action, s1: State, s2: State, s3: State, s4: State)
    requires Can(s, a) && s1 == Next(s, a) && Can(s1, a) && s2 == Next(s1, a)
    requires Can(s2, a) && s3 == Next(s2, a) && Can(s3, a) && s4 == Next(s3, a)
    ensures Reaches(s, [a, a, a, a], s4)
  {
    hide Next, Can;
    assert [a][1..] == [] && [a, a][1..] == [a] && [a, a, a][1..] == [a, a] && [a, a, a, a][1..] == [a, a, a];
    assert Reaches(s4, [], s4);
    assert Reaches(s3, [a], s4);
    assert Reaches(s2, [a, a], s4);
    assert Reaches(s1, [a, a, a], s4);
  }

  /** A client thread's critical section, from the free mutex to the free mutex. */
  lemma EnqueueSteps(s: State, c: nat) returns (s': State)
    requires s.owner.None? && c < |s.clients| && s.clients[c].Locking? && s.clients[c].job.AddRun?
    ensures var a := ClientStep(c, NoMessage, true); Reaches(s, [a, a, a, a], s')
    ensures s'.owner.None? && s'.past.appended == s.past.appended + [s.clients[c].job.run]
    ensures |s'.clients| == |s.clients| && forall d :: 0 <= d < |s.clients| && d != c ==> s'.clients[d] == s.clients[d]
  {
    hide Reaches;
    var a := ClientStep(c, NoMessage, true);
    var s1 := Next(s, a);
    var s2 := Next(s1, a);
    var s3 := Next(s2, a);
    s' := Next(s3, a);
    FourSteps(s, a, s1, s2, s3, s');
  }

  /**
   The row is inserted before the lock is taken: of two clients between the two, either run can
   be queued first, whatever their ids.
   */
  lemma EitherCanBeFirst(s: State, c: nat, d: nat) returns (actions: seq<Action>, s': State)
    requires s.owner.None? && c < |s.clients| && d < |s.clients| && c != d
    requires s.clients[c].Locking? && s.clients[c].job.AddRun? && s.clients[d].Locking? && s.clients[d].job.AddRun?
    ensures Reaches(s, actions, s')
    ensures s'.past.appended == s.past.appended + [s.clients[d].job.run, s.clients[c].job.run]
  {
    var s1 := EnqueueSteps(s, d);
    s' := EnqueueSteps(s1, c);
    var a, b := ClientStep(d, NoMessage, true), ClientStep(c, NoMessage, true);
    actions := [a, a, a, a] + [b, b, b, b];
    ReachesFurther(s, [a, a, a, a], s1, [b, b, b, b], s');
  }

  // ---- numbers handed out, held and entered ----

  /**
   The numbers from `lo` below `hi` have been handed out: each is either held by one holder or
   was entered, once.  A holder without a number has one below `lo`.
   */
  ghost predicate Tickets(held: seq<int>, entered: seq<int>, lo: int, hi: int) {
    && lo <= hi && Distinct(entered)
    && (forall i :: 0 <= i < |entered| ==> lo <= entered[i] < hi)
    && (forall c :: 0 <= c < |held| ==> held[c] < hi && held[c] !in entered)
    && (forall c, d :: 0 <= c < d < |held| && held[c] >= lo ==> held[c] != held[d])
    && (forall x :: lo <= x < hi && x !in entered ==> x in held)
  }

  lemma StillHeld(held: seq<int>, c: nat, y: int, x: int)
    requires c < |held| && x in held && x != held[c]
    ensures x in held[c := y]
  {
    var d :| 0 <= d < |held| && held[d] == x;
    assert held[c := y][d] == x;
  }

  lemma TicketIssued(held: seq<int>, entered: seq<int>, lo: int, hi: int, c: nat)
    requires Tickets(held, entered, lo, hi) && c < |held| && held[c] < lo
    ensures Tickets(held[c := hi], entered, lo, hi + 1)
  {
    assert held[c := hi][c] == hi;
    forall x | lo <= x < hi + 1 && x !in entered
      ensures x in held[c := hi]
    {
      if x < hi {
        StillHeld(held, c, hi, x);
      }
    }
  }

  lemma TicketEntered(held: seq<int>, entered: seq<int>, lo: int, hi: int, c: nat, none: int)
    requires Tickets(held, entered, lo, hi) && c < |held| && held[c] >= lo > none
    ensures Tickets(held[c := none], entered + [held[c]], lo, hi)
  {
    forall x | lo <= x < hi && x !in entered + [held[c]]
      ensures x in held[c := none]
    {
      assert x !in entered && x != held[c];
      StillHeld(held, c, none, x);
    }
  }

  lemma NewHolder(held: seq<int>, entered: seq<int>, lo: int, hi: int, none: int)
    requires Tickets(held, entered, lo, hi) && none < lo
    ensures Tickets(held + [none], entered, lo, hi)
  {
  }

  lemma {:induction false} CountsOnce(s: seq<int>, x: int)
    requires forall i, j :: 0 <= i < j < |s| && s[i] == x ==> s[j] != x
    ensures multiset(s)[x] == if x in s then 1 else 0
  {
    if x in s {
      var k :| 0 <= k < |s| && s[k] == x;
      assert s == s[..k] + [x] + s[k + 1..];
      assert x !in s[..k] && x !in s[k + 1..];
    }
  }

  /** Every number handed out is in exactly one place. */
  lemma TicketsCount(held: seq<int>, entered: seq<int>, lo: int, hi: int, x: int)
    requires Tickets(held, entered, lo, hi) && lo <= x
    ensures multiset(held)[x] + multiset(entered)[x] == if x < hi then 1 else 0
  {
    CountsOnce(held, x);
    CountsOnce(entered, x);
    if x in held {
      var c :| 0 <= c < |held| && held[c] == x;
      assert held[c] < hi && held[c] !in entered;
    }
    if x in entered {
      var i :| 0 <= i < |entered| && entered[i] == x;
      assert lo <= entered[i] < hi;
    }
  }

  // ---- the descriptors of the workers ----

  const NONE := -1

  /** The descriptor a client thread has yet to enqueue, if any. */
  function PendingWorker(pc: ClientPc): int {
    if pc.Pending() && pc.job.AddWorker? then pc.job.fd else NONE
  }

  function PendingWorkers(clients: seq<ClientPc>): (held: seq<int>)
    ensures |held| == |clients| && forall c :: 0 <= c < |clients| ==> held[c] == PendingWorker(clients[c])
  {
    seq(|clients|, c requires 0 <= c < |clients| => PendingWorker(clients[c]))
  }

  lemma PendingWorkersUpdated(clients: seq<ClientPc>, c: nat, pc: ClientPc)
    requires c < |clients|
    ensures PendingWorkers(clients[c := pc]) == PendingWorkers(clients)[c := PendingWorker(pc)]
    ensures PendingWorker(pc) == PendingWorker(clients[c])
      ==> PendingWorkers(clients[c := pc]) == PendingWorkers(clients)
  {
  }

  /** Descriptors are numbered as they are duplicated: each is with one client thread, or was enqueued once. */
  ghost predicate DescriptorsInv(clients: seq<ClientPc>, enqueued: seq<nat>, duplicated: nat) {
    Tickets(PendingWorkers(clients), enqueued, 0, duplicated)
  }

  /** The steps of a client as far as they concern worker descriptors. */
  lemma ClientDescriptors(s: State, c: nat, message: Message, ok: bool)
    requires ClientCan(s, c)
    ensures
      var s', pc := ClientNext(s, c, message, ok), s.clients[c];
      && s'.clients == s.clients[c := s'.clients[c]]
      && (if pc.Duplicating? && ok then s'.duplicated == s.duplicated + 1
          && PendingWorker(s'.clients[c]) == s.duplicated
          else s'.duplicated == s.duplicated)
      && (if pc.Appending? && pc.job.AddWorker? then s'.clients[c] == Notifying(pc.job)
          && s'.past.enqueued == s.past.enqueued + [pc.job.fd]
          else s'.past.enqueued == s.past.enqueued)
      && (!(pc.Duplicating? && ok) && !(pc.Appending? && pc.job.AddWorker?) ==>
            PendingWorker(pc) == PendingWorker(s'.clients[c]))
  {
    hide CreateStep, FinishRun, WithRun, WithWorker;
  }

  lemma DescriptorsKept(s: State, a: Action)
    requires DescriptorsInv(s.clients, s.past.enqueued, s.duplicated) && Can(s, a)
    ensures var s' := Next(s, a); DescriptorsInv(s'.clients, s'.past.enqueued, s'.duplicated)
  {
    hide Tickets, ClientNext, WithoutClient, TEARDOWN, PendingWorkers;
    var held := PendingWorkers(s.clients);
    match a
    case ClientStep(c, message, ok) =>
      ClientDescriptors(s, c, message, ok);
      var pc := s.clients[c];
      PendingWorkersUpdated(s.clients, c, ClientNext(s, c, message, ok).clients[c]);
      if pc.Duplicating? && ok {
        TicketIssued(held, s.past.enqueued, 0, s.duplicated, c);
      } else if pc.Appending? && pc.job.AddWorker? {
        TicketEntered(held, s.past.enqueued, 0, s.duplicated, c, NONE);
      }
    case ListenStep(what) =>
      NewHolder(held, s.past.enqueued, 0, s.duplicated, NONE);
      NewClientPends(s.clients);
    case _ =>
  }

  lemma NewClientPends(clients: seq<ClientPc>)
    ensures PendingWorkers(clients + [Receiving]) == PendingWorkers(clients) + [NONE]
  {
  }

  lemma {:induction false} DescriptorsAlways(s: State, actions: seq<Action>, s': State)
    requires DescriptorsInv(s.clients, s.past.enqueued, s.duplicated) && Reaches(s, actions, s')
    ensures DescriptorsInv(s'.clients, s'.past.enqueued, s'.duplicated)
    decreases |actions|
  {
    hide DescriptorsInv, Next;
    if actions != [] {
      DescriptorsKept(s, actions[0]);
      DescriptorsAlways(Next(s, actions[0]), actions[1..], s');
    }
  }

  /**
   The ledger: workers enqueued are workers retired, in order, then the queue; each is offered
   at most one run, and its descriptor is closed at most once.
   */
  lemma WorkerLedger(init: seq<Run>, tables: Tables, actions: seq<Action>, s: State)
    requires Reaches(Initial(init, tables), actions, s)
    ensures s.owner.None? ==>
      && s.past.enqueued == s.past.served + s.past.dropped + s.shared.workers
      && s.past.offered == s.past.served
      && s.past.closed == s.past.served + s.past.dropped
    ensures Distinct(s.past.enqueued) && Distinct(s.past.offered) && Distinct(s.past.closed)
    ensures s.past.offered <= s.past.enqueued
  {
    hide Reaches, Line, WakeupInv, MutexInv, ThreadsInv, RunsInv, WorkersInv, EmptiedInv, PendingWorkers;
    InitialQueues(init, tables);
    QueuesAlways(Initial(init, tables), init, actions, s);
    InitialDescriptors(init, tables);
    DescriptorsAlways(Initial(init, tables), actions, s);
    hide Distinct;
    LedgerParts(s);
  }

  lemma LedgerParts(s: State)
    requires WorkersInv(s) && MutexInv(s) && ThreadsInv(s) && Distinct(s.past.enqueued)
    ensures s.owner.None? ==>
      && s.past.enqueued == s.past.served + s.past.dropped + s.shared.workers
      && s.past.offered == s.past.served
      && s.past.closed == s.past.served + s.past.dropped
    ensures s.past.offered <= s.past.enqueued && Distinct(s.past.offered) && Distinct(s.past.closed)
  {
    var p, hand := s.past, WorkerInHand(s.main);
    assert p.enqueued == [] + p.enqueued == p.served + hand + p.dropped + s.shared.workers;
    assert p.served + [] == p.served;
    if s.main.Exited? {
      assert p.closed + s.shared.workers == p.enqueued;
      DistinctPrefix(p.closed, s.shared.workers);
      assert p.served + (p.dropped + s.shared.workers) == p.enqueued;
      DistinctPrefix(p.served, p.dropped + s.shared.workers);
    } else {
      assert p.dropped == [];
      assert p.served + (hand + s.shared.workers) == p.enqueued;
      DistinctPrefix(p.served, hand + s.shared.workers);
      assert p.served + hand + s.shared.workers == p.enqueued;
      DistinctPrefix(p.served + hand, s.shared.workers);
    }
  }

  lemma DistinctPrefix(a: seq<int>, b: seq<int>)
    requires Distinct(a + b)
    ensures Distinct(a)
  {
    assert forall i :: 0 <= i < |a| ==> (a + b)[i] == a[i];
  }

  lemma ClosedParts(s: State)
    requires WorkersInv(s) && EmptiedInv(s) && s.main.Exited? && s.listen.Destroying? && s.listen.k >= 3
    requires forall c :: 0 <= c < |s.clients| ==> s.clients[c].Done?
    requires DescriptorsInv(s.clients, s.past.enqueued, s.duplicated)
    ensures s.past.closed == s.past.enqueued
    ensures forall fd: nat :: fd < s.duplicated <==> fd in s.past.closed
  {
    var p := s.past;
    assert p.enqueued == [] + p.enqueued == p.served + [] + p.dropped + [];
    assert p.served + [] + p.dropped + [] == p.closed;
    hide Line, WorkersInv;
    forall fd: nat
      ensures fd < s.duplicated <==> fd in p.enqueued
    {
      assert fd !in PendingWorkers(s.clients);
    }
  }

  /** After shutdown every descriptor ever duplicated is closed, exactly once. */
  lemma EveryDescriptorIsClosed(init: seq<Run>, tables: Tables, actions: seq<Action>, s: State)
    requires Reaches(Initial(init, tables), actions, s) && s.past.destroyed == TEARDOWN
    ensures s.past.closed == s.past.enqueued && Distinct(s.past.closed)
    ensures forall fd: nat :: fd < s.duplicated <==> fd in s.past.closed
  {
    hide Reaches, Line, DescriptorsInv, MutexInv, WakeupInv, RunsInv, WorkersInv, EmptiedInv, Distinct;
    InitialQueues(init, tables);
    QueuesAlways(Initial(init, tables), init, actions, s);
    InitialDescriptors(init, tables);
    DescriptorsAlways(Initial(init, tables), actions, s);
    SafeShutdown(init, tables, actions, s);
    ClosedParts(s);
    WorkerLedger(init, tables, actions, s);
  }

  lemma InitialDescriptors(init: seq<Run>, tables: Tables)
    ensures DescriptorsInv(Initial(init, tables).clients, [], 0)
  {
  }
}
