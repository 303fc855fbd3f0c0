/**
 Where the server waits.  Some of its calls return only when somebody outside acts: a client or
 a worker at the other end of a socket, a new connection, a signal.  These are all the states in
 which nothing else can happen.
 */
module SchedulerProgress {
  import opened Results
  import opened Protocol
  import opened Storage
  import opened RunCreation
  import opened ServerState
  import opened Scheduler
  import opened SchedulerSafety

  /** In read(2), or in the send(2) of a response. */
  predicate WaitsForPeer(pc: ClientPc) {
    pc.Receiving? || pc.Responding?
  }

  /** A step the server takes by itself: no peer, no signal, no failing poll, no causeless wake-up. */
  predicate Unaided(s: State, a: Action) {
    && Can(s, a)
    && match a
      case MainStep(_) => !s.main.Sending?
      case SpuriousWakeup => false
      case ClientStep(c, _, _) => !WaitsForPeer(s.clients[c])
      case ListenStep(what) => s.listen.Looping? ==> what.CleanUp? || (what.Leave? && s.shared.stopping)
  }

  /** Nothing moves until somebody outside acts. */
  ghost predicate Quiet(s: State) {
    forall a :: !Unaided(s, a)
  }

  // ---- the ways to be quiet ----

  /** Every client thread has finished, waits for its peer, or waits for the mutex while a send goes on under it. */
  ghost predicate ClientsWait(s: State) {
    forall c :: 0 <= c < |s.clients| ==>
      s.clients[c].Done? || WaitsForPeer(s.clients[c]) || (s.main.Sending? && s.clients[c].Locking?)
  }

  ghost predicate NothingToCleanUp(s: State) {
    forall c :: c in s.clientQueue && c < |s.clients| ==> !s.clients[c].Done?
  }

  /** There is nothing the main thread could do. */
  predicate NothingToAssign(s: State) {
    !s.shared.stopping && (s.shared.runs == [] || s.shared.workers == [])
  }

  /** Listening, with no work: the state the server is meant to rest in. */
  ghost predicate Idle(s: State) {
    s.owner.None? && s.main.Asleep? && NothingToAssign(s) && s.listen.Looping? && NothingToCleanUp(s)
  }

  /** The main thread sends to a worker that does not read, and holds the mutex all the while. */
  ghost predicate SendsUnderLock(s: State) {
    && s.main.Sending?
    && ((s.listen.Looping? && NothingToCleanUp(s)) || s.listen.StopLocking? || s.listen.JoiningMain?)
  }

  /** The event loop failed, and the join waits for a main thread that nobody told to stop. */
  predicate JoinsSleepingMain(s: State) {
    s.owner.None? && s.main.Asleep? && NothingToAssign(s) && s.listen.JoiningMain?
  }

  /** Shutdown joins a client thread that waits for its peer. */
  predicate JoinsWaitingClient(s: State) {
    s.owner.None? && s.main.Exited? && s.listen.Joining? && s.listen.c < |s.clients|
      && WaitsForPeer(s.clients[s.listen.c])
  }

  predicate ShutDown(s: State) {
    s.past.destroyed == TEARDOWN
  }

  /** The thread inside a critical section goes on unaided, unless it is the main thread in its send. */
  lemma OwnerMovesIff(s: State)
    requires SafetyInv(s) && s.owner.Some?
    ensures !s.main.Sending? <==>
      match s.owner.value
      case MainThread => Unaided(s, MainStep(true))
      case Listener => Unaided(s, ListenStep(Proceed))
      case ClientThread(c) => Unaided(s, ClientStep(c, NoMessage, true))
  {
    hide RecordInv, TEARDOWN;
    if s.owner.value.ClientThread? {
      assert s.clients[s.owner.value.c].Holds();
    }
  }

  lemma BusyClientMoves(s: State, c: nat)
    requires c < |s.clients| && !s.clients[c].Done? && !WaitsForPeer(s.clients[c])
    requires s.owner.None? || !s.clients[c].Locking?
    ensures !Quiet(s)
  {
    assert Unaided(s, ClientStep(c, NoMessage, true));
  }

  lemma QuietOwner(s: State)
    requires SafetyInv(s) && Quiet(s)
    ensures s.owner.None? || s.main.Sending?
  {
    if s.owner.Some? {
      OwnerMovesIff(s);
    }
  }

  lemma QuietClients(s: State)
    requires SafetyInv(s) && Quiet(s)
    ensures ClientsWait(s)
  {
    QuietOwner(s);
    forall c | 0 <= c < |s.clients|
      ensures s.clients[c].Done? || WaitsForPeer(s.clients[c]) || (s.main.Sending? && s.clients[c].Locking?)
    {
      if !s.clients[c].Done? && !WaitsForPeer(s.clients[c]) && (s.owner.None? || !s.clients[c].Locking?) {
        BusyClientMoves(s, c);
      }
    }
  }

  /** What the listening thread can be doing when nothing moves. */
  lemma QuietListener(s: State)
    requires SafetyInv(s) && Quiet(s)
    ensures s.listen.Looping? ==> !s.shared.stopping && NothingToCleanUp(s)
    ensures s.listen.Joining? ==> s.listen.c < |s.clients| && WaitsForPeer(s.clients[s.listen.c])
    ensures s.listen.Destroying? ==> ShutDown(s)
    ensures s.listen.JoiningMain? ==> !s.main.Exited?
    ensures s.listen.StopLocking? ==> s.owner.Some?
    ensures s.listen.Looping? || s.listen.Joining? || s.listen.Destroying? || s.listen.JoiningMain?
      || s.listen.StopLocking?
  {
    QuietOwner(s);
    QuietClients(s);
    if s.listen.Cleaning? || s.listen.Joining? {
      RecordJoins(s.clientQueue, s.past.joined, |s.clients|, s.listen.c);
    }
    hide RecordInv, TEARDOWN;
    assert !Unaided(s, ListenStep(Leave)) && !Unaided(s, ListenStep(Proceed));
    forall c | c in s.clientQueue && c < |s.clients| && s.listen.Looping?
      ensures !s.clients[c].Done?
    {
      assert !Unaided(s, ListenStep(CleanUp(c)));
    }
    if s.listen.Destroying? && s.listen.k == |TEARDOWN| {
      assert TEARDOWN[..s.listen.k] == TEARDOWN;
    }
  }

  lemma QuietMain(s: State)
    requires SafetyInv(s) && Quiet(s)
    ensures s.main.Asleep? || s.main.Exited? || s.main.Sending?
    ensures s.owner.None? <==> !s.main.Sending?
  {
    QuietOwner(s);
    hide RecordInv, TEARDOWN;
    assert !Unaided(s, MainStep(true));
  }

  lemma QuietParts(s: State)
    requires SafetyInv(s) && Quiet(s)
    ensures ClientsWait(s)
    ensures ShutDown(s) || Idle(s) || SendsUnderLock(s) || JoinsSleepingMain(s) || JoinsWaitingClient(s)
  {
    QuietClients(s);
    QuietListener(s);
    QuietMain(s);
    hide Quiet, ClientsWait, NothingToCleanUp, RecordInv, TEARDOWN;
  }

  lemma PartsAreQuiet(s: State)
    requires SafetyInv(s) && ClientsWait(s)
    requires ShutDown(s) || Idle(s) || SendsUnderLock(s) || JoinsSleepingMain(s) || JoinsWaitingClient(s)
    ensures Quiet(s)
  {
    RecordedOnce(s);
    OwnersHold(s);
    hide RecordInv;
    forall a
      ensures !Unaided(s, a)
    {
    }
  }

  /**
   Exactly when nothing moves until somebody outside acts: after shutdown; at rest; while the
   main thread sends under the mutex to a worker that does not read; in the join with a main
   thread nobody told to stop; in the join with a client thread whose peer is silent.
   */
  lemma QuietIff(runs: seq<Run>, tables: Tables, actions: seq<Action>, s: State)
    requires Reaches(Initial(runs, tables), actions, s)
    ensures Quiet(s) <==>
      && ClientsWait(s)
      && (ShutDown(s) || Idle(s) || SendsUnderLock(s) || JoinsSleepingMain(s) || JoinsWaitingClient(s))
  {
    InitiallySafe(runs, tables);
    SafetyAlways(Initial(runs, tables), actions, s);
    hide Reaches;
    if Quiet(s) {
      QuietParts(s);
    } else if ClientsWait(s) && (ShutDown(s) || Idle(s) || SendsUnderLock(s) || JoinsSleepingMain(s)
                                 || JoinsWaitingClient(s)) {
      PartsAreQuiet(s);
    }
  }

  /** Once stopping is set, the server gets through its shutdown unless a client's peer is silent in a join. */
  lemma ShutdownWaitsOnlyForClients(runs: seq<Run>, tables: Tables, actions: seq<Action>, s: State)
    requires Reaches(Initial(runs, tables), actions, s) && s.shared.stopping
    ensures Quiet(s) <==> ClientsWait(s) && (ShutDown(s) || JoinsWaitingClient(s))
  {
    QuietIff(runs, tables, actions, s);
    InitiallySafe(runs, tables);
    SafetyAlways(Initial(runs, tables), actions, s);
    hide Reaches, Quiet, ClientsWait;
  }

  // ---- witnesses ----

  /** Told to stop while a client is connected that says nothing. */
  lemma SilentClientConnected(runs: seq<Run>, tables: Tables) returns (actions: seq<Action>, s: State)
    ensures Reaches(Initial(runs, tables), actions, s)
    ensures s == Initial(runs, tables).(clients := [Receiving], clientQueue := [0],
                                        shared := Stopped(Shared(false, runs, [])))
  {
    hide Reaches, TEARDOWN;
    var start := Initial(runs, tables);
    actions, s := [], start;
    NoSteps(start);
    actions, s := Then(start, actions, s, ListenStep(Accept));
    actions, s := Then(start, actions, s, ListenStep(Signal));
    actions, s := Then(start, actions, s, ListenStep(Proceed));
    actions, s := Then(start, actions, s, ListenStep(Proceed));
    actions, s := Then(start, actions, s, ListenStep(Proceed));
    actions, s := Then(start, actions, s, ListenStep(Proceed));
  }

  /** From there the main thread exits, and shutdown never gets past the join. */
  lemma SilentClientHoldsShutdown(runs: seq<Run>, tables: Tables) returns (actions: seq<Action>, s: State)
    ensures Reaches(Initial(runs, tables), actions, s)
    ensures s.shared.stopping && s.main.Exited? && s.past.destroyed == []
    ensures s.listen == Joining(0) && s.clients == [Receiving] && Quiet(s)
  {
    var start := Initial(runs, tables);
    actions, s := SilentClientConnected(runs, tables);
    hide Reaches, TEARDOWN;
    actions, s := Then(start, actions, s, MainStep(true));
    actions, s := Then(start, actions, s, MainStep(true));
    actions, s := Then(start, actions, s, MainStep(true));
    actions, s := Then(start, actions, s, ListenStep(Leave));
    actions, s := Then(start, actions, s, ListenStep(Proceed));
    actions, s := Then(start, actions, s, ListenStep(Proceed));
    hide Next, Can, Quiet;
    QuietIff(runs, tables, actions, s);
  }

  /** A worker has connected, and its thread is about to put it into the queue. */
  lemma WorkerConnected(run: Run, tables: Tables) returns (actions: seq<Action>, s: State)
    ensures Reaches(Initial([run], tables), actions, s)
    ensures s == Initial([run], tables).(clients := [Appending(AddWorker(0, false))], clientQueue := [0],
                                         owner := Some(ClientThread(0)), duplicated := 1)
  {
    hide Reaches, TEARDOWN, CreateStep;
    var start := Initial([run], tables);
    actions, s := [], start;
    NoSteps(start);
    actions, s := Then(start, actions, s, ListenStep(Accept));
    actions, s := Then(start, actions, s, ClientStep(0, NewWorker(false), true));
    actions, s := Then(start, actions, s, ClientStep(0, NoMessage, true));
    actions, s := Then(start, actions, s, ClientStep(0, NoMessage, true));
  }

  /** It is in the queue, and its thread has finished. */
  lemma WorkerRegistered(run: Run, tables: Tables) returns (actions: seq<Action>, s: State)
    ensures Reaches(Initial([run], tables), actions, s)
    ensures
      && s.owner.None? && s.shared == Shared(false, [run], [0]) && s.main.Starting? && s.listen.Looping?
      && s.clients == [Done] && s.past.destroyed == []
  {
    actions, s := WorkerConnected(run, tables);
    hide Reaches, TEARDOWN, CreateStep;
    var start := Initial([run], tables);
    actions, s := Then(start, actions, s, ClientStep(0, NoMessage, true));
    actions, s := Then(start, actions, s, ClientStep(0, NoMessage, true));
    actions, s := Then(start, actions, s, ClientStep(0, NoMessage, true));
    actions, s := Then(start, actions, s, ClientStep(0, NoMessage, true));
    actions, s := Then(start, actions, s, ClientStep(0, NoMessage, true));
  }

  /** While that worker does not read, a signal to stop is not even noted: its handler waits for the mutex. */
  lemma SilentWorkerHoldsTheMutex(run: Run, tables: Tables) returns (actions: seq<Action>, s: State)
    ensures Reaches(Initial([run], tables), actions, s)
    ensures s.main.Sending? && s.owner == Some(MainThread) && s.listen.StopLocking? && Quiet(s)
  {
    var start := Initial([run], tables);
    actions, s := WorkerRegistered(run, tables);
    hide Reaches, TEARDOWN;
    actions, s := Then(start, actions, s, MainStep(true));
    actions, s := Then(start, actions, s, MainStep(true));
    actions, s := Then(start, actions, s, MainStep(true));
    actions, s := Then(start, actions, s, ListenStep(Signal));
    hide Next, Can, Quiet;
    QuietIff([run], tables, actions, s);
  }
}
