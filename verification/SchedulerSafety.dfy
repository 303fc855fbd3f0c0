/** What every step of the server keeps: the mutex, wake-ups, threads and the teardown. */
module SchedulerSafety {
  import opened Results
  import opened Protocol
  import opened Storage
  import opened RunCreation
  import opened ServerState
  import opened Scheduler

  /** Exactly the thread that owns the mutex is inside a critical section. */
  ghost predicate MutexInv(s: State) {
    && (s.main.Holds() <==> s.owner == Some(MainThread))
    && (s.listen.Holds() <==> s.owner == Some(Listener))
    && (forall c :: 0 <= c < |s.clients| ==> (s.clients[c].Holds() <==> s.owner == Some(ClientThread(c))))
    && (s.owner.Some? && s.owner.value.ClientThread? ==> s.owner.value.c < |s.clients|)
  }

  /** The owner of the mutex has changed something and has yet to signal it. */
  predicate AboutToNotify(s: State) {
    || s.listen.StopNotifying?
    || (s.owner.Some? && s.owner.value.ClientThread? && s.owner.value.c < |s.clients|
        && s.clients[s.owner.value.c].Notifying?)
  }

  ghost predicate WakeupInv(s: State) {
    && (s.main.Asleep? && Ready(s.shared) ==> AboutToNotify(s))
    && (s.main.Assigning? ==> s.shared.runs != [] && s.shared.workers != [])
    && (s.main.Assigning? || s.main.Sending? || s.main.Retiring? ==> !s.shared.stopping)
    && (s.main.Leaving? || s.main.Exited? ==> s.shared.stopping)
  }

  predicate AfterMain(listen: ListenPc) {
    listen.ClosingClients? || listen.Joining? || listen.Destroying?
  }

  /** The client being joined, if any. */
  function BeingJoined(listen: ListenPc): seq<nat> {
    if listen.Cleaning? || listen.Joining? then [listen.c] else []
  }

  /** Where a client thread is on record: queued, being joined, joined. */
  function OnRecord(queue: seq<nat>, hand: seq<nat>, joined: seq<nat>): multiset<nat> {
    multiset(queue) + multiset(hand) + multiset(joined)
  }

  /** Every client thread ever created is on record exactly once. */
  ghost predicate RecordInv(queue: seq<nat>, hand: seq<nat>, joined: seq<nat>, created: nat) {
    forall c :: OnRecord(queue, hand, joined)[c] == if 0 <= c < created then 1 else 0
  }

  /** Live client threads are in the client queue or being joined; the main thread goes before them. */
  ghost predicate ThreadsInv(s: State) {
    && RecordInv(s.clientQueue, BeingJoined(s.listen), s.past.joined, |s.clients|)
    && (forall c :: c in s.past.joined ==> c < |s.clients| && s.clients[c].Done?)
    && (s.listen.Cleaning? ==>
          s.listen.c < |s.clients| && (s.clients[s.listen.c].Returning? || s.clients[s.listen.c].Done?))
    && (AfterMain(s.listen) ==> s.main.Exited?)
    && (s.listen.Destroying? ==> s.clientQueue == [] && s.listen.k <= |TEARDOWN|)
    && s.past.destroyed == (if s.listen.Destroying? then TEARDOWN[..s.listen.k] else [])
  }

  ghost predicate SafetyInv(s: State) {
    MutexInv(s) && WakeupInv(s) && ThreadsInv(s)
  }

  lemma MainKeepsMutex(s: State, ok: bool)
    requires MutexInv(s) && MainCan(s)
    ensures MutexInv(MainNext(s, ok))
  {
    hide Ready;
  }

  /** What a client's step does to the mutex. */
  lemma ClientLocks(s: State, c: nat, message: Message, ok: bool)
    requires ClientCan(s, c)
    ensures
      var s', pc := ClientNext(s, c, message, ok), s.clients[c];
      && s'.listen == s.listen && (s'.main == s.main || s'.main == Notified(s.main))
      && s'.clients == s.clients[c := s'.clients[c]]
      && s'.owner == (if pc.Locking? then Some(ClientThread(c)) else if pc.Unlocking? then None else s.owner)
      && (s'.clients[c].Holds() <==> pc.Locking? || pc.Appending? || pc.Notifying?)
  {
    hide CreateStep, FinishRun, WithRun, WithWorker;
  }

  lemma ClientKeepsMutex(s: State, c: nat, message: Message, ok: bool)
    requires MutexInv(s) && ClientCan(s, c)
    ensures MutexInv(ClientNext(s, c, message, ok))
  {
    hide ClientNext;
    ClientLocks(s, c, message, ok);
  }

  lemma ListenKeepsMutex(s: State, what: Happening)
    requires MutexInv(s) && ListenCan(s, what)
    ensures MutexInv(ListenNext(s, what))
  {
    hide WithoutClient;
  }

  lemma MainKeepsWakeups(s: State, ok: bool)
    requires MutexInv(s) && WakeupInv(s) && MainCan(s)
    ensures WakeupInv(MainNext(s, ok))
  {
  }

  lemma ClientKeepsWakeups(s: State, c: nat, message: Message, ok: bool)
    requires MutexInv(s) && WakeupInv(s) && ClientCan(s, c)
    ensures WakeupInv(ClientNext(s, c, message, ok))
  {
    hide CreateStep, FinishRun;
  }

  lemma ListenKeepsWakeups(s: State, what: Happening)
    requires SafetyInv(s) && ListenCan(s, what)
    ensures WakeupInv(ListenNext(s, what))
  {
    hide WithoutClient;
  }

  lemma {:induction false} OneLeaves(queue: seq<nat>, c: nat)
    requires c in queue
    ensures multiset(queue) == multiset(WithoutClient(queue, c)) + multiset{c}
  {
    assert queue == [queue[0]] + queue[1..];
    if queue[0] != c {
      OneLeaves(queue[1..], c);
    }
  }

  lemma RecordAccepts(queue: seq<nat>, hand: seq<nat>, joined: seq<nat>, n: nat)
    requires RecordInv(queue, hand, joined, n)
    ensures RecordInv(queue + [n], hand, joined, n + 1)
  {
    assert OnRecord(queue + [n], hand, joined) == OnRecord(queue, hand, joined) + multiset{n};
  }

  lemma RecordUnqueues(queue: seq<nat>, joined: seq<nat>, n: nat, c: nat)
    requires RecordInv(queue, [], joined, n) && c in queue
    ensures RecordInv(WithoutClient(queue, c), [c], joined, n)
  {
    OneLeaves(queue, c);
    assert OnRecord(WithoutClient(queue, c), [c], joined) == OnRecord(queue, [], joined);
  }

  lemma RecordShifts(queue: seq<nat>, joined: seq<nat>, n: nat)
    requires RecordInv(queue, [], joined, n) && queue != []
    ensures RecordInv(queue[1..], [queue[0]], joined, n)
  {
    assert queue == [queue[0]] + queue[1..];
    assert OnRecord(queue[1..], [queue[0]], joined) == OnRecord(queue, [], joined);
  }

  lemma RecordJoins(queue: seq<nat>, joined: seq<nat>, n: nat, c: nat)
    requires RecordInv(queue, [c], joined, n)
    ensures RecordInv(queue, [], joined + [c], n) && c < n
  {
    assert OnRecord(queue, [], joined + [c]) == OnRecord(queue, [c], joined);
    assert OnRecord(queue, [c], joined)[c] >= 1;
  }

  lemma MainKeepsThreads(s: State, ok: bool)
    requires ThreadsInv(s) && MainCan(s)
    ensures ThreadsInv(MainNext(s, ok))
  {
    hide Ready, RecordInv, TEARDOWN;
  }

  /** A client's step touches no other thread's counter, except that it may wake the main thread. */
  lemma ClientFrame(s: State, c: nat, message: Message, ok: bool)
    requires ClientCan(s, c)
    ensures
      var s' := ClientNext(s, c, message, ok);
      && s'.listen == s.listen && s'.clientQueue == s.clientQueue
      && s'.past.joined == s.past.joined && s'.past.destroyed == s.past.destroyed
      && (s'.main == s.main || s'.main == Notified(s.main))
      && |s'.clients| == |s.clients| && s'.clients == s.clients[c := s'.clients[c]]
      && (s.clients[c].Returning? ==> s'.clients[c].Done?)
  {
    hide CreateStep, FinishRun, WithRun, WithWorker;
  }

  lemma ClientKeepsThreads(s: State, c: nat, message: Message, ok: bool)
    requires ThreadsInv(s) && ClientCan(s, c)
    ensures ThreadsInv(ClientNext(s, c, message, ok))
  {
    hide ClientNext, RecordInv, TEARDOWN;
    ClientFrame(s, c, message, ok);
  }

  lemma TeardownStep(s: State, k: nat)
    requires ThreadsInv(s) && s.listen == Destroying(k) && k < |TEARDOWN|
    ensures ThreadsInv(Destroyed(s, TEARDOWN[k]).(listen := Destroying(k + 1)))
  {
    hide TEARDOWN, RecordInv;
    assert TEARDOWN[..k] + [TEARDOWN[k]] == TEARDOWN[..k + 1];
  }

  /** What the listening thread's step does to the record. */
  lemma ListenKeepsRecord(s: State, what: Happening)
    requires ThreadsInv(s) && ListenCan(s, what)
    ensures
      var s' := ListenNext(s, what);
      RecordInv(s'.clientQueue, BeingJoined(s'.listen), s'.past.joined, |s'.clients|)
  {
    hide Destroyed, TEARDOWN, WithoutClient, RecordInv;
    var queue, joined, n := s.clientQueue, s.past.joined, |s.clients|;
    if s.listen.Looping? && what.Accept? {
      RecordAccepts(queue, [], joined, n);
    } else if s.listen.Looping? && what.CleanUp? {
      RecordUnqueues(queue, joined, n, what.c);
    } else if s.listen.ClosingClients? && queue != [] {
      RecordShifts(queue, joined, n);
    } else if s.listen.Cleaning? || s.listen.Joining? {
      RecordJoins(queue, joined, n, s.listen.c);
    } else if s.listen.Destroying? {
      TeardownStep(s, s.listen.k);
    }
  }

  lemma ListenKeepsThreads(s: State, what: Happening)
    requires ThreadsInv(s) && ListenCan(s, what)
    ensures ThreadsInv(ListenNext(s, what))
  {
    hide Destroyed, TEARDOWN, WithoutClient, RecordInv;
    ListenKeepsRecord(s, what);
    if s.listen.Destroying? {
      TeardownStep(s, s.listen.k);
    }
  }

  /** Once teardown begins, every client thread has finished and been joined. */
  lemma RecordedOnce(s: State)
    requires ThreadsInv(s)
    ensures forall c :: multiset(s.past.joined)[c] <= 1
    ensures s.listen.Destroying? ==> forall c :: 0 <= c < |s.clients| ==>
      s.clients[c].Done? && multiset(s.past.joined)[c] == 1
  {
    hide TEARDOWN;
    forall c
      ensures multiset(s.past.joined)[c] <= 1
      ensures s.listen.Destroying? && 0 <= c < |s.clients| ==> s.clients[c].Done? && multiset(s.past.joined)[c] == 1
    {
      assert OnRecord(s.clientQueue, BeingJoined(s.listen), s.past.joined)[c] == if 0 <= c < |s.clients| then 1 else 0;
      assert multiset(s.past.joined)[c] > 0 ==> c in s.past.joined;
    }
  }

  lemma SafetyKept(s: State, a: Action)
    requires SafetyInv(s) && Can(s, a)
    ensures SafetyInv(Next(s, a))
  {
    hide MainNext, ClientNext, ListenNext;
    match a
    case MainStep(ok) =>
      MainKeepsMutex(s, ok);
      MainKeepsWakeups(s, ok);
      MainKeepsThreads(s, ok);
    case SpuriousWakeup =>
    case ClientStep(c, message, ok) =>
      ClientKeepsMutex(s, c, message, ok);
      ClientKeepsWakeups(s, c, message, ok);
      ClientKeepsThreads(s, c, message, ok);
    case ListenStep(what) =>
      ListenKeepsMutex(s, what);
      ListenKeepsWakeups(s, what);
      ListenKeepsThreads(s, what);
  }

  lemma {:induction false} SafetyAlways(s: State, actions: seq<Action>, s': State)
    requires SafetyInv(s) && Reaches(s, actions, s')
    ensures SafetyInv(s')
    decreases |actions|
  {
    hide SafetyInv, Next;
    if actions != [] {
      SafetyKept(s, actions[0]);
      SafetyAlways(Next(s, actions[0]), actions[1..], s');
    }
  }

  lemma InitiallySafe(runs: seq<Run>, tables: Tables)
    ensures SafetyInv(Initial(runs, tables))
  {
  }

  /**
   No wake-up is lost: whenever the mutex is free and the main thread sleeps unsignalled, there
   is nothing for it to do.
   */
  lemma NoLostWakeup(runs: seq<Run>, tables: Tables, actions: seq<Action>, s: State)
    requires Reaches(Initial(runs, tables), actions, s)
    ensures s.owner.None? && s.main.Asleep? ==>
      !s.shared.stopping && (s.shared.runs == [] || s.shared.workers == [])
  {
    InitiallySafe(runs, tables);
    SafetyAlways(Initial(runs, tables), actions, s);
  }

  /**
   A run is assigned only when there are a run and a worker, and never once stopping is set,
   which alone ends the loop.
   */
  lemma AssignsOnlyWhenReady(runs: seq<Run>, tables: Tables, actions: seq<Action>, s: State)
    requires Reaches(Initial(runs, tables), actions, s)
    ensures s.main.Assigning? ==> s.owner == Some(MainThread) && s.shared.runs != [] && s.shared.workers != []
    ensures s.shared.stopping ==> !s.main.Assigning? && !s.main.Sending? && !s.main.Retiring?
    ensures s.main.Exited? ==> s.shared.stopping
  {
    InitiallySafe(runs, tables);
    SafetyAlways(Initial(runs, tables), actions, s);
  }

  lemma StoppingIsForGood(s: State, a: Action)
    requires Can(s, a) && s.shared.stopping
    ensures Next(s, a).shared.stopping
  {
    hide CreateStep, FinishRun, WithoutClient;
  }

  /** At most one thread is ever inside a critical section. */
  lemma MutualExclusion(runs: seq<Run>, tables: Tables, actions: seq<Action>, s: State)
    requires Reaches(Initial(runs, tables), actions, s)
    ensures s.main.Holds() ==> !s.listen.Holds() && forall c :: 0 <= c < |s.clients| ==> !s.clients[c].Holds()
    ensures s.listen.Holds() ==> forall c :: 0 <= c < |s.clients| ==> !s.clients[c].Holds()
    ensures forall c, d :: 0 <= c < d < |s.clients| && s.clients[c].Holds() ==> !s.clients[d].Holds()
  {
    InitiallySafe(runs, tables);
    SafetyAlways(Initial(runs, tables), actions, s);
  }

  lemma OwnersHold(s: State)
    requires MutexInv(s)
    ensures s.owner.None? || s.main.Holds() || s.listen.Holds()
      || exists c :: 0 <= c < |s.clients| && s.clients[c].Holds()
  {
    if s.owner.Some? && s.owner.value.ClientThread? {
      assert s.clients[s.owner.value.c].Holds();
    }
  }

  /**
   Nothing is destroyed under a running thread: once the first resource is destroyed, the main
   thread has exited, every client thread ever created has finished and been joined, exactly
   once, nobody holds the mutex, and no thread but the one that destroys can take another step.
   */
  lemma SafeShutdown(runs: seq<Run>, tables: Tables, actions: seq<Action>, s: State)
    requires Reaches(Initial(runs, tables), actions, s)
    ensures s.past.destroyed <= TEARDOWN && (Mutex in s.past.destroyed ==> s.past.destroyed == TEARDOWN)
    ensures forall c :: multiset(s.past.joined)[c] <= 1
    ensures s.past.destroyed != [] ==>
      && s.main.Exited? && s.owner.None? && s.clientQueue == []
      && (forall c :: 0 <= c < |s.clients| ==> s.clients[c].Done? && multiset(s.past.joined)[c] == 1)
      && (forall a :: Can(s, a) ==> a.ListenStep?)
  {
    InitiallySafe(runs, tables);
    SafetyAlways(Initial(runs, tables), actions, s);
    hide Reaches, WakeupInv;
    RecordedOnce(s);
    if s.past.destroyed != [] {
      OwnersHold(s);
      forall a | Can(s, a)
        ensures a.ListenStep?
      {
      }
    }
  }
}
