/**
 The server as a state machine over its threads: the main thread that assigns runs, the
 listening thread that accepts, cleans up and finally destroys, and one thread per client.
 Every critical section and every gap between them is a step.
 */
module Scheduler {
  import opened Results
  import opened Protocol
  import opened Storage
  import opened RunCreation
  import opened ServerState

  datatype Thread = MainThread | Listener | ClientThread(c: nat)

  /** `server_main_thread`. */
  datatype MainPc =
    | Starting                        // about to lock
    | Checking                        // holds the lock, at the condition
    | Asleep                          // in the condition wait
    | Woken                           // signalled or spuriously woken, about to lock again
    | Assigning                       // holds the lock, in server_assign_run
    | Sending(run: Run, worker: nat)  // holds the lock, both taken off their queues
    | Retiring(worker: nat)           // holds the lock, the send is settled
    | Leaving                         // holds the lock, after the loop
    | Exited
  {
    predicate Holds() {
      Checking? || Assigning? || Sending? || Retiring? || Leaving?
    }
  }

  /** What a client thread adds to a queue. */
  datatype Job = AddRun(run: Run) | AddWorker(fd: nat, answered: bool)

  datatype Reply = Acknowledged(run: Run) | Plain

  /**
   A client thread: it receives one request, handles it, responds if the request had an id
   (`answered`), and announces its end.
   */
  datatype ClientPc =
    | Receiving
    | Creating(run: Run, stage: NextStage)  // in storage_run_create
    | Duplicating(answered: bool)
    | Reporting(id: int32, output: ProcessOutput, answered: bool)
    | Locking(job: Job)               // about to lock
    | Appending(job: Job)             // holds the lock
    | Notifying(job: Job)             // holds the lock, the queue is extended
    | Unlocking(job: Job)             // holds the lock
    | Responding(reply: Reply)
    | Announcing                      // about to write the eventfd
    | Returning                       // the eventfd is readable
    | Done
  {
    predicate Holds() {
      Appending? || Notifying? || Unlocking?
    }

    /** A job not yet in its queue. */
    predicate Pending() {
      Locking? || Appending?
    }
  }

  /** `server_listen_thread`, then `server_destroy`. */
  datatype ListenPc =
    | Looping                         // in the event loop
    | StopLocking                     // server_set_stopping: about to lock
    | StopSetting                     // holds the lock
    | StopNotifying                   // holds the lock, stopping is set
    | StopUnlocking                   // holds the lock
    | Cleaning(c: nat)                // client_destroy from the event loop: about to join
    | JoiningMain                     // server_destroy begins
    | ClosingClients                  // client_queue_destroy
    | Joining(c: nat)                 // client_destroy at shutdown: about to join
    | Destroying(k: nat)              // the first k resources are destroyed
  {
    predicate Holds() {
      StopSetting? || StopNotifying? || StopUnlocking?
    }
  }

  datatype Resource = StorageHandle | RunQueue | WorkerQueue | SignalFd | EventLoopHandle | Dispatcher | CondVar | Mutex

  /** The order of `server_destroy`. */
  const TEARDOWN: seq<Resource> :=
    [StorageHandle, RunQueue, WorkerQueue, SignalFd, EventLoopHandle, Dispatcher, CondVar, Mutex]

  /** What has happened, for stating properties; no step reads it. */
  datatype Past = Past(
    appended: seq<Run>,               // runs put at the end of the run queue
    dispatched: seq<Run>,             // runs sent to a worker
    discarded: seq<Run>,              // runs freed with the run queue
    enqueued: seq<nat>,               // workers put at the end of the worker queue
    offered: seq<nat>,                // workers a start-run was sent to, or failed to be
    served: seq<nat>,                 // workers retired after that
    dropped: seq<nat>,                // workers destroyed with the worker queue
    closed: seq<nat>,                 // worker descriptors closed
    acknowledged: seq<Run>,           // non-error responses to queue-run
    unanswered: seq<Run>,             // the same, when the socket did not take them
    joined: seq<nat>,                 // client threads joined
    destroyed: seq<Resource>)

  datatype State = State(
    owner: Option<Thread>,            // of the mutex
    shared: Shared,
    tables: Tables,
    main: MainPc,
    clients: seq<ClientPc>,           // every client thread ever created
    clientQueue: seq<nat>,
    listen: ListenPc,
    duplicated: nat,                  // worker descriptors are numbered as they are duplicated
    past: Past)

  const NOTHING_YET := Past([], [], [], [], [], [], [], [], [], [], [], [])

  function Initial(runs: seq<Run>, tables: Tables): State {
    State(None, Shared(false, runs, []), tables, Starting, [], [], Looping, 0, NOTHING_YET)
  }

  /** What a client thread receives; a queue-run without an id is `Other(false)`: it changes nothing. */
  datatype Message =
    | NoMessage                       // nothing acceptable
    | QueueRun(url: string, rev: string)
    | NewWorker(answered: bool)
    | FinishedRun(id: int32, output: ProcessOutput, answered: bool)
    | Other(answered: bool)           // get-runs and what is refused

  datatype Happening = Accept | Signal | CleanUp(c: nat) | Leave | Proceed

  /** `ok` answers the fallible call of the step: a statement, a duplication, a send. */
  datatype Action =
    | MainStep(ok: bool)
    | SpuriousWakeup
    | ClientStep(c: nat, message: Message, ok: bool)
    | ListenStep(what: Happening)

  // ---- the steps ----

  predicate MainCan(s: State) {
    match s.main
    case Starting => s.owner.None?
    case Woken => s.owner.None?
    case Asleep => false
    case Exited => false
    case Assigning => s.shared.runs != [] && s.shared.workers != []
    case _ => true
  }

  function MainNext(s: State, ok: bool): State
    requires MainCan(s)
  {
    var q, past := s.shared, s.past;
    match s.main
    case Starting => s.(owner := Some(MainThread), main := Checking)
    case Woken => s.(owner := Some(MainThread), main := Checking)
    case Checking =>
      if !Ready(q) then s.(owner := None, main := Asleep)
      else s.(main := if q.stopping then Leaving else Assigning)
    case Assigning => s.(shared := Taken(q), main := Sending(q.runs[0], q.workers[0]))
    case Sending(run, worker) =>
      s.(shared := Settled(q, run, ok), main := Retiring(worker),
         past := past.(offered := past.offered + [worker],
                       dispatched := if ok then past.dispatched + [run] else past.dispatched))
    case Retiring(worker) =>
      s.(main := Checking, past := past.(served := past.served + [worker], closed := past.closed + [worker]))
    case Leaving => s.(owner := None, main := Exited)
    case _ => s
  }

  /** `pthread_cond_signal`: only the main thread waits. */
  function Notified(main: MainPc): MainPc {
    if main.Asleep? then Woken else main
  }

  predicate ClientCan(s: State, c: nat) {
    c < |s.clients| && !s.clients[c].Done? && (s.clients[c].Locking? ==> s.owner.None?)
  }

  function Go(s: State, c: nat, pc: ClientPc): State
    requires c < |s.clients|
  {
    s.(clients := s.clients[c := pc])
  }

  /** After the handler, with or without a response to send. */
  function Answer(answered: bool): ClientPc {
    if answered then Responding(Plain) else Announcing
  }

  /** The first step of a command handler. */
  function Begun(message: Message): ClientPc {
    match message
    case NoMessage => Announcing
    case QueueRun(url, rev) => Creating(RunQueued(url, rev), InsertingRepo)
    case NewWorker(answered) => Duplicating(answered)
    case FinishedRun(id, output, answered) => Reporting(id, output, answered)
    case Other(answered) => Answer(answered)
  }

  function Appended(s: State, job: Job): State {
    match job
    case AddRun(run) => s.(shared := WithRun(s.shared, run), past := s.past.(appended := s.past.appended + [run]))
    case AddWorker(fd, _) => s.(shared := WithWorker(s.shared, fd), past := s.past.(enqueued := s.past.enqueued + [fd]))
  }

  /** The response a handler's success leads to. */
  function AnswerTo(job: Job): ClientPc {
    match job
    case AddRun(run) => Responding(Acknowledged(run))
    case AddWorker(_, answered) => Answer(answered)
  }

  function Responded(s: State, reply: Reply, ok: bool): State {
    if !reply.Acknowledged? then s
    else if ok then s.(past := s.past.(acknowledged := s.past.acknowledged + [reply.run]))
    else s.(past := s.past.(unanswered := s.past.unanswered + [reply.run]))
  }

  /** Where the thread goes when a statement of `storage_run_create` has been executed. */
  function AfterStage(run: Run, stage: Stage): ClientPc {
    match stage
    case Created(id) => Locking(AddRun(run.(id := id)))
    case Failed => Responding(Plain)
    case _ => Creating(run, stage)
  }

  function ClientNext(s: State, c: nat, message: Message, ok: bool): State
    requires ClientCan(s, c)
  {
    match s.clients[c]
    case Receiving => Go(s, c, Begun(message))
    case Creating(run, stage) =>
      var (tables, stage') := CreateStep(s.tables, run.url, run.rev, stage, ok);
      Go(s.(tables := tables), c, AfterStage(run, stage'))
    case Duplicating(answered) =>
      if ok then Go(s.(duplicated := s.duplicated + 1), c, Locking(AddWorker(s.duplicated, answered)))
      else Go(s, c, Answer(answered))
    case Reporting(id, output, answered) =>
      Go(if ok then s.(tables := FinishRun(s.tables, id, output)) else s, c, Answer(answered))
    case Locking(job) => Go(s.(owner := Some(ClientThread(c))), c, Appending(job))
    case Appending(job) => Go(Appended(s, job), c, Notifying(job))
    case Notifying(job) => Go(s.(main := Notified(s.main)), c, Unlocking(job))
    case Unlocking(job) => Go(s.(owner := None), c, AnswerTo(job))
    case Responding(reply) => Go(Responded(s, reply, ok), c, Announcing)
    case Announcing => Go(s, c, Returning)
    case Returning => Go(s, c, Done)
    case Done => s
  }

  predicate ListenCan(s: State, what: Happening) {
    match s.listen
    case Looping =>
      (match what
       case CleanUp(c) => c in s.clientQueue && c < |s.clients| && (s.clients[c].Returning? || s.clients[c].Done?)
       case Proceed => false
       case _ => true)
    case StopLocking => s.owner.None?
    case Cleaning(c) => c < |s.clients| && s.clients[c].Done?
    case Joining(c) => c < |s.clients| && s.clients[c].Done?
    case JoiningMain => s.main.Exited?
    case Destroying(k) => k < |TEARDOWN|
    case _ => true
  }

  function WithoutClient(queue: seq<nat>, c: nat): seq<nat> {
    if queue == [] then []
    else if queue[0] == c then queue[1..]
    else [queue[0]] + WithoutClient(queue[1..], c)
  }

  function JoinedThread(s: State, c: nat): State {
    s.(past := s.past.(joined := s.past.joined + [c]))
  }

  function Destroyed(s: State, r: Resource): State {
    var q, past := s.shared, s.past.(destroyed := s.past.destroyed + [r]);
    match r
    case RunQueue => s.(shared := q.(runs := []), past := past.(discarded := past.discarded + q.runs))
    case WorkerQueue =>
      s.(shared := q.(workers := []),
         past := past.(dropped := past.dropped + q.workers, closed := past.closed + q.workers))
    case _ => s.(past := past)
  }

  function ListenNext(s: State, what: Happening): State
    requires ListenCan(s, what)
  {
    match s.listen
    case Looping =>
      (match what
       case Accept => s.(clients := s.clients + [Receiving], clientQueue := s.clientQueue + [|s.clients|])
       case Signal => s.(listen := StopLocking)
       case CleanUp(c) => s.(clientQueue := WithoutClient(s.clientQueue, c), listen := Cleaning(c))
       // The loop ends because stopping is set, or because the event loop failed.
       case Leave => s.(listen := JoiningMain)
       case Proceed => s)
    case StopLocking => s.(owner := Some(Listener), listen := StopSetting)
    case StopSetting => s.(shared := Stopped(s.shared), listen := StopNotifying)
    case StopNotifying => s.(main := Notified(s.main), listen := StopUnlocking)
    case StopUnlocking => s.(owner := None, listen := Looping)
    case Cleaning(c) => JoinedThread(s, c).(listen := Looping)
    case JoiningMain => s.(listen := ClosingClients)
    case ClosingClients =>
      if s.clientQueue == [] then s.(listen := Destroying(0))
      else s.(clientQueue := s.clientQueue[1..], listen := Joining(s.clientQueue[0]))
    case Joining(c) => JoinedThread(s, c).(listen := ClosingClients)
    case Destroying(k) => Destroyed(s, TEARDOWN[k]).(listen := Destroying(k + 1))
  }

  predicate Can(s: State, a: Action) {
    match a
    case MainStep(_) => MainCan(s)
    case SpuriousWakeup => s.main.Asleep?
    case ClientStep(c, _, _) => ClientCan(s, c)
    case ListenStep(what) => ListenCan(s, what)
  }

  function Next(s: State, a: Action): State
    requires Can(s, a)
  {
    match a
    case MainStep(ok) => MainNext(s, ok)
    case SpuriousWakeup => s.(main := Woken)
    case ClientStep(c, message, ok) => ClientNext(s, c, message, ok)
    case ListenStep(what) => ListenNext(s, what)
  }

  ghost predicate Reaches(s: State, actions: seq<Action>, s': State)
    decreases |actions|
  {
    if actions == [] then s' == s
    else Can(s, actions[0]) && Reaches(Next(s, actions[0]), actions[1..], s')
  }

  lemma {:induction false} ReachesFurther(s: State, first: seq<Action>, s1: State, second: seq<Action>, s2: State)
    requires Reaches(s, first, s1) && Reaches(s1, second, s2)
    ensures Reaches(s, first + second, s2)
    decreases |first|
  {
    hide Next;
    if first == [] {
      assert first + second == second;
    } else {
      assert (first + second)[1..] == first[1..] + second;
      ReachesFurther(Next(s, first[0]), first[1..], s1, second, s2);
    }
  }

  lemma ReachesOneMore(s: State, actions: seq<Action>, s': State, a: Action)
    requires Reaches(s, actions, s') && Can(s', a)
    ensures Reaches(s, actions + [a], Next(s', a))
  {
    hide Next, Can;
    assert [a][1..] == [];
    assert Reaches(Next(s', a), [], Next(s', a));
    ReachesFurther(s, actions, s', [a], Next(s', a));
  }

  // ---- runs of the machine, step by step ----

  lemma NoSteps(s: State)
    ensures Reaches(s, [], s)
  {
  }

  lemma Then(start: State, actions: seq<Action>, s: State, a: Action) returns (actions': seq<Action>, s': State)
    requires Reaches(start, actions, s) && Can(s, a)
    ensures Reaches(start, actions', s') && s' == Next(s, a)
  {
    actions', s' := actions + [a], Next(s, a);
    ReachesOneMore(start, actions, s, a);
  }
}
