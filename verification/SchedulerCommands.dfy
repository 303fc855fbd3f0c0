/**
 The client threads of the state machine and the command handlers are the same code: a client
 thread that is not interrupted does to the database and the queues what the dispatcher does.
 */
module SchedulerCommands {
  import opened Results
  import opened Json
  import opened JsonRpc
  import opened Protocol
  import opened Storage
  import opened RunCreation
  import opened ServerState
  import opened Command
  import opened ServerCommands
  import opened Scheduler

  /** What a received value is to a client thread. */
  function MessageOf(received: Option<Json>): Message {
    if received.None? || !IsRequest(received.value) then NoMessage
    else
      var request, name := received.value, GetString(received.value, KEY_METHOD);
      var answered := !IsNotification(request);
      if name == Some(CMD_QUEUE_RUN) then
        (match ParseQueueRun(request)
         case Some(run) => if answered then QueueRun(run.url, run.rev) else Other(false)
         case None => Other(answered))
      else if name == Some(CMD_NEW_WORKER) then NewWorker(answered)
      else if name == Some(CMD_FINISHED_RUN) then
        (match ParseFinishedRun(request)
         case Some((id, output)) => FinishedRun(id, output, answered)
         case None => Other(answered))
      else Other(answered)
  }

  function HubOf(s: State): Hub {
    Hub(s.tables, s.shared, s.duplicated)
  }

  /** What the dispatcher does to the hub, if anything was received. */
  ghost function Dispatches(received: Option<Json>, hub: Hub, f: Faults): Hub {
    if received.None? || !IsRequest(received.value) then hub
    else Dispatch(Commands(f), received.value, hub).state
  }

  /** The same from the message alone. */
  function Handled(message: Message, hub: Hub, f: Faults): Hub {
    match message
    case QueueRun(url, rev) =>
      var (tables, ret) := RunCreate(hub.tables, url, rev, f);
      var run := RunQueued(url, rev);
      hub.(tables := tables, shared := if ret < 0 then hub.shared else WithRun(hub.shared, run.(id := ret)))
    case NewWorker(_) =>
      if f.duplicates
        then hub.(shared := WithWorker(hub.shared, hub.duplicated), duplicated := hub.duplicated + 1)
        else hub
    case FinishedRun(id, output, _) => if f.finishes then hub.(tables := FinishRun(hub.tables, id, output)) else hub
    case _ => hub
  }

  lemma DispatchIsHandled(received: Option<Json>, hub: Hub, f: Faults)
    ensures Dispatches(received, hub, f) == Handled(MessageOf(received), hub, f)
  {
    hide Commands, Dispatch, RunCreate, ErrorResponse, ResultResponse, IsNotification, ParseFinishedRun, GetParamString;
    if received.Some? && IsRequest(received.value) {
      Dispatched(received.value, hub, f);
      NamesDiffer();
      ResponsesConform(received.value, Null, DEFAULT_ERROR_CODE, DEFAULT_ERROR_MESSAGE);
    }
  }

  // ---- a client thread alone ----

  predicate OnlyClient(actions: seq<Action>, c: nat) {
    forall i :: 0 <= i < |actions| ==> actions[i].ClientStep? && actions[i].c == c
  }

  /** Reached from `start` by steps of client `c` only. */
  ghost predicate Alone(start: State, actions: seq<Action>, s: State, c: nat) {
    Reaches(start, actions, s) && OnlyClient(actions, c)
  }

  /** Of the client threads only `c` has moved. */
  predicate OnlyMoved(before: seq<ClientPc>, after: seq<ClientPc>, c: nat) {
    c < |before| == |after| && after == before[c := after[c]]
  }

  lemma StillOnlyMoved(before: seq<ClientPc>, middle: seq<ClientPc>, after: seq<ClientPc>, c: nat)
    requires OnlyMoved(before, middle, c) && OnlyMoved(middle, after, c)
    ensures OnlyMoved(before, after, c)
  {
  }

  lemma ThenClient(start: State, actions: seq<Action>, s: State, c: nat, message: Message, ok: bool)
    returns (actions': seq<Action>, s': State)
    requires Alone(start, actions, s, c) && ClientCan(s, c)
    ensures Alone(start, actions', s', c) && s' == ClientNext(s, c, message, ok)
  {
    hide Reaches, ClientNext;
    actions', s' := Then(start, actions, s, ClientStep(c, message, ok));
    actions' := actions + [ClientStep(c, message, ok)];
    ReachesOneMore(start, actions, s, ClientStep(c, message, ok));
  }

  /** The three statements of a creation, or as many as succeed and one that fails. */
  lemma CreatesAlone(start: State, actions: seq<Action>, s: State, c: nat, run: Run, f: Faults)
    returns (actions': seq<Action>, s': State)
    requires Alone(start, actions, s, c) && c < |s.clients| && s.clients[c] == Creating(run, InsertingRepo)
    ensures Alone(start, actions', s', c)
    ensures
      var (tables, stage) := CreateAlone(s.tables, run.url, run.rev, f.insertsRepo, f.findsRepo, f.insertsRun);
      stage.Ended() && s' == s.(tables := tables, clients := s.clients[c := AfterStage(run, stage)])
  {
    hide Alone, CreateStep;
    StagesFollow(s.tables, run.url, run.rev, f);
    actions', s' := ThenClient(start, actions, s, c, NoMessage, f.insertsRepo);
    var (t1, stage1) := CreateStep(s.tables, run.url, run.rev, InsertingRepo, f.insertsRepo);
    if s'.clients[c].Creating? {
      var s1 := s';
      actions', s' := ThenClient(start, actions', s', c, NoMessage, f.findsRepo);
      StillOnlyMoved(s.clients, s1.clients, s'.clients, c);
      assert s1.clients[c] == Creating(run, stage1);
      var (t2, stage2) := CreateStep(t1, run.url, run.rev, stage1, f.findsRepo);
      assert s'.clients[c] == AfterStage(run, stage2);
      if s'.clients[c].Creating? {
        var s2 := s';
        actions', s' := ThenClient(start, actions', s', c, NoMessage, f.insertsRun);
        StillOnlyMoved(s.clients, s2.clients, s'.clients, c);
      }
    }
  }

  /** Each stage that has not ended is followed by the next. */
  lemma StagesFollow(t: Tables, url: string, rev: string, f: Faults)
    ensures CreateAlone(t, url, rev, f.insertsRepo, f.findsRepo, f.insertsRun).1.Ended()
  {
    hide InsertRepo, FindRepo, InsertRun, RepoExists, NextRunId, ToInt32;
  }

  /** The critical section of a job. */
  lemma EnqueuesAlone(start: State, actions: seq<Action>, s: State, c: nat, job: Job)
    returns (actions': seq<Action>, s': State)
    requires Alone(start, actions, s, c) && c < |s.clients| && s.clients[c] == Locking(job) && s.owner.None?
    ensures Alone(start, actions', s', c)
    ensures s' == Appended(s, job).(main := Notified(s.main), clients := s.clients[c := AnswerTo(job)])
  {
    hide Alone, Appended;
    AppendedFrame(s, job);
    actions', s' := ThenClient(start, actions, s, c, NoMessage, true);
    actions', s' := ThenClient(start, actions', s', c, NoMessage, true);
    AppendedCommutes(s, job, c);
    actions', s' := ThenClient(start, actions', s', c, NoMessage, true);
    actions', s' := ThenClient(start, actions', s', c, NoMessage, true);
  }

  lemma AppendedFrame(s: State, job: Job)
    ensures
      var s' := Appended(s, job);
      && s'.owner == s.owner && s'.tables == s.tables && s'.main == s.main && s'.clients == s.clients
      && s'.clientQueue == s.clientQueue && s'.listen == s.listen && s'.duplicated == s.duplicated
      && s'.past.acknowledged == s.past.acknowledged && s'.past.unanswered == s.past.unanswered
      && s'.shared.runs == s.shared.runs + ToAcknowledge(AnswerTo(job))
  {
  }

  /** The run whose queue-run is about to be answered. */
  function ToAcknowledge(pc: ClientPc): seq<Run> {
    if pc.Responding? && pc.reply.Acknowledged? then [pc.reply.run] else []
  }

  /** What was queued since is to be acknowledged. */
  predicate Owes(s: State, s': State, c: nat) {
    && c < |s'.clients| && s'.past.acknowledged == s.past.acknowledged && s'.past.unanswered == s.past.unanswered
    && s'.shared.runs == s.shared.runs + ToAcknowledge(s'.clients[c])
  }

  lemma AppendedCommutes(s: State, job: Job, c: nat)
    requires c < |s.clients|
    ensures Appended(s.(owner := Some(ClientThread(c)), clients := s.clients[c := Appending(job)]), job) ==
      Appended(s, job).(owner := Some(ClientThread(c)), clients := s.clients[c := Appending(job)])
  {
  }

  /**
   A client thread that receives this value and is not interrupted comes to its announcement with
   the database, the queues and the descriptors as the dispatcher leaves them, and the mutex free.
   What it has queued is acknowledged, if the socket takes the response.
   */
  lemma ClientDoesAsServed(s: State, c: nat, received: Option<Json>, f: Faults, sendOk: bool)
    returns (actions: seq<Action>, s': State)
    requires c < |s.clients| && s.clients[c].Receiving? && s.owner.None?
    ensures Reaches(s, actions, s') && OnlyClient(actions, c)
    ensures HubOf(s') == Dispatches(received, HubOf(s), f)
    ensures s'.clients == s.clients[c := Announcing] && s'.owner.None? && s'.listen == s.listen
      && s'.clientQueue == s.clientQueue
    ensures s'.main == s.main || s'.main == Notified(s.main)
    ensures s.shared.runs <= s'.shared.runs
    ensures
      var queued := s'.shared.runs[|s.shared.runs|..];
      && s'.past.acknowledged == s.past.acknowledged + (if sendOk then queued else [])
      && s'.past.unanswered == s.past.unanswered + (if sendOk then [] else queued)
  {
    DispatchIsHandled(received, HubOf(s), f);
    hide Dispatches, Reaches, FinishRun, MessageOf;
    var message := MessageOf(received);
    NoSteps(s);
    actions, s' := ThenClient(s, [], s, c, message, true);
    var s1 := s';
    hide ClientNext;
    match message {
      case QueueRun(url, rev) => actions, s' := RunQueuedAlone(s, actions, s', c, RunQueued(url, rev), f);
      case NewWorker(answered) => actions, s' := WorkerQueuedAlone(s, actions, s', c, answered, f);
      case FinishedRun(id, output, answered) => actions, s' := ReportsAlone(s, actions, s', c, id, output, answered, f);
      case _ =>
    }
    StillOnlyMoved(s.clients, s1.clients, s'.clients, c);
    var s2 := s';
    actions, s' := RespondsAlone(s, actions, s', c, sendOk);
    StillOnlyMoved(s.clients, s2.clients, s'.clients, c);
  }

  lemma RunQueuedAlone(start: State, actions: seq<Action>, s: State, c: nat, run: Run, f: Faults)
    returns (actions': seq<Action>, s': State)
    requires Alone(start, actions, s, c) && c < |s.clients| && s.clients[c] == Creating(run, InsertingRepo)
      && s.owner.None?
    ensures Alone(start, actions', s', c) && Rests(s, s', c) && Owes(s, s', c)
    ensures
      var (tables, ret) := RunCreate(s.tables, run.url, run.rev, f);
      HubOf(s') == Hub(tables, if ret < 0 then s.shared else WithRun(s.shared, run.(id := ret)), s.duplicated)
  {
    hide Alone, CreateAlone;
    CreatedIdsAreNatural(s.tables, run, f);
    actions', s' := CreatesAlone(start, actions, s, c, run, f);
    if s'.clients[c].Locking? {
      var s1 := s';
      actions', s' := EnqueuesAlone(start, actions', s', c, s'.clients[c].job);
      StillOnlyMoved(s.clients, s1.clients, s'.clients, c);
    }
  }

  lemma CreatedIdsAreNatural(t: Tables, run: Run, f: Faults)
    ensures
      var stage := CreateAlone(t, run.url, run.rev, f.insertsRepo, f.findsRepo, f.insertsRun).1;
      stage.Created? ==> stage.id >= 0
  {
    hide InsertRepo, FindRepo, InsertRun, RepoExists, NextRunId, ToInt32;
  }

  lemma WorkerQueuedAlone(start: State, actions: seq<Action>, s: State, c: nat, answered: bool, f: Faults)
    returns (actions': seq<Action>, s': State)
    requires Alone(start, actions, s, c) && c < |s.clients| && s.clients[c] == Duplicating(answered) && s.owner.None?
    ensures Alone(start, actions', s', c) && Rests(s, s', c) && Owes(s, s', c)
    ensures HubOf(s') == Handled(NewWorker(answered), HubOf(s), f)
  {
    hide Alone;
    actions', s' := ThenClient(start, actions, s, c, NoMessage, f.duplicates);
    if s'.clients[c].Locking? {
      var s1 := s';
      actions', s' := EnqueuesAlone(start, actions', s', c, s'.clients[c].job);
      StillOnlyMoved(s.clients, s1.clients, s'.clients, c);
    }
  }

  lemma ReportsAlone(start: State, actions: seq<Action>, s: State, c: nat, id: int32, output: ProcessOutput,
                     answered: bool, f: Faults)
    returns (actions': seq<Action>, s': State)
    requires Alone(start, actions, s, c) && c < |s.clients| && s.clients[c] == Reporting(id, output, answered)
      && s.owner.None?
    ensures Alone(start, actions', s', c) && Rests(s, s', c) && Owes(s, s', c)
    ensures HubOf(s') == Handled(FinishedRun(id, output, answered), HubOf(s), f)
  {
    hide Alone, FinishRun;
    actions', s' := ThenClient(start, actions, s, c, NoMessage, f.finishes);
  }

  /** The handler has returned; of the other threads at most the main thread was woken. */
  predicate Rests(s: State, s': State, c: nat) {
    && c < |s.clients| == |s'.clients| && s'.clients == s.clients[c := s'.clients[c]]
    && (s'.clients[c].Responding? || s'.clients[c].Announcing?)
    && s'.owner.None? && s'.listen == s.listen && s'.clientQueue == s.clientQueue
    && (s'.main == s.main || s'.main == Notified(s.main))
  }

  lemma RespondsAlone(start: State, actions: seq<Action>, s: State, c: nat, sendOk: bool)
    returns (actions': seq<Action>, s': State)
    requires Alone(start, actions, s, c) && Rests(s, s, c)
    ensures Alone(start, actions', s', c) && HubOf(s') == HubOf(s)
    ensures
      var due := ToAcknowledge(s.clients[c]);
      && s'.past.acknowledged == s.past.acknowledged + (if sendOk then due else [])
      && s'.past.unanswered == s.past.unanswered + (if sendOk then [] else due)
    ensures s'.clients == s.clients[c := Announcing] && s'.owner.None? && s'.listen == s.listen
      && s'.clientQueue == s.clientQueue
    ensures s'.main == s.main
  {
    hide Alone;
    actions', s' := actions, s;
    if s.clients[c].Responding? {
      actions', s' := ThenClient(start, actions, s, c, NoMessage, sendOk);
    }
  }
}
