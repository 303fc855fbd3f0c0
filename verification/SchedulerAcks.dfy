/** What an acknowledgement is worth: the run is queued, and its row says what was asked for. */
module SchedulerAcks {
  import opened Results
  import opened Protocol
  import opened Storage
  import opened RunCreation
  import opened ServerState
  import opened Scheduler
  import opened SchedulerSafety
  import opened SchedulerQueues
  import opened SchedulerRows

  // ---- what is queued is acknowledged, and nothing else ----

  /** The run a client thread has queued and has yet to acknowledge, if any. */
  function Owed(pc: ClientPc): Option<Run> {
    if (pc.Notifying? || pc.Unlocking?) && pc.job.AddRun? then Some(pc.job.run)
    else if pc.Responding? && pc.reply.Acknowledged? then Some(pc.reply.run)
    else None
  }

  function AllOwed(clients: seq<ClientPc>): (owed: seq<Option<Run>>)
    ensures |owed| == |clients| && forall c :: 0 <= c < |clients| ==> owed[c] == Owed(clients[c])
  {
    seq(|clients|, c requires 0 <= c < |clients| => Owed(clients[c]))
  }

  /** Each run queued is acknowledged, was sent an acknowledgement in vain, or is owed one. */
  ghost predicate Settles(appended: seq<Run>, acknowledged: seq<Run>, unanswered: seq<Run>, owed: seq<Option<Run>>) {
    forall run ::
      multiset(appended)[run] == multiset(acknowledged)[run] + multiset(unanswered)[run] + multiset(owed)[Some(run)]
  }

  ghost predicate AcksInv(s: State) {
    Settles(s.past.appended, s.past.acknowledged, s.past.unanswered, AllOwed(s.clients))
  }

  lemma OwedUpdated(clients: seq<ClientPc>, c: nat, pc: ClientPc)
    requires c < |clients|
    ensures AllOwed(clients[c := pc]) == AllOwed(clients)[c := Owed(pc)]
    ensures Owed(pc) == Owed(clients[c]) ==> AllOwed(clients[c := pc]) == AllOwed(clients)
  {
  }

  lemma NewClientOwesNothing(clients: seq<ClientPc>)
    ensures AllOwed(clients + [Receiving]) == AllOwed(clients) + [None]
  {
  }

  lemma DebtIncurred(appended: seq<Run>, acknowledged: seq<Run>, unanswered: seq<Run>, owed: seq<Option<Run>>, c: nat,
                     run: Run)
    requires Settles(appended, acknowledged, unanswered, owed) && c < |owed| && owed[c] == None
    ensures Settles(appended + [run], acknowledged, unanswered, owed[c := Some(run)])
  {
  }

  lemma DebtSettled(appended: seq<Run>, acknowledged: seq<Run>, unanswered: seq<Run>, owed: seq<Option<Run>>, c: nat,
                    run: Run)
    requires Settles(appended, acknowledged, unanswered, owed) && c < |owed| && owed[c] == Some(run)
    ensures Settles(appended, acknowledged + [run], unanswered, owed[c := None])
    ensures Settles(appended, acknowledged, unanswered + [run], owed[c := None])
  {
  }

  lemma NobodyOwed(appended: seq<Run>, acknowledged: seq<Run>, unanswered: seq<Run>, owed: seq<Option<Run>>)
    requires Settles(appended, acknowledged, unanswered, owed)
    ensures Settles(appended, acknowledged, unanswered, owed + [None])
  {
  }

  /** A client's own step: what it queues, what it acknowledges, what it owes next. */
  lemma ClientOwes(s: State, c: nat, message: Message, ok: bool)
    requires ClientCan(s, c)
    ensures
      var s', pc := ClientNext(s, c, message, ok), s.clients[c];
      var responding := pc.Responding? && pc.reply.Acknowledged?;
      && s'.clients == s.clients[c := s'.clients[c]]
      && (if pc.Appending? && pc.job.AddRun? then
            s'.past.appended == s.past.appended + [pc.job.run] && Owed(s'.clients[c]) == Some(pc.job.run)
          else s'.past.appended == s.past.appended)
      && (if responding && ok then s'.past.acknowledged == s.past.acknowledged + [pc.reply.run]
          else s'.past.acknowledged == s.past.acknowledged)
      && (if responding && !ok then s'.past.unanswered == s.past.unanswered + [pc.reply.run]
          else s'.past.unanswered == s.past.unanswered)
      && (responding ==> Owed(s'.clients[c]) == None)
      && (!responding && !(pc.Appending? && pc.job.AddRun?) ==> Owed(s'.clients[c]) == Owed(pc))
  {
    hide CreateStep, FinishRun, WithRun, WithWorker;
  }

  lemma AcksKept(s: State, a: Action)
    requires AcksInv(s) && Can(s, a)
    ensures AcksInv(Next(s, a))
  {
    hide ClientNext, Settles, AllOwed, WithoutClient, Ready, TEARDOWN;
    if a.ListenStep? {
      NewClientOwesNothing(s.clients);
      NobodyOwed(s.past.appended, s.past.acknowledged, s.past.unanswered, AllOwed(s.clients));
    } else if a.ClientStep? {
      ClientKeepsAcks(s, a.c, a.message, a.ok);
    }
  }

  lemma ClientKeepsAcks(s: State, c: nat, message: Message, ok: bool)
    requires AcksInv(s) && ClientCan(s, c)
    ensures AcksInv(ClientNext(s, c, message, ok))
  {
    hide ClientNext, Settles;
    ClientOwes(s, c, message, ok);
    var past, owed, pc := s.past, AllOwed(s.clients), s.clients[c];
    OwedUpdated(s.clients, c, ClientNext(s, c, message, ok).clients[c]);
    if pc.Appending? && pc.job.AddRun? {
      DebtIncurred(past.appended, past.acknowledged, past.unanswered, owed, c, pc.job.run);
    } else if pc.Responding? && pc.reply.Acknowledged? {
      DebtSettled(past.appended, past.acknowledged, past.unanswered, owed, c, pc.reply.run);
    }
  }

  lemma {:induction false} AcksAlways(s: State, actions: seq<Action>, s': State)
    requires AcksInv(s) && Reaches(s, actions, s')
    ensures AcksInv(s')
    decreases |actions|
  {
    hide AcksInv, Next;
    if actions != [] {
      AcksKept(s, actions[0]);
      AcksAlways(Next(s, actions[0]), actions[1..], s');
    }
  }

  /**
   An acknowledgement implies work, however the threads interleave and whatever other clients
   send: a run whose queue-run was answered without an error was appended to the run queue, and
   has a row with its revision and the repository found for its url, whose id reads as the run's;
   with fewer than 2^32 rows it is the row under that id.
   */
  lemma AcknowledgementImpliesWork(init: seq<Run>, tables: Tables, actions: seq<Action>, s: State, i: nat)
    requires Grown(tables) && Reaches(Initial(init, tables), actions, s) && i < |s.past.acknowledged|
    ensures
      var run := s.past.acknowledged[i];
      && run in s.past.appended && HasRow(s.tables, run)
      && (|s.tables.runs| < WRAP && |s.tables.repos| <= WRAP ==> OwnRow(s.tables, run))
  {
    hide Reaches, HasRow, OwnRow, Settles, Grown;
    InitialAcks(init, tables);
    AcksAlways(Initial(init, tables), actions, s);
    AcknowledgedWasAppended(s, i);
    QueuedRunsHaveRows(init, tables, actions, s);
  }

  lemma AcknowledgedWasAppended(s: State, i: nat)
    requires AcksInv(s) && i < |s.past.acknowledged|
    ensures s.past.acknowledged[i] in s.past.appended
  {
    var run := s.past.acknowledged[i];
    assert multiset(s.past.acknowledged)[run] > 0;
    assert multiset(s.past.appended)[run] > 0;
  }

  /**
   And work implies an acknowledgement: no run is acknowledged more often than it was queued,
   and once every client thread has finished, the runs queued are exactly those acknowledged
   and those whose acknowledgement the socket did not take.
   */
  lemma WorkIsAcknowledged(init: seq<Run>, tables: Tables, actions: seq<Action>, s: State)
    requires Reaches(Initial(init, tables), actions, s)
    ensures multiset(s.past.acknowledged) <= multiset(s.past.appended)
    ensures (forall c :: 0 <= c < |s.clients| ==> s.clients[c].Done?) ==>
      multiset(s.past.appended) == multiset(s.past.acknowledged) + multiset(s.past.unanswered)
  {
    hide Reaches, Settles;
    InitialAcks(init, tables);
    AcksAlways(Initial(init, tables), actions, s);
    NothingElse(s.past.appended, s.past.acknowledged, s.past.unanswered, AllOwed(s.clients));
  }

  lemma InitialAcks(init: seq<Run>, tables: Tables)
    ensures AcksInv(Initial(init, tables))
  {
  }

  lemma NothingElse(appended: seq<Run>, acknowledged: seq<Run>, unanswered: seq<Run>, owed: seq<Option<Run>>)
    requires Settles(appended, acknowledged, unanswered, owed)
    ensures multiset(acknowledged) <= multiset(appended)
    ensures (forall c :: 0 <= c < |owed| ==> owed[c].None?) ==>
      multiset(appended) == multiset(acknowledged) + multiset(unanswered)
  {
    if forall c :: 0 <= c < |owed| ==> owed[c].None? {
      forall run: Run
        ensures multiset(owed)[Some(run)] == 0
      {
        assert Some(run) !in owed;
      }
    }
  }
}
