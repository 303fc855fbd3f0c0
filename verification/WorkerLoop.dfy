/**
 The worker: it announces itself, waits in its event loop for a run or a signal, executes the
 run and reports it.  Proved from the contracts of the event loop and of the dispatcher.
 */
module WorkerLoop {
  import opened Results
  import opened Json
  import opened JsonRpc
  import opened Protocol
  import opened TailQueue
  import opened EventLoop
  import opened Command

  /** The handlers registered in the worker's event loop. */
  datatype Handler = SetStopping | HandleEvent

  /** One round of `worker_main`, as the outside world decides it. */
  datatype Round = Round(
    fd: Option<int>,             // the connection, if it could be made
    announced: bool,             // the new-worker request was sent
    poll: PollResult,
    received: Option<Json>,      // the request read when the connection is readable
    responseSent: bool,
    ciOk: bool,                  // ci_run_git_repo ran
    output: ProcessOutput,       // what it captured
    reportFd: Option<int>,
    reportSent: bool)

  /** `poll` waits without a timeout: when it succeeds some descriptor is ready. */
  predicate PollOk(poll: PollResult) {
    match poll
    case PollFailed(ret) => ret < 0
    case Polled(revents) => |revents| == 2 && (revents[0] != 0 || revents[1] != 0)
  }

  /** The run the dispatcher stores when it handles start-run. */
  function HandleStartRun(request: Json, run: Option<Run>): Reply<Option<Run>> {
    match ParseStartRun(request)
    case None => Reply(run, None, -1)
    case Some(parsed) => Reply(Some(parsed), None, 0)
  }

  function Commands(): seq<Cmd<Option<Run>>> {
    [Cmd(CMD_START_RUN, (request, run) => HandleStartRun(request, run))]
  }

  lemma Dispatched(request: Json, run: Option<Run>)
    requires CheckMethod(request)
    ensures Dispatch(Commands(), request, run) ==
      if GetString(request, KEY_METHOD) == Some(CMD_START_RUN) then HandleStartRun(request, run)
        else Reply(run, None, -1)
  {
    assert Commands()[1..] == [];
  }

  /** The run of an acceptable start-run. */
  function StartRunIn(received: Option<Json>): Option<Run> {
    if received.None? || !IsRequest(received.value) || GetString(received.value, KEY_METHOD) != Some(CMD_START_RUN)
    then None
    else ParseStartRun(received.value)
  }

  /** A start-run that was received and parsed. */
  predicate Parsed(received: Option<Json>, run: Run) {
    StartRunIn(received) == Some(run)
  }

  // ---- what a round comes to ----

  /** The worker is connected, announced, and its `poll` succeeded. */
  predicate Waited(r: Round) {
    r.fd.Some? && r.announced && r.poll.Polled? && |r.poll.revents| == 2
  }

  predicate Signalled(r: Round) {
    Waited(r) && r.poll.revents[0] != 0
  }

  /** The connection was readable, and a start-run was read from it. */
  predicate Receives(r: Round) {
    Waited(r) && r.poll.revents[1] & POLLIN != 0 && StartRunIn(r.received).Some?
  }

  /** Nothing went wrong on the connection, if it was ready: a run was received, and its response sent if it has one. */
  predicate Undisturbed(r: Round) {
    && Waited(r)
    && (r.poll.revents[1] != 0 ==> Receives(r) && (IsNotification(r.received.value) || r.responseSent))
  }

  /** A run was received and no signal. */
  predicate Executes(r: Round) {
    Undisturbed(r) && !Signalled(r)
  }

  predicate Completes(r: Round) {
    Executes(r) && r.ciOk && r.reportFd.Some? && r.reportSent
  }

  lemma TwoEntryPass<A>(a: EventFd<A>, b: EventFd<A>, revents: seq<Events>, outcomes: seq<Outcome<A>>)
    requires |revents| == 2 <= |outcomes|
    ensures
      var p1 := StepPass(Pass([], [], [], 0), a, revents[0], outcomes[0]);
      && |p1.calls| <= 1
      && RunPass([a, b], revents, outcomes) == StepPass(p1, b, revents[1], outcomes[|p1.calls|])
  {
    assert PassUpTo([a, b], revents, outcomes, 1)
      == StepPass(PassUpTo([a, b], revents, outcomes, 0), a, revents[0], outcomes[0]);
  }

  class Worker {
    const loop: Loop<Handler>
    const signalfd: int
    var stopping: bool
    var run: Option<Run>
    // Runs parsed, runs executed, and the finished-run requests sent, in order.
    var received: seq<Run>
    var executed: seq<Run>
    var reports: seq<Json>
    // What the event loop held each time a run was asked for.
    ghost var held: seq<seq<EventFd<Handler>>>

    function SignalEntry(): EventFd<Handler> {
      EventFd(signalfd, POLLIN, SetStopping, false)
    }

    ghost predicate Valid()
      reads this, loop, loop.Repr
    {
      loop.Valid() && this !in loop.Repr
    }

    /** The event loop holds the signal entry and nothing else. */
    ghost predicate OnlySignal()
      reads loop.entries
    {
      loop.entries.Contents == [SignalEntry()]
    }

    constructor (signalfd: int)
      ensures Valid() && fresh(loop.Repr) && OnlySignal()
      ensures !stopping && run == None && received == [] && executed == [] && reports == [] && held == []
    {
      var l := new Loop();
      loop, this.signalfd, stopping, run, received, executed, reports, held := l, signalfd, false, None, [], [], [], [];
      new;
      var _ := l.Add(signalfd, POLLIN, SetStopping);
    }

    /** `cmd_dispatcher_handle_event`. */
    method OnEvent(revents: Events, r: Round) returns (ret: int)
      modifies this`run, this`received
      ensures ret >= 0 <==>
        && revents & POLLIN != 0 && StartRunIn(r.received).Some?
        && (IsNotification(r.received.value) || r.responseSent)
      ensures
        if revents & POLLIN != 0 && StartRunIn(r.received).Some? then
          run == StartRunIn(r.received) && received == old(received) + [run.value]
        else run == old(run) && received == old(received)
    {
      if revents & POLLIN == 0 {
        return -1;
      }
      var before := run;
      var sent: Option<Json>;
      ret, sent, run := HandleConn(Commands(), r.received, run, r.responseSent);
      if r.received.Some? && IsRequest(r.received.value) {
        Dispatched(r.received.value, before);
        var parsed := GetString(r.received.value, KEY_METHOD) == Some(CMD_START_RUN)
          && ParseStartRun(r.received.value).Some?;
        if parsed {
          received := received + [run.value];
        }
      }
    }

    /** The handlers of one pass, in list order; the outcomes tell the loop what they return. */
    method OnReady(revents: seq<Events>, r: Round) returns (outcomes: seq<Outcome<Handler>>)
      requires Waited(r) && revents == r.poll.revents
      modifies this`stopping, this`run, this`received
      ensures |outcomes| == 2
      ensures stopping == (old(stopping) || Signalled(r))
      ensures revents[0] != 0 ==> outcomes[0] == Outcome([], 0)
      ensures forall k :: 0 <= k < 2 ==> outcomes[k].added == []
      ensures revents[1] != 0 ==> (outcomes[if revents[0] != 0 then 1 else 0].ret >= 0 <==> Undisturbed(r))
      ensures if Receives(r) then run == StartRunIn(r.received) && received == old(received) + [run.value]
              else run == old(run) && received == old(received)
    {
      var none := Outcome([], 0);
      outcomes := [none, none];
      if revents[0] != 0 {
        stopping := true;
      }
      if revents[1] != 0 {
        var ret := OnEvent(revents[1], r);
        outcomes := if revents[0] != 0 then [none, Outcome([], ret)] else [Outcome([], ret), none];
      }
    }

    /**
     `worker_get_run`: it succeeds exactly when the wait was undisturbed; then, without a signal,
     the run stored is the one received, and the loop is back to its signal entry.
     */
    method GetRun(r: Round) returns (ret: int)
      requires Valid() && OnlySignal() && PollOk(r.poll)
      modifies loop.Repr, this`stopping, this`run, this`received, this`held
      ensures held == old(held) + [old(loop.entries.Contents)]
      ensures Valid() && fresh(loop.Repr - old(loop.Repr))
      ensures ret >= 0 <==> Undisturbed(r)
      ensures stopping == (old(stopping) || Signalled(r))
      ensures if Receives(r) then run == StartRunIn(r.received) && received == old(received) + [run.value]
              else run == old(run) && received == old(received)
      ensures Executes(r) ==> Receives(r) && run.Some? && OnlySignal()
    {
      hide StartRunIn;
      held := held + [loop.entries.Contents];
      if r.fd.None? {
        return -1;
      }
      if !r.announced {
        return -1;
      }
      var entry := loop.AddOnce(r.fd.value, POLLIN, HandleEvent);
      ghost var a, b := SignalEntry(), EventFd(r.fd.value, POLLIN, HandleEvent, true);
      assert loop.entries.Contents == [a, b];
      var outcomes := [Outcome([], 0), Outcome([], 0)];
      if r.poll.Polled? {
        outcomes := OnReady(r.poll.revents, r);
        TwoEntryPass(a, b, r.poll.revents, outcomes);
      }
      var calls: seq<Call<Handler>>;
      ret, calls := loop.Run(r.poll, outcomes);
    }

    /** `worker_do_run`: the run is used up whatever happens. */
    method DoRun(r: Round) returns (ret: int)
      requires run.Some?
      modifies this`run, this`executed, this`reports
      ensures run == None && executed == old(executed) + [old(run).value]
      ensures ret >= 0 <==> r.ciOk && r.reportFd.Some? && r.reportSent
      ensures ret >= 0 ==> reports == old(reports) + [FinishedRunRequest(old(run).value.id, r.output)]
      ensures ret < 0 ==> reports == old(reports)
    {
      executed := executed + [run.value];
      ret := 0;
      if !r.ciOk {
        ret := -1;
      } else {
        var request := CreateFinishedRun(run.value.id, r.output);
        if r.reportFd.None? || !r.reportSent {
          ret := -1;
        } else {
          reports := reports + [request.Value()];
        }
      }
      run := None;
    }

    /** Report `i` parses to the id of the i-th run executed and the output of its round. */
    ghost predicate Reported(rounds: seq<Round>)
      reads this
    {
      && |reports| <= |rounds| && |reports| <= |executed|
      && forall i :: 0 <= i < |reports| ==> ParseFinishedRun(reports[i]) == Some((executed[i].id, rounds[i].output))
    }

    /**
     `worker_main`, for as many rounds as the world decides.  It goes on exactly as long as rounds
     complete: each of these executes the run it received and reports it, and the first that does
     not complete is the last, which executes its run if it got one.  It asks for a run only with
     nothing but the signal in its loop, and ends well only because of a signal.
     */
    method WorkerMain(rounds: seq<Round>) returns (ret: int)
      requires Valid() && OnlySignal() && !stopping
      requires forall i :: 0 <= i < |rounds| ==> PollOk(rounds[i].poll)
      requires received == [] && executed == [] && reports == [] && held == []
      modifies this, loop.Repr
      ensures |reports| <= |rounds| && Reported(rounds)
      ensures forall i :: 0 <= i < |reports| ==> Completes(rounds[i])
      ensures |reports| < |rounds| ==> !Completes(rounds[|reports|])
      ensures forall i :: 0 <= i < |executed| ==> i < |rounds| && Parsed(rounds[i].received, executed[i])
      ensures
        var n, last := |reports|, |reports| < |rounds|;
        && |executed| == n + (if last && Executes(rounds[n]) then 1 else 0)
        && |received| == n + (if last && Receives(rounds[n]) then 1 else 0) && executed <= received
        && |held| == n + (if last then 1 else 0) && (forall i :: 0 <= i < |held| ==> held[i] == [SignalEntry()])
        && stopping == (last && Signalled(rounds[n]))
        && (ret >= 0 <==> (last ==> Signalled(rounds[n]) && Undisturbed(rounds[n])))
    {
      hide StartRunIn, ParseFinishedRun, FinishedRunRequest, Undisturbed, Receives, Signalled;
      ret := 0;
      var k := 0;
      while k < |rounds|
        invariant k <= |rounds| && Valid() && OnlySignal() && fresh(loop.Repr - old(loop.Repr)) && !stopping && ret >= 0
        invariant received == executed && |executed| == k && |reports| == k && |held| == k
        invariant forall i :: 0 <= i < |held| ==> held[i] == [SignalEntry()]
        invariant forall i :: 0 <= i < k ==> Completes(rounds[i]) && Parsed(rounds[i].received, executed[i])
        invariant Reported(rounds)
      {
        ret := GetRun(rounds[k]);
        if ret < 0 {
          return;
        }
        if stopping {
          break;
        }
        FinishedRunRoundTrip(run.value.id, rounds[k].output);
        ret := DoRun(rounds[k]);
        if ret < 0 {
          return;
        }
        k := k + 1;
      }
    }
  }

  /**
   From the server's assignment to the report: a worker that was sent a dispatched run executes
   that run, and what it reports parses to that run's own id.
   */
  lemma ReportsTheDispatchedRun(dispatched: Run, executed: Run, output: ProcessOutput)
    requires Parsed(Some(StartRunRequest(dispatched)), executed)
    ensures executed.id == dispatched.id && executed.url == dispatched.url && executed.rev == dispatched.rev
    ensures ParseFinishedRun(FinishedRunRequest(executed.id, output)) == Some((dispatched.id, output))
  {
    StartRunRoundTrip(dispatched);
    FinishedRunRoundTrip(executed.id, output);
  }
}
