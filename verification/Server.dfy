/**
 The server object: its queues in the heap, its critical sections, and the loop of its main
 thread.  Each method is proved to be, on the sequences the queues stand for, the step of the
 state machine it implements.
 */
module Server {
  import opened Results
  import opened Sequences
  import opened Json
  import opened TailQueue
  import opened Protocol
  import opened ServerState

  /** `struct worker` of the worker queue: a duplicated descriptor. */
  datatype Worker = Worker(fd: nat)

  function Fds(workers: seq<Worker>): (fds: seq<nat>)
    ensures |fds| == |workers| && forall i :: 0 <= i < |workers| ==> fds[i] == workers[i].fd
  {
    seq(|workers|, i requires 0 <= i < |workers| => workers[i].fd)
  }

  lemma FirstFd(workers: seq<Worker>)
    requires workers != []
    ensures Fds(workers) != [] && Fds(workers)[0] == workers[0].fd && Fds(workers[1..]) == Fds(workers)[1..]
  {
  }

  /** The server's mutex and its condition variable. */
  class Monitor {
    var locked: bool
    // How often the condition variable was signalled.
    var signals: nat

    constructor ()
      ensures !locked && signals == 0
    {
      locked, signals := false, 0;
    }

    method Lock()
      requires !locked
      modifies this`locked
      ensures locked
    {
      locked := true;
    }

    method Unlock()
      requires locked
      modifies this`locked
      ensures !locked
    {
      locked := false;
    }

    method Notify()
      requires locked
      modifies this`signals
      ensures signals == old(signals) + 1
    {
      signals := signals + 1;
    }
  }

  class Server {
    const monitor: Monitor
    var stopping: bool
    const runs: Queue<Run>
    const workers: Queue<Worker>
    // Worker descriptors closed, and start-run messages sent, in order.
    var closed: seq<nat>
    var dispatched: seq<Run>
    var offered: seq<nat>
    ghost var Repr: set<object>

    ghost predicate Valid()
      reads this, Repr
    {
      && this in Repr && runs in Repr && workers in Repr && monitor !in Repr
      && (forall i :: 0 <= i < |runs.nodes| ==> runs.nodes[i] in Repr)
      && (forall i :: 0 <= i < |workers.nodes| ==> workers.nodes[i] in Repr)
      && (forall i, j :: 0 <= i < |runs.nodes| && 0 <= j < |workers.nodes| ==>
            runs.nodes[i] as object != workers.nodes[j])
      && runs.Valid() && workers.Valid()
    }

    /** What the mutex protects. */
    ghost function View(): Shared
      reads this, Repr
      requires Valid()
    {
      Shared(stopping, runs.Contents, Fds(workers.Contents))
    }

    constructor ()
      ensures Valid() && fresh(Repr) && View() == Shared(false, [], [])
      ensures closed == [] && dispatched == [] && offered == [] && fresh(monitor) && !monitor.locked
    {
      monitor := new Monitor();
      var runQueue := new Queue();
      var workerQueue := new Queue();
      stopping, runs, workers, closed, dispatched, offered := false, runQueue, workerQueue, [], [], [];
      Repr := {this, runQueue, workerQueue};
    }

    /** `server_set_stopping`: one critical section, signalled once. */
    method SetStopping()
      requires Valid() && !monitor.locked
      modifies this`stopping, monitor
      ensures Valid() && View() == Stopped(old(View()))
      ensures !monitor.locked && monitor.signals == old(monitor.signals) + 1
    {
      monitor.Lock();
      stopping := true;
      monitor.Notify();
      monitor.Unlock();
    }

    /** `server_enqueue_run`, once the run has its id: one critical section, signalled once. */
    method AppendRun(run: Node<Run>)
      requires Valid() && !monitor.locked && run.live && run !in Repr && run as object != monitor
      modifies Repr, monitor, run`next
      ensures Valid() && fresh(Repr - old(Repr) - {run})
      ensures View() == WithRun(old(View()), run.value) && run.value == old(run.value)
      ensures !monitor.locked && monitor.signals == old(monitor.signals) + 1
      ensures closed == old(closed) && dispatched == old(dispatched) && offered == old(offered)
    {
      monitor.Lock();
      InsertRun(run);
      monitor.Notify();
      monitor.Unlock();
    }

    method InsertRun(run: Node<Run>)
      requires Valid() && run.live && run !in Repr && run as object != monitor
      modifies Repr, run`next
      ensures Valid() && fresh(Repr - old(Repr) - {run})
      ensures View() == WithRun(old(View()), run.value) && run.value == old(run.value)
      ensures closed == old(closed) && dispatched == old(dispatched) && offered == old(offered)
    {
      runs.InsertTail(run);
      Repr := Repr + {run};
    }

    /** `server_enqueue_worker`: one critical section, signalled once. */
    method AppendWorker(worker: Node<Worker>)
      requires Valid() && !monitor.locked && worker.live && worker !in Repr && worker as object != monitor
      modifies Repr, monitor, worker`next
      ensures Valid() && fresh(Repr - old(Repr) - {worker})
      ensures View() == WithWorker(old(View()), worker.value.fd) && worker.value == old(worker.value)
      ensures !monitor.locked && monitor.signals == old(monitor.signals) + 1
      ensures closed == old(closed) && dispatched == old(dispatched) && offered == old(offered)
    {
      monitor.Lock();
      InsertWorker(worker);
      monitor.Notify();
      monitor.Unlock();
    }

    method InsertWorker(worker: Node<Worker>)
      requires Valid() && worker.live && worker !in Repr && worker as object != monitor
      modifies Repr, worker`next
      ensures Valid() && fresh(Repr - old(Repr) - {worker})
      ensures View() == WithWorker(old(View()), worker.value.fd) && worker.value == old(worker.value)
      ensures closed == old(closed) && dispatched == old(dispatched) && offered == old(offered)
    {
      workers.InsertTail(worker);
      Repr := Repr + {worker};
    }

    method ReadyForAction() returns (ready: bool)
      requires Valid()
      ensures ready == Ready(View())
      ensures ready <==> stopping || (runs.Contents != [] && workers.Contents != [])
    {
      var noRuns := runs.IsEmpty();
      var noWorkers := workers.IsEmpty();
      ready := stopping || (!noRuns && !noWorkers);
    }

    /** `worker_destroy`. */
    method DestroyWorker(worker: Node<Worker>)
      requires Valid() && worker.live && worker !in workers.nodes && worker in Repr
      requires forall i :: 0 <= i < |runs.nodes| ==> runs.nodes[i] as object != worker
      requires runs as object != worker && workers as object != worker && this as object != worker
      modifies this`closed, worker`live
      ensures Valid() && View() == old(View()) && !worker.live
      ensures closed == old(closed) + [worker.value.fd]
    {
      closed := closed + [worker.value.fd];
      worker.Free();
    }

    /** Both heads, taken off their queues and still owned by the server. */
    method TakeHeads() returns (run: Node<Run>, worker: Node<Worker>)
      requires Valid() && runs.Contents != [] && workers.Contents != []
      modifies runs, workers
      ensures Valid() && View() == Taken(old(View()))
      ensures Unqueued(run, worker) && run.value == old(View()).runs[0] && worker.value.fd == old(View()).workers[0]
      ensures run == old(runs.nodes[0]) && worker == old(workers.nodes[0]) && runs.nodes == old(runs.nodes)[1..]
    {
      hide Fds;
      runs.AllDistinct();
      workers.AllDistinct();
      FirstFd(workers.Contents);
      run := runs.RemoveHead();
      worker := workers.RemoveHead();
    }

    /** Two live nodes of the server, in neither queue. */
    ghost predicate Unqueued(run: Node<Run>, worker: Node<Worker>)
      reads this, Repr, run, worker
    {
      && Valid() && run in Repr && worker in Repr && run.live && worker.live
      && run !in runs.nodes && worker !in workers.nodes && run as object != worker
      && (forall j :: 0 <= j < |workers.nodes| ==> workers.nodes[j] as object != run)
      && (forall i :: 0 <= i < |runs.nodes| ==> runs.nodes[i] as object != worker)
      && runs as object != worker && workers as object != worker && this as object != worker
      && runs as object != run && workers as object != run && this as object != run
    }

    /** The send: the run is freed if it succeeded, and goes back to the head if it did not. */
    method SettleRun(run: Node<Run>, worker: Node<Worker>, ok: bool)
      requires Unqueued(run, worker)
      modifies runs, run, this`dispatched, this`offered
      ensures offered == old(offered) + [worker.value.fd]
      ensures Valid() && View() == Settled(old(View()), run.value, ok)
      ensures worker.live && worker.value == old(worker.value) && worker in Repr && worker !in workers.nodes
      ensures forall i :: 0 <= i < |runs.nodes| ==> runs.nodes[i] as object != worker
      ensures dispatched == if ok then old(dispatched) + [run.value] else old(dispatched)
      ensures run.value == old(run.value)
      ensures ok ==> !run.live
      ensures !ok ==> run.live && runs.nodes == [run] + old(runs.nodes)
    {
      offered := offered + [worker.value.fd];
      if ok {
        dispatched := dispatched + [run.value];
        run.Free();
      } else {
        runs.InsertHead(run);
      }
    }

    /** `server_assign_run`; `ok` says whether the send succeeded. */
    method AssignRun(ok: bool)
      requires Valid() && monitor.locked && runs.Contents != [] && workers.Contents != []
      modifies Repr
      ensures Valid() && Repr == old(Repr)
      ensures !old(workers.nodes[0]).live
      ensures if ok then !old(runs.nodes[0]).live else runs.nodes == old(runs.nodes)
      ensures View() == Assigned(old(View()), ok)
      ensures offered == old(offered) + [old(View()).workers[0]]
      ensures closed == old(closed) + [old(View()).workers[0]]
      ensures dispatched == if ok then old(dispatched) + [old(View()).runs[0]] else old(dispatched)
    {
      hide Taken, Settled, Fds;
      var run, worker := TakeHeads();
      SettleRun(run, worker, ok);
      DestroyWorker(worker);
    }

    method DestroyRunQueue()
      requires Valid()
      modifies Repr
      ensures Valid() && Repr == old(Repr) && View() == old(View()).(runs := [])
      ensures forall n :: n in old(runs.nodes) ==> !n.live
      ensures closed == old(closed) && dispatched == old(dispatched) && offered == old(offered)
    {
      var _ := runs.Destroy();
    }

    /** Closes the descriptor of every worker still waiting, in order. */
    method DestroyWorkerQueue()
      requires Valid()
      modifies Repr
      ensures Valid() && Repr == old(Repr) && View() == old(View()).(workers := [])
      ensures forall n :: n in old(workers.nodes) ==> !n.live
      ensures closed == old(closed) + old(View()).workers
      ensures dispatched == old(dispatched) && offered == old(offered)
    {
      var freed := workers.Destroy();
      closed := closed + Fds(freed);
    }

    method Enter(section: Section)
      requires Valid() && !monitor.locked
      modifies Repr, monitor
      ensures Valid() && fresh(Repr - old(Repr)) && !monitor.locked && monitor.signals == old(monitor.signals) + 1
      ensures View() == Apply(old(View()), section)
      ensures closed == old(closed) && dispatched == old(dispatched) && offered == old(offered)
    {
      match section
      case EnqueueRun(value) =>
        var run := new Node(value);
        AppendRun(run);
      case EnqueueWorker(fd) =>
        var worker := new Node(Worker(fd));
        AppendWorker(worker);
      case Stop =>
        SetStopping();
    }

    /** What other threads do while the main thread is in its condition wait. */
    method Interfere(sections: seq<Section>)
      requires Valid() && !monitor.locked
      modifies Repr, monitor
      ensures Valid() && fresh(Repr - old(Repr)) && !monitor.locked
      ensures monitor.signals == old(monitor.signals) + |sections|
      ensures View() == ApplyAll(old(View()), sections)
      ensures closed == old(closed) && dispatched == old(dispatched) && offered == old(offered)
    {
      for i := 0 to |sections|
        invariant Valid() && fresh(Repr - old(Repr)) && !monitor.locked && monitor.signals == old(monitor.signals) + i
        invariant View() == ApplyAll(old(View()), sections[..i])
        invariant closed == old(closed) && dispatched == old(dispatched) && offered == old(offered)
      {
        assert sections[..i + 1][..i] == sections[..i];
        Enter(sections[i]);
      }
      assert sections[..|sections|] == sections;
    }

    /** `server_wait`, and the condition again. */
    method WaitOnce(sections: seq<Section>) returns (ready: bool)
      requires Valid() && monitor.locked
      modifies Repr, monitor
      ensures Valid() && fresh(Repr - old(Repr)) && monitor.locked
      ensures View() == ApplyAll(old(View()), sections)
      ensures ready <==> View().stopping || (View().runs != [] && View().workers != [])
      ensures closed == old(closed) && dispatched == old(dispatched) && offered == old(offered)
    {
      monitor.Unlock();
      Interfere(sections);
      monitor.Lock();
      ready := ReadyForAction();
    }

    /**
     `server_wait_for_action`: the lock is given up for each wait and held again after it;
     `asleep` if it would wait for ever after the last of `script`.
     */
    method WaitForAction(script: seq<seq<Section>>, k: nat) returns (asleep: bool, k': nat)
      requires Valid() && monitor.locked && k <= |script|
      modifies Repr, monitor
      ensures Valid() && fresh(Repr - old(Repr)) && (monitor.locked <==> !asleep)
      ensures k <= k' <= |script| && View() == Between(old(View()), script, k, k')
      ensures asleep ==> k' == |script|
      ensures asleep <==> !View().stopping && (View().runs == [] || View().workers == [])
      ensures forall j :: k <= j < k' ==>
        var q := Between(old(View()), script, k, j);
        !q.stopping && (q.runs == [] || q.workers == [])
      ensures closed == old(closed) && dispatched == old(dispatched) && offered == old(offered)
    {
      hide ApplyAll, Ready;
      k' := k;
      var ready := ReadyForAction();
      while !ready
        invariant Valid() && fresh(Repr - old(Repr)) && monitor.locked
        invariant k <= k' <= |script| && View() == Between(old(View()), script, k, k')
        invariant ready <==> View().stopping || (View().runs != [] && View().workers != [])
        invariant forall j :: k <= j < k' ==>
          var q := Between(old(View()), script, k, j);
          !q.stopping && (q.runs == [] || q.workers == [])
        invariant closed == old(closed) && dispatched == old(dispatched) && offered == old(offered)
        decreases |script| - k', !ready
      {
        if k' == |script| {
          monitor.Unlock();
          return true, k';
        }
        ready := WaitOnce(script[k']);
        k' := k' + 1;
      }
      asleep := false;
    }

    /**
     `server_main_thread`, with what the others do during its waits and which sends succeed.
     Nothing is lost, duplicated or reordered; each worker is offered one run and closed, and the
     offers that the worker takes are the runs dispatched; it ends exactly at the first wait after
     which it was told to stop, and otherwise sleeps with nothing to do.
     */
    method MainThread(script: seq<seq<Section>>, sendOk: nat -> bool) returns (asleep: bool, k: nat)
      requires Valid() && closed == offered && !monitor.locked
      modifies Repr, monitor
      ensures Valid() && fresh(Repr - old(Repr)) && k <= |script| && !monitor.locked
      ensures dispatched + View().runs == old(dispatched) + old(View()).runs + RunsIn(script, k)
      ensures offered + View().workers == old(offered) + old(View()).workers + WorkersIn(script, k)
      ensures closed == offered && |old(offered)| <= |offered|
      ensures |dispatched| == |old(dispatched)| + Successes(sendOk, |old(offered)|, |offered|)
      ensures asleep ==> k == |script|
      ensures asleep ==> !View().stopping && (View().runs == [] || View().workers == [])
      ensures !asleep ==> View().stopping
      ensures ToldToStop(View().stopping, old(View()).stopping, script, 0, k)
    {
      hide Books, Fds, Successes, RunsIn, WorkersIn, ToldToStop;
      k := 0;
      monitor.Lock();
      ghost var start := Start(dispatched, offered, View());
      NothingYet(script, sendOk, start);
      while true
        invariant Valid() && fresh(Repr - old(Repr)) && k <= |script| && monitor.locked
        invariant Books(script, sendOk, k, start) && (k > 0 ==> !View().stopping)
        decreases |script| - k, |View().workers|
      {
        var left: bool;
        asleep, left, k := Turn(script, k, sendOk, start);
        if asleep || left {
          BooksSay(script, sendOk, k, start);
          return;
        }
      }
    }

    /** What the main thread has done to `start`, `k` waits into the script. */
    ghost predicate Books(script: seq<seq<Section>>, sendOk: nat -> bool, k: nat, start: Start)
      requires Valid() && k <= |script|
      reads this, Repr
    {
      && Conserved(script, k, start.dispatched + start.shared.runs, start.offered + start.shared.workers)
      && |start.offered| <= |offered|
      && |dispatched| == |start.dispatched| + Successes(sendOk, |start.offered|, |offered|)
      && ToldToStop(View().stopping, start.shared.stopping, script, 0, k)
    }

    lemma NothingYet(script: seq<seq<Section>>, sendOk: nat -> bool, start: Start)
      requires Valid() && closed == offered && start == Start(dispatched, offered, View())
      ensures Books(script, sendOk, 0, start)
    {
    }

    lemma BooksSay(script: seq<seq<Section>>, sendOk: nat -> bool, k: nat, start: Start)
      requires Valid() && k <= |script| && Books(script, sendOk, k, start)
      ensures closed == offered && |start.offered| <= |offered|
      ensures dispatched + View().runs == start.dispatched + start.shared.runs + RunsIn(script, k)
      ensures offered + View().workers == start.offered + start.shared.workers + WorkersIn(script, k)
      ensures |dispatched| == |start.dispatched| + Successes(sendOk, |start.offered|, |offered|)
      ensures ToldToStop(View().stopping, start.shared.stopping, script, 0, k)
    {
    }

    method Turn(script: seq<seq<Section>>, k: nat, sendOk: nat -> bool, ghost start: Start)
      returns (asleep: bool, left: bool, k': nat)
      requires Valid() && monitor.locked && k <= |script|
      requires Books(script, sendOk, k, start) && (k > 0 ==> !View().stopping)
      modifies Repr, monitor
      ensures Valid() && fresh(Repr - old(Repr)) && k <= k' <= |script| && (monitor.locked <==> !asleep && !left)
      ensures Books(script, sendOk, k', start)
      ensures asleep ==> k' == |script| && !left && (View().runs == [] || View().workers == [])
      ensures left <==> View().stopping
      ensures !asleep && !left ==> k < k' || |View().workers| < old(|View().workers|)
    {
      hide Conserved, Fds, Successes, ToldToStop;
      ghost var offers, stopped := |offered|, View().stopping;
      asleep, left, k' := Round(script, k, sendOk, start.dispatched + start.shared.runs,
                                start.offered + start.shared.workers);
      OneMore(sendOk, |start.offered|, offers);
      ToldFurther(stopped, View().stopping, start.shared.stopping, script, k, k');
    }

    /** The ledger of the main thread, `k` waits into the script. */
    ghost predicate Conserved(script: seq<seq<Section>>, k: nat, runsBefore: seq<Run>, workersBefore: seq<nat>)
      requires Valid() && k <= |script|
      reads this, Repr
    {
      && closed == offered
      && dispatched + View().runs == runsBefore + RunsIn(script, k)
      && offered + View().workers == workersBefore + WorkersIn(script, k)
    }

    /** One turn of the loop: wait, and then leave or assign. */
    method Round(script: seq<seq<Section>>, k: nat, sendOk: nat -> bool, ghost runsBefore: seq<Run>,
                 ghost workersBefore: seq<nat>)
      returns (asleep: bool, left: bool, k': nat)
      requires Valid() && monitor.locked && k <= |script| && Conserved(script, k, runsBefore, workersBefore)
      modifies Repr, monitor
      ensures Valid() && fresh(Repr - old(Repr)) && k <= k' <= |script| && (monitor.locked <==> !asleep && !left)
      ensures Conserved(script, k', runsBefore, workersBefore)
      ensures asleep ==> k' == |script| && !left
      ensures asleep ==> !View().stopping && (View().runs == [] || View().workers == [])
      ensures left <==> View().stopping
      ensures ToldToStop(View().stopping, old(View()).stopping, script, k, k')
      ensures asleep || left ==> offered == old(offered) && dispatched == old(dispatched)
      ensures !asleep && !left ==>
        && |offered| == |old(offered)| + 1
        && |dispatched| == |old(dispatched)| + (if sendOk(|old(offered)|) then 1 else 0)
      ensures !asleep && !left ==> k < k' || |View().workers| < old(|View().workers|)
    {
      hide RunsIn, WorkersIn, Between, Assigned, Ready, Fds;
      ghost var q := View();
      asleep, k' := WaitForAction(script, k);
      left := !asleep && stopping;
      BetweenAdds(q, script, k, k', dispatched, runsBefore, offered, workersBefore);
      BetweenSame(q, script, k);
      BetweenStops(q, script, k, k');
      if k < k' {
        BetweenStops(q, script, k, k' - 1);
      }
      if left {
        monitor.Unlock();
      } else if !asleep {
        ReadyToAssign(View(), workers.Contents);
        AssignmentMovesOn(View(), sendOk(|offered|), dispatched, offered);
        AssignRun(sendOk(|offered|));
      }
    }

    /** `run_queue_to_json`: an array of the runs, in order. */
    method RunsToJson() returns (json: Json)
      requires Valid()
      ensures json == RunsAsJson(runs.Contents)
    {
      var elems: seq<Json> := [];
      var entry := runs.first;
      while entry != null
        invariant |elems| <= |runs.nodes| && entry == At(runs.nodes, |elems|)
        invariant forall i :: 0 <= i < |elems| ==> elems[i] == RunAsJson(runs.Contents[i])
        decreases |runs.nodes| - |elems|
      {
        elems := elems + [RunAsJson(entry.value)];
        entry := entry.Next();
      }
      json := Array(elems);
    }
  }

  function RunAsJson(run: Run): Json {
    Object(map["id" := Int(run.id), "exit_code" := Int(run.exitCode), "repo_url" := Str(run.url),
               "repo_rev" := Str(run.rev)])
  }

  /** Each field of a run can be read back under its own key. */
  lemma RunReadsBack(run: Run)
    ensures GetInt(RunAsJson(run), "id") == Some(run.id as int)
      && GetInt(RunAsJson(run), "exit_code") == Some(run.exitCode as int)
    ensures GetString(RunAsJson(run), "repo_url") == Some(run.url)
      && GetString(RunAsJson(run), "repo_rev") == Some(run.rev)
  {
    assert "id" != "exit_code" && |"id"| == 2;
    assert "repo_url" != "repo_rev" by {
      assert "repo_url"[5] != "repo_rev"[5];
    }
    assert |"repo_url"| == 8 && |"exit_code"| == 9;
  }

  function RunsAsJson(runs: seq<Run>): Json {
    Array(seq(|runs|, i requires 0 <= i < |runs| => RunAsJson(runs[i])))
  }

  /** One object per run, in order, from which the run can be read. */
  lemma ListingReadsBack(runs: seq<Run>)
    ensures RunsAsJson(runs).Array? && |RunsAsJson(runs).elems| == |runs|
    ensures forall i :: 0 <= i < |runs| ==>
      var json, run := RunsAsJson(runs).elems[i], runs[i];
      && GetInt(json, "id") == Some(run.id as int) && GetInt(json, "exit_code") == Some(run.exitCode as int)
      && GetString(json, "repo_url") == Some(run.url) && GetString(json, "repo_rev") == Some(run.rev)
  {
    forall i | 0 <= i < |runs|
      ensures
        var json, run := RunsAsJson(runs).elems[i], runs[i];
        && GetInt(json, "id") == Some(run.id as int) && GetInt(json, "exit_code") == Some(run.exitCode as int)
        && GetString(json, "repo_url") == Some(run.url) && GetString(json, "repo_rev") == Some(run.rev)
    {
      RunReadsBack(runs[i]);
    }
  }

  /** One critical section of another thread. */
  datatype Section = EnqueueRun(run: Run) | EnqueueWorker(fd: nat) | Stop

  function Apply(q: Shared, section: Section): Shared {
    match section
    case EnqueueRun(run) => WithRun(q, run)
    case EnqueueWorker(fd) => WithWorker(q, fd)
    case Stop => Stopped(q)
  }

  function ApplyAll(q: Shared, sections: seq<Section>): Shared {
    if sections == [] then q else Apply(ApplyAll(q, sections[..|sections| - 1]), sections[|sections| - 1])
  }

  function Between(q: Shared, script: seq<seq<Section>>, j: nat, k: nat): Shared
    requires j <= k <= |script|
  {
    if k == j then q else ApplyAll(Between(q, script, j, k - 1), script[k - 1])
  }

  /** The runs appended by these sections, in order. */
  function RunsOf(sections: seq<Section>): seq<Run> {
    if sections == [] then []
    else
      var last := sections[|sections| - 1];
      RunsOf(sections[..|sections| - 1]) + if last.EnqueueRun? then [last.run] else []
  }

  function WorkersOf(sections: seq<Section>): seq<nat> {
    if sections == [] then []
    else
      var last := sections[|sections| - 1];
      WorkersOf(sections[..|sections| - 1]) + if last.EnqueueWorker? then [last.fd] else []
  }

  function RunsIn(script: seq<seq<Section>>, k: nat): seq<Run>
    requires k <= |script|
  {
    if k == 0 then [] else RunsIn(script, k - 1) + RunsOf(script[k - 1])
  }

  function WorkersIn(script: seq<seq<Section>>, k: nat): seq<nat>
    requires k <= |script|
  {
    if k == 0 then [] else WorkersIn(script, k - 1) + WorkersOf(script[k - 1])
  }

  lemma {:induction false} SectionsAppend(q: Shared, sections: seq<Section>)
    ensures ApplyAll(q, sections).runs == q.runs + RunsOf(sections)
    ensures ApplyAll(q, sections).workers == q.workers + WorkersOf(sections)
  {
    if sections == [] {
    } else {
      var before, last := sections[..|sections| - 1], sections[|sections| - 1];
      SectionsAppend(q, before);
      Associate(q.runs, RunsOf(before), if last.EnqueueRun? then [last.run] else []);
      Associate(q.workers, WorkersOf(before), if last.EnqueueWorker? then [last.fd] else []);
    }
  }

  lemma ReadyToAssign(q: Shared, workers: seq<Worker>)
    requires q.runs != [] && q.workers != [] && q.workers == Fds(workers)
    ensures q.runs != [] && q.workers != [] && workers != []
    ensures forall ok :: |Assigned(q, ok).workers| < |q.workers|
  {
  }

  /** From wait `j` to wait `k` of the script: told to stop by then, and not before the last of these waits. */
  ghost predicate ToldToStop(now: bool, before: bool, script: seq<seq<Section>>, j: nat, k: nat)
    requires j <= k <= |script|
  {
    && (now <==> before || exists i :: j <= i < k && Stop in script[i])
    && (j < k ==> !before && forall i :: j <= i < k - 1 ==> Stop !in script[i])
  }

  lemma ToldFurther(mid: bool, now: bool, before: bool, script: seq<seq<Section>>, j: nat, k: nat)
    requires j <= k <= |script| && (j > 0 ==> !mid)
    requires ToldToStop(mid, before, script, 0, j) && ToldToStop(now, mid, script, j, k)
    ensures ToldToStop(now, before, script, 0, k)
  {
  }

  lemma {:induction false} SectionsStop(q: Shared, sections: seq<Section>)
    ensures ApplyAll(q, sections).stopping <==> q.stopping || Stop in sections
  {
    if sections != [] {
      var n := |sections| - 1;
      SectionsStop(q, sections[..n]);
      assert sections == sections[..n] + [sections[n]];
    }
  }

  lemma {:induction false} BetweenStops(q: Shared, script: seq<seq<Section>>, j: nat, k: nat)
    requires j <= k <= |script|
    ensures Between(q, script, j, k).stopping <==> q.stopping || exists i :: j <= i < k && Stop in script[i]
  {
    if j < k {
      BetweenStops(q, script, j, k - 1);
      SectionsStop(Between(q, script, j, k - 1), script[k - 1]);
      hide ApplyAll;
    }
  }

  /** Where the main thread begins. */
  datatype Start = Start(dispatched: seq<Run>, offered: seq<nat>, shared: Shared)

  lemma BetweenSame(q: Shared, script: seq<seq<Section>>, k: nat)
    requires k <= |script|
    ensures Between(q, script, k, k) == q
  {
  }

  lemma {:induction false} BetweenAdds(q: Shared, script: seq<seq<Section>>, j: nat, k: nat,
                                       dispatched: seq<Run>, runsBefore: seq<Run>, offered: seq<nat>,
                                       workersBefore: seq<nat>)
    requires j <= k <= |script|
    requires dispatched + q.runs == runsBefore + RunsIn(script, j)
    requires offered + q.workers == workersBefore + WorkersIn(script, j)
    ensures dispatched + Between(q, script, j, k).runs == runsBefore + RunsIn(script, k)
    ensures offered + Between(q, script, j, k).workers == workersBefore + WorkersIn(script, k)
  {
    if j < k {
      BetweenAdds(q, script, j, k - 1, dispatched, runsBefore, offered, workersBefore);
      var mid, last := Between(q, script, j, k - 1), script[k - 1];
      SectionsAppend(mid, last);
      hide ApplyAll, RunsOf, WorkersOf;
      Associate(dispatched, mid.runs, RunsOf(last));
      Associate(runsBefore, RunsIn(script, k - 1), RunsOf(last));
      Associate(offered, mid.workers, WorkersOf(last));
      Associate(workersBefore, WorkersIn(script, k - 1), WorkersOf(last));
    }
  }
}
