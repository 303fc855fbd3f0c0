/** What the server's mutex protects, and what each critical section does to it. */
module ServerState {
  import opened Sequences
  import opened Protocol

  /** A waiting worker is known by its duplicated descriptor. */
  datatype Shared = Shared(stopping: bool, runs: seq<Run>, workers: seq<nat>)

  /** `server_ready_for_action`. */
  predicate Ready(q: Shared) {
    q.stopping || (q.runs != [] && q.workers != [])
  }

  function WithRun(q: Shared, run: Run): Shared {
    q.(runs := q.runs + [run])
  }

  function WithWorker(q: Shared, fd: nat): Shared {
    q.(workers := q.workers + [fd])
  }

  function Stopped(q: Shared): Shared {
    q.(stopping := true)
  }

  /** Both heads taken off, as `server_assign_run` begins. */
  function Taken(q: Shared): Shared
    requires q.runs != [] && q.workers != []
  {
    q.(runs := q.runs[1..], workers := q.workers[1..])
  }

  /** The run put back at the head when the send failed. */
  function Settled(q: Shared, run: Run, ok: bool): Shared {
    if ok then q else q.(runs := [run] + q.runs)
  }

  /** A whole assignment. */
  function Assigned(q: Shared, ok: bool): (q': Shared)
    requires q.runs != [] && q.workers != []
    ensures !ok ==> q' == q.(workers := q.workers[1..])
    ensures ok ==> q' == q.(runs := q.runs[1..], workers := q.workers[1..])
  {
    Settled(Taken(q), q.runs[0], ok)
  }

  /** An assignment, successful or not, moves the heads without changing the lines. */
  lemma AssignmentMovesOn(q: Shared, ok: bool, dispatched: seq<Run>, offered: seq<nat>)
    requires q.runs != [] && q.workers != []
    ensures (if ok then dispatched + [q.runs[0]] else dispatched) + Assigned(q, ok).runs == dispatched + q.runs
    ensures offered + [q.workers[0]] + Assigned(q, ok).workers == offered + q.workers
    ensures Assigned(q, ok).stopping == q.stopping && |Assigned(q, ok).workers| < |q.workers|
  {
    assert [q.runs[0]] + q.runs[1..] == q.runs && [q.workers[0]] + q.workers[1..] == q.workers;
    Associate(dispatched, [q.runs[0]], q.runs[1..]);
    Associate(offered, [q.workers[0]], q.workers[1..]);
  }

  /** How many of the offers `from` .. `to` succeed. */
  ghost function Successes(sendOk: nat -> bool, from: nat, to: nat): nat
    requires from <= to
  {
    if from == to then 0 else Successes(sendOk, from, to - 1) + (if sendOk(to - 1) then 1 else 0)
  }

  lemma OneMore(sendOk: nat -> bool, from: nat, to: nat)
    requires from <= to
    ensures Successes(sendOk, from, to + 1) == Successes(sendOk, from, to) + (if sendOk(to) then 1 else 0)
  {
  }

  lemma NoneYet(sendOk: nat -> bool, from: nat)
    ensures Successes(sendOk, from, from) == 0
  {
  }

  /** The first of the offers, split off. */
  lemma {:induction false} FirstOne(sendOk: nat -> bool, from: nat, to: nat)
    requires from < to
    ensures Successes(sendOk, from, to) == (if sendOk(from) then 1 else 0) + Successes(sendOk, from + 1, to)
  {
    if from + 1 < to {
      FirstOne(sendOk, from, to - 1);
    }
  }
}
