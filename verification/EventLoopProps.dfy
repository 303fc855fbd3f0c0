/** What one pass of the event loop amounts to, without the walk. */
module EventLoopProps {
  import opened EventLoop

  /** The positions at which `keep` holds, in increasing order. */
  ghost function Positions(keep: seq<bool>): seq<nat> {
    if keep == [] then []
    else
      var n := |keep| - 1;
      Positions(keep[..n]) + (if keep[n] then [n] else [])
  }

  lemma {:induction false} PositionsAreOrdered(keep: seq<bool>)
    ensures forall k :: 0 <= k < |Positions(keep)| ==> Positions(keep)[k] < |keep| && keep[Positions(keep)[k]]
    ensures forall j, k :: 0 <= j < k < |Positions(keep)| ==> Positions(keep)[j] < Positions(keep)[k]
    ensures forall i :: 0 <= i < |keep| && keep[i] ==> i in Positions(keep)
  {
    if keep != [] {
      PositionsAreOrdered(keep[..|keep| - 1]);
    }
  }

  ghost function Ready(revents: seq<Events>): seq<bool> {
    seq(|revents|, i requires 0 <= i < |revents| => revents[i] != 0)
  }

  /** Everything except the one-shot entries that were ready. */
  ghost function Surviving<A>(entries: seq<EventFd<A>>, revents: seq<Events>): seq<bool>
    requires |entries| == |revents|
  {
    seq(|entries|, i requires 0 <= i < |entries| => !(revents[i] != 0 && entries[i].once))
  }

  ghost function CallOf<A>(e: EventFd<A>, revents: Events): Call<A> {
    Call(e.handler, e.fd, revents)
  }

  ghost function AllAdded<A>(outcomes: seq<Outcome<A>>): seq<EventFd<A>> {
    if outcomes == [] then [] else AllAdded(outcomes[..|outcomes| - 1]) + outcomes[|outcomes| - 1].added
  }

  /** Every ready entry's handler ran once, in list order, with its own descriptor and events. */
  ghost predicate CallsAreReady<A>(p: Pass<A>, entries: seq<EventFd<A>>, revents: seq<Events>)
    requires |entries| == |revents|
  {
    var at := Positions(Ready(revents));
    && |p.calls| == |at|
    && (forall k :: 0 <= k < |at| ==> at[k] < |entries| && p.calls[k] == CallOf(entries[at[k]], revents[at[k]]))
  }

  /** The entries that stay are the others, in order. */
  ghost predicate KeptAreSurviving<A>(p: Pass<A>, entries: seq<EventFd<A>>, revents: seq<Events>)
    requires |entries| == |revents|
  {
    var left := Positions(Surviving(entries, revents));
    && |p.kept| == |left|
    && (forall k :: 0 <= k < |left| ==> left[k] < |entries| && p.kept[k] == entries[left[k]])
  }

  /** What was appended, call by call, and the code returned. */
  ghost predicate OutcomesCollected<A>(p: Pass<A>, outcomes: seq<Outcome<A>>) {
    && |p.calls| <= |outcomes|
    && p.added == AllAdded(outcomes[..|p.calls|])
    && p.ret <= 0
    && (p.ret < 0 <==> exists k :: 0 <= k < |p.calls| && outcomes[k].ret < 0)
  }

  /** One pass runs the handlers of the ready entries, and nothing else, in list order. */
  lemma {:induction false} OnePass<A>(entries: seq<EventFd<A>>, revents: seq<Events>, outcomes: seq<Outcome<A>>)
    requires |entries| == |revents| <= |outcomes|
    ensures CallsAreReady(RunPass(entries, revents, outcomes), entries, revents)
    ensures KeptAreSurviving(RunPass(entries, revents, outcomes), entries, revents)
    ensures OutcomesCollected(RunPass(entries, revents, outcomes), outcomes)
  {
    CallsUpTo(entries, revents, outcomes, |entries|);
    KeptUpTo(entries, revents, outcomes, |entries|);
    CollectedUpTo(entries, revents, outcomes, |entries|);
    assert entries[..|entries|] == entries && revents[..|entries|] == revents;
  }

  lemma {:induction false} CallsUpTo<A>(entries: seq<EventFd<A>>, revents: seq<Events>, outcomes: seq<Outcome<A>>,
                                        n: nat)
    requires n <= |entries| == |revents| <= |outcomes|
    ensures CallsAreReady(PassUpTo(entries, revents, outcomes, n), entries[..n], revents[..n])
  {
    if n > 0 {
      CallsUpTo(entries, revents, outcomes, n - 1);
      assert Ready(revents[..n]) == Ready(revents[..n - 1]) + [revents[n - 1] != 0];
      PositionsSnoc(Ready(revents[..n - 1]), revents[n - 1] != 0);
    }
  }

  lemma {:induction false} KeptUpTo<A>(entries: seq<EventFd<A>>, revents: seq<Events>, outcomes: seq<Outcome<A>>,
                                       n: nat)
    requires n <= |entries| == |revents| <= |outcomes|
    ensures KeptAreSurviving(PassUpTo(entries, revents, outcomes, n), entries[..n], revents[..n])
  {
    if n > 0 {
      KeptUpTo(entries, revents, outcomes, n - 1);
      var stays := !(revents[n - 1] != 0 && entries[n - 1].once);
      assert Surviving(entries[..n], revents[..n]) == Surviving(entries[..n - 1], revents[..n - 1]) + [stays];
      PositionsSnoc(Surviving(entries[..n - 1], revents[..n - 1]), stays);
    }
  }

  lemma {:induction false} CollectedUpTo<A>(entries: seq<EventFd<A>>, revents: seq<Events>, outcomes: seq<Outcome<A>>,
                                            n: nat)
    requires n <= |entries| == |revents| <= |outcomes|
    ensures OutcomesCollected(PassUpTo(entries, revents, outcomes, n), outcomes)
  {
    if n > 0 {
      CollectedUpTo(entries, revents, outcomes, n - 1);
      var p := PassUpTo(entries, revents, outcomes, n - 1);
      hide PassUpTo;
      CollectedStep(p, entries[n - 1], revents[n - 1], outcomes);
    }
  }

  lemma CollectedStep<A>(p: Pass<A>, e: EventFd<A>, revents: Events, outcomes: seq<Outcome<A>>)
    requires OutcomesCollected(p, outcomes) && |p.calls| < |outcomes|
    ensures OutcomesCollected(StepPass(p, e, revents, outcomes[|p.calls|]), outcomes)
  {
    var c := |p.calls|;
    assert outcomes[..c + 1][..c] == outcomes[..c] && outcomes[..c + 1][c] == outcomes[c];
  }

  lemma {:induction false} PositionsSnoc(keep: seq<bool>, b: bool)
    ensures Positions(keep + [b]) == Positions(keep) + (if b then [|keep|] else [])
  {
    assert (keep + [b])[..|keep|] == keep;
  }
}
