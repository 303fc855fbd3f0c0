/**
 The event loop: a tail queue of descriptors with their handlers, walked in step with the
 array filled by `poll` while handlers append entries and one-shot entries are unlinked.
 */
module EventLoop {
  import opened TailQueue

  /** A bit mask of poll events. */
  type Events = bv16

  const POLLIN: Events := 0x0001

  /** `handler` stands for the C function pointer together with its argument. */
  datatype EventFd<A> = EventFd(fd: int, events: Events, handler: A, once: bool)

  datatype PollFd = PollFd(fd: int, events: Events, revents: Events)

  datatype Call<A> = Call(handler: A, fd: int, revents: Events)

  /** What the k-th handler call of a pass does to the loop: the entries it adds, and its code. */
  datatype Outcome<A> = Outcome(added: seq<EventFd<A>>, ret: int)

  /** A pass over the first entries of the loop. */
  datatype Pass<A> = Pass(kept: seq<EventFd<A>>, added: seq<EventFd<A>>, calls: seq<Call<A>>, ret: int)

  datatype PollResult = PollFailed(ret: int) | Polled(revents: seq<Events>)

  function StepPass<A>(p: Pass<A>, e: EventFd<A>, revents: Events, o: Outcome<A>): Pass<A> {
    if revents == 0 then
      p.(kept := p.kept + [e])
    else
      Pass(if e.once then p.kept else p.kept + [e],
           p.added + o.added,
           p.calls + [Call(e.handler, e.fd, revents)],
           if o.ret < 0 then o.ret else p.ret)
  }

  /** The pass after its first `n` entries: call k of the pass has outcome `outcomes[k]`. */
  ghost function PassUpTo<A>(entries: seq<EventFd<A>>, revents: seq<Events>, outcomes: seq<Outcome<A>>,
                             n: nat): (p: Pass<A>)
    requires n <= |entries| == |revents| <= |outcomes|
    ensures |p.calls| <= n
  {
    if n == 0 then
      Pass([], [], [], 0)
    else
      var p := PassUpTo(entries, revents, outcomes, n - 1);
      StepPass(p, entries[n - 1], revents[n - 1], outcomes[|p.calls|])
  }

  ghost function RunPass<A>(entries: seq<EventFd<A>>, revents: seq<Events>, outcomes: seq<Outcome<A>>): Pass<A>
    requires |entries| == |revents| <= |outcomes|
  {
    PassUpTo(entries, revents, outcomes, |entries|)
  }

  function Without<T>(s: seq<T>, k: nat, drop: bool): seq<T>
    requires k < |s|
  {
    if drop then RemoveAt(s, k) else s
  }

  lemma {:induction false} Regroup<T>(a: seq<T>, b: seq<T>, c: seq<T>, d: seq<T>)
    ensures a + b + c + d == a + b + (c + d)
  {
  }

  lemma {:induction false} EmptyMiddle<T>(a: seq<T>, s: seq<T>, b: seq<T>)
    ensures a + s[|s|..] + b == a + b
  {
  }

  lemma {:induction false} WithoutMiddle<T>(a: seq<T>, s: seq<T>, i: nat, b: seq<T>, drop: bool)
    requires i < |s|
    ensures Without(a + s[i..] + b, |a|, drop) == (if drop then a else a + [s[i]]) + s[i + 1..] + b
    ensures (a + s[i..] + b)[|a|] == s[i]
  {
    assert s[i..] == [s[i]] + s[i + 1..];
    if drop {
      var whole := a + s[i..] + b;
      assert whole[..|a|] == a && whole[|a| + 1..] == s[i + 1..] + b;
    }
  }

  /** One call of the loop: the entries it sees, what `poll` reports, and what handlers do. */
  datatype Polling<A> = Polling(was: seq<EventFd<A>>, revents: seq<Events>, outcomes: seq<Outcome<A>>)
  {
    ghost function After(n: nat): Pass<A>
      requires n <= |was| == |revents| <= |outcomes|
    {
      PassUpTo(was, revents, outcomes, n)
    }
  }

  /** The nodes of the loop in the middle of a pass: kept so far, seen by `poll`, appended. */
  datatype Trace<A> = Trace(kept: seq<Node<EventFd<A>>>, polled: seq<Node<EventFd<A>>>, added: seq<Node<EventFd<A>>>)

  class Loop<A> {
    var nfds: nat
    const entries: Queue<EventFd<A>>
    ghost var Repr: set<object>

    /** The cached descriptor count is always the length of the list. */
    ghost predicate Valid()
      reads this, Repr
    {
      && this in Repr && entries in Repr
      && (forall i :: 0 <= i < |entries.nodes| ==> entries.nodes[i] in Repr)
      && entries.Valid() && nfds == |entries.nodes|
    }

    constructor ()
      ensures Valid() && fresh(Repr) && entries.Contents == []
    {
      var queue := new Queue();
      entries := queue;
      nfds := 0;
      Repr := {this, queue};
    }

    method AddInternal(entry: Node<EventFd<A>>)
      requires Valid() && entry.live && entry !in entries.nodes
      modifies Repr, entry`next
      ensures Valid() && Repr == old(Repr) + {entry}
      ensures entries.nodes == old(entries.nodes) + [entry]
      ensures entries.Contents == old(entries.Contents) + [entry.value]
    {
      var n := nfds + 1;
      entries.InsertTail(entry);
      nfds := n;
      Repr := Repr + {entry};
    }

    method Add(fd: int, events: Events, handler: A) returns (entry: Node<EventFd<A>>)
      requires Valid()
      modifies Repr
      ensures Valid() && fresh(entry) && fresh(Repr - old(Repr))
      ensures entries.nodes == old(entries.nodes) + [entry]
      ensures entries.Contents == old(entries.Contents) + [EventFd(fd, events, handler, false)]
    {
      entry := new Node(EventFd(fd, events, handler, false));
      AddInternal(entry);
    }

    method AddOnce(fd: int, events: Events, handler: A) returns (entry: Node<EventFd<A>>)
      requires Valid()
      modifies Repr
      ensures Valid() && fresh(entry) && fresh(Repr - old(Repr))
      ensures entries.nodes == old(entries.nodes) + [entry]
      ensures entries.Contents == old(entries.Contents) + [EventFd(fd, events, handler, true)]
    {
      var value := EventFd(fd, events, handler, false);
      entry := new Node(value.(once := true));
      AddInternal(entry);
    }

    method AddEvent(e: EventFd<A>) returns (entry: Node<EventFd<A>>)
      requires Valid()
      modifies Repr
      ensures Valid() && fresh(entry) && fresh(Repr - old(Repr))
      ensures entries.nodes == old(entries.nodes) + [entry]
      ensures entries.Contents == old(entries.Contents) + [e]
    {
      if e.once {
        entry := AddOnce(e.fd, e.events, e.handler);
      } else {
        entry := Add(e.fd, e.events, e.handler);
      }
    }

    /** The calls to `event_loop_add` and `event_loop_add_once` made inside one handler. */
    method AddAll(added: seq<EventFd<A>>) returns (ghost news: seq<Node<EventFd<A>>>)
      requires Valid()
      modifies Repr
      ensures Valid() && fresh(Repr - old(Repr))
      ensures entries.nodes == old(entries.nodes) + news
      ensures entries.Contents == old(entries.Contents) + added
    {
      news := [];
      for k := 0 to |added|
        invariant Valid() && fresh(Repr - old(Repr))
        invariant entries.nodes == old(entries.nodes) + news
        invariant entries.Contents == old(entries.Contents) + added[..k]
      {
        var entry := AddEvent(added[k]);
        news := news + [entry];
      }
    }

    /** After its handler has run: a one-shot entry goes. */
    method Retire(entry: Node<EventFd<A>>, ghost k: nat)
      requires Valid() && k < |entries.nodes| && entries.nodes[k] == entry
      modifies Repr
      ensures Valid() && Repr == old(Repr)
      ensures entries.Contents == Without(old(entries.Contents), k, old(entry.value.once))
      ensures entries.nodes == Without(old(entries.nodes), k, old(entry.value.once))
    {
      if entry.value.once {
        RemoveEntry(entry, k);
      }
    }

    method RemoveEntry(entry: Node<EventFd<A>>, ghost k: nat)
      requires Valid() && k < |entries.nodes| && entries.nodes[k] == entry
      modifies Repr
      ensures Valid() && Repr == old(Repr)
      ensures entries.nodes == RemoveAt(old(entries.nodes), k)
      ensures entries.Contents == RemoveAt(old(entries.Contents), k)
      ensures !entry.live
    {
      entries.AllDistinct();
      entries.Remove(entry, k);
      entry.Free();
      nfds := nfds - 1;
    }

    /** Fills one `pollfd` per entry, walking the list in step with the array. */
    method MakePollFds() returns (fds: array<PollFd>)
      requires Valid()
      ensures fresh(fds) && fds.Length == nfds
      ensures forall i :: 0 <= i < nfds ==>
        fds[i] == PollFd(entries.Contents[i].fd, entries.Contents[i].events, 0)
    {
      fds := new PollFd[nfds](_ => PollFd(0, 0, 0));
      var entry := entries.first;
      var i := 0;
      while i < nfds
        invariant i <= nfds
        invariant entry == At(entries.nodes, i)
        invariant forall j :: 0 <= j < i ==>
          fds[j] == PollFd(entries.Contents[j].fd, entries.Contents[j].events, 0)
      {
        fds[i] := PollFd(entry.value.fd, entry.value.events, 0);
        entry := entry.Next();
        i := i + 1;
      }
    }

    /** The kernel reports the events of every descriptor of the array, or fails. */
    method Poll(fds: array<PollFd>, result: PollResult) returns (ret: int)
      requires result.Polled? ==> |result.revents| == fds.Length
      requires result.PollFailed? ==> result.ret < 0
      modifies fds
      ensures result.PollFailed? ==> ret == result.ret && fds[..] == old(fds[..])
      ensures result.Polled? ==> ret >= 0 && forall i :: 0 <= i < fds.Length ==>
        fds[i] == old(fds[i]).(revents := result.revents[i])
    {
      if result.PollFailed? {
        return result.ret;
      }
      ret := 0;
      for i := 0 to fds.Length
        invariant ret >= 0
        invariant forall j :: 0 <= j < i ==> fds[j] == old(fds[j]).(revents := result.revents[j])
        invariant forall j :: i <= j < fds.Length ==> fds[j] == old(fds[j])
      {
        fds[i] := fds[i].(revents := result.revents[i]);
        ret := if result.revents[i] == 0 then ret else ret + 1;
      }
    }

    /** The list in the middle of a pass, after `i` of the entries seen by `poll`. */
    ghost predicate Midway(p: Pass<A>, was: seq<EventFd<A>>, i: nat, trace: Trace<A>)
      reads this, Repr
    {
      && Valid()
      && i <= |was| == |trace.polled|
      && |trace.kept| == |p.kept|
      && entries.Contents == p.kept + was[i..] + p.added
      && entries.nodes == trace.kept + trace.polled[i..] + trace.added
    }

    /** The list after the handler of entry `i` has appended `added`, as the nodes `news`. */
    ghost predicate Called(p: Pass<A>, was: seq<EventFd<A>>, i: nat, trace: Trace<A>,
                           added: seq<EventFd<A>>, news: seq<Node<EventFd<A>>>)
      reads this, Repr
    {
      Midway(p.(added := p.added + added), was, i, trace.(added := trace.added + news))
    }

    /** What a handler appends goes after everything else. */
    lemma HandlerAppended(p: Pass<A>, was: seq<EventFd<A>>, i: nat, trace: Trace<A>,
                          added: seq<EventFd<A>>, news: seq<Node<EventFd<A>>>)
      requires Valid() && i <= |was| == |trace.polled| && |trace.kept| == |p.kept|
      requires entries.Contents == p.kept + was[i..] + p.added + added
      requires entries.nodes == trace.kept + trace.polled[i..] + trace.added + news
      ensures Called(p, was, i, trace, added, news)
    {
      Regroup(p.kept, was[i..], p.added, added);
      Regroup(trace.kept, trace.polled[i..], trace.added, news);
    }

    /** The link of entry `i`, read before its handler can free the entry. */
    method Successor(entry: Node<EventFd<A>>, ghost p: Pass<A>, ghost was: seq<EventFd<A>>, ghost i: nat,
                     ghost trace: Trace<A>)
      returns (next: Node?<EventFd<A>>)
      requires Midway(p, was, i, trace) && i < |was| && entry == trace.polled[i]
      ensures entry.value == was[i]
      ensures i + 1 < |was| ==> next == trace.polled[i + 1]
    {
      WithoutMiddle(trace.kept, trace.polled, i, trace.added, false);
      WithoutMiddle(p.kept, was, i, p.added, false);
      next := entry.Next();
      NextInList(trace.kept, trace.polled, i, trace.added, next);
    }

    /** Entry `i` is done with: it was not ready and stays, or its handler has run. */
    method Settle(entry: Node<EventFd<A>>, revents: Events, ghost o: Outcome<A>, ghost p: Pass<A>,
                  ghost was: seq<EventFd<A>>, ghost i: nat, ghost trace: Trace<A>, ghost news: seq<Node<EventFd<A>>>)
      returns (ghost trace': Trace<A>)
      requires i < |was| && Called(p, was, i, trace, if revents == 0 then [] else o.added, news)
      requires entry == trace.polled[i]
      modifies Repr
      ensures Midway(StepPass(p, was[i], revents, o), was, i + 1, trace')
      ensures trace'.polled == trace.polled && Repr == old(Repr)
    {
      ghost var drop := revents != 0 && was[i].once;
      WithoutMiddle(trace.kept, trace.polled, i, trace.added + news, drop);
      WithoutMiddle(p.kept, was, i, p.added + if revents == 0 then [] else o.added, drop);
      if revents != 0 {
        Retire(entry, |p.kept|);
      }
      trace' := Trace(if drop then trace.kept else trace.kept + [entry], trace.polled, trace.added + news);
    }

    /** One step of the pass: entry `i` of the `was` entries seen by `poll`. */
    method Visit(entry: Node<EventFd<A>>, fd: PollFd, o: Outcome<A>,
                 ghost p: Pass<A>, ghost was: seq<EventFd<A>>, ghost i: nat, ghost trace: Trace<A>)
      returns (next: Node?<EventFd<A>>, call: seq<Call<A>>, ghost trace': Trace<A>)
      requires Midway(p, was, i, trace) && i < |was|
      requires fd.fd == was[i].fd && entry == trace.polled[i]
      modifies Repr
      ensures Midway(StepPass(p, was[i], fd.revents, o), was, i + 1, trace')
      ensures p.calls + call == StepPass(p, was[i], fd.revents, o).calls
      ensures trace'.polled == trace.polled
      ensures i + 1 < |was| ==> next == trace.polled[i + 1]
      ensures fresh(Repr - old(Repr))
    {
      next := Successor(entry, p, was, i, trace);
      ghost var news: seq<Node<EventFd<A>>> := [];
      call := [];
      if fd.revents != 0 {
        call := [Call(entry.value.handler, fd.fd, fd.revents)];
        news := AddAll(o.added);
      }
      HandlerAppended(p, was, i, trace, if fd.revents == 0 then [] else o.added, news);
      trace' := Settle(entry, fd.revents, o, p, was, i, trace, news);
    }

    /** Where the walk stands after `i` entries. */
    ghost predicate Walking(run: Polling<A>, fds: array<PollFd>, i: nat, trace: Trace<A>,
                            entry: Node?<EventFd<A>>, ret: int, calls: seq<Call<A>>)
      reads this, Repr, fds
    {
      && |run.was| == |run.revents| == fds.Length && |run.was| <= |run.outcomes| && i <= |run.was|
      && fds !in Repr
      && (forall j :: 0 <= j < fds.Length ==> fds[j].fd == run.was[j].fd && fds[j].revents == run.revents[j])
      && Midway(run.After(i), run.was, i, trace)
      && ret == run.After(i).ret && calls == run.After(i).calls
      && (i < |run.was| ==> entry == trace.polled[i])
    }

    /** One step of the walk, at entry `i`; each handler failure replaces the code to return. */
    method Advance(entry: Node<EventFd<A>>, fds: array<PollFd>, outcomes: seq<Outcome<A>>, i: nat, ret: int,
                   calls: seq<Call<A>>, ghost run: Polling<A>, ghost trace: Trace<A>)
      returns (next: Node?<EventFd<A>>, ret': int, calls': seq<Call<A>>, ghost trace': Trace<A>)
      requires Walking(run, fds, i, trace, entry, ret, calls) && i < |run.was| && outcomes == run.outcomes
      modifies Repr
      ensures Walking(run, fds, i + 1, trace', next, ret', calls')
      ensures i + 1 < |run.was| ==> next != null
      ensures fresh(Repr - old(Repr))
    {
      var o := outcomes[|calls|];
      ret' := if fds[i].revents != 0 && o.ret < 0 then o.ret else ret;
      var call: seq<Call<A>>;
      next, call, trace' := Visit(entry, fds[i], o, run.After(i), run.was, i, trace);
      calls' := calls + call;
    }

    lemma Started(run: Polling<A>, fds: array<PollFd>)
      requires Valid() && fds !in Repr && fds.Length == nfds == |run.revents| <= |run.outcomes|
        && run.was == entries.Contents
      requires forall j :: 0 <= j < nfds ==> fds[j].fd == entries.Contents[j].fd && fds[j].revents == run.revents[j]
      ensures Walking(run, fds, 0, Trace([], entries.nodes, []), entries.first, 0, [])
      ensures 0 < nfds ==> entries.first != null
    {
    }

    lemma Finished(run: Polling<A>, fds: array<PollFd>, i: nat, trace: Trace<A>, entry: Node?<EventFd<A>>, ret: int,
                   calls: seq<Call<A>>)
      requires i == |run.was| && Walking(run, fds, i, trace, entry, ret, calls)
      ensures Valid() && Ended(run, ret, calls)
    {
      EmptyMiddle(run.After(i).kept, run.was, run.After(i).added);
    }

    /** What a whole pass leaves behind. */
    ghost predicate Ended(run: Polling<A>, ret: int, calls: seq<Call<A>>)
      requires |run.was| == |run.revents| <= |run.outcomes|
      reads this, entries
    {
      var p := RunPass(run.was, run.revents, run.outcomes);
      ret == p.ret && calls == p.calls && entries.Contents == p.kept + p.added
    }

    /** The walk over the list in step with the filled array; `calls` records the handler calls. */
    method Walk(fds: array<PollFd>, outcomes: seq<Outcome<A>>, ghost run: Polling<A>)
      returns (ret: int, calls: seq<Call<A>>)
      requires Valid() && fds !in Repr && fds.Length == nfds == |run.revents| <= |run.outcomes|
      requires run.was == entries.Contents && run.outcomes == outcomes
      requires forall j :: 0 <= j < nfds ==> fds[j].fd == entries.Contents[j].fd && fds[j].revents == run.revents[j]
      modifies Repr
      ensures Valid() && Ended(run, ret, calls)
      ensures fresh(Repr - old(Repr))
    {
      hide Walking;
      // The count is cached so that handlers can append entries.
      var n := nfds;
      ghost var trace := Trace([], entries.nodes, []);
      var entry := entries.first;
      ret, calls := 0, [];
      Started(run, fds);
      var i := 0;
      while i < n
        invariant i <= n == |run.was|
        invariant Walking(run, fds, i, trace, entry, ret, calls)
        invariant i < n ==> entry != null
        invariant fresh(Repr - old(Repr))
      {
        entry, ret, calls, trace := Advance(entry, fds, outcomes, i, ret, calls, run, trace);
        i := i + 1;
      }
      Finished(run, fds, i, trace, entry, ret, calls);
    }

    /** One pass: exactly the fold `RunPass`, done in place on the list. */
    method Run(poll: PollResult, outcomes: seq<Outcome<A>>) returns (ret: int, calls: seq<Call<A>>)
      requires Valid() && nfds <= |outcomes|
      requires poll.Polled? ==> |poll.revents| == nfds
      requires poll.PollFailed? ==> poll.ret < 0
      modifies Repr
      ensures Valid()
      ensures poll.PollFailed? ==> ret == poll.ret && calls == [] && entries.Contents == old(entries.Contents)
      ensures poll.Polled? ==>
        var p := RunPass(old(entries.Contents), poll.revents, outcomes);
        && ret == p.ret && calls == p.calls
        && entries.Contents == p.kept + p.added
      ensures fresh(Repr - old(Repr))
    {
      calls := [];
      var fds := MakePollFds();
      ret := Poll(fds, poll);
      if ret >= 0 {
        ret, calls := Walk(fds, outcomes, Polling(entries.Contents, poll.revents, outcomes));
      }
    }

    lemma NextInList(a: seq<Node<EventFd<A>>>, s: seq<Node<EventFd<A>>>, i: nat, b: seq<Node<EventFd<A>>>,
                     next: Node?<EventFd<A>>)
      requires Valid() && i < |s| && entries.nodes == a + s[i..] + b
      requires next == s[i].next
      ensures i + 1 < |s| ==> next == s[i + 1]
    {
      var k := |a|;
      assert entries.nodes[k] == s[i];
      if i + 1 < |s| {
        assert entries.nodes[k + 1] == s[i + 1];
        assert entries.nodes[k].next == At(entries.nodes, k + 1);
      }
    }
  }
}
