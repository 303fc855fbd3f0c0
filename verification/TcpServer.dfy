/**
 The TCP server in the heap: its client queue, the event loop it is registered in, and the
 passes that call its handlers.  Each method is proved to be the step of `ClientLifecycle`
 it implements, on the sequences the lists stand for.
 */
module TcpServer {
  import opened TailQueue
  import opened EventLoop
  import opened ClientLifecycle

  /** The part of the outside world that clients touch: descriptors and threads. */
  class Kernel {
    var running: set<Client>
    var nextFd: nat
    var fdsOpened: seq<nat>
    var fdsClosed: seq<nat>
    var accepted: seq<Client>
    var joined: seq<Client>
    var waited: set<Client>

    constructor (nextFd: nat)
      ensures running == {} && this.nextFd == nextFd && fdsOpened == [] && fdsClosed == []
      ensures accepted == [] && joined == [] && waited == {}
    {
      running, this.nextFd, fdsOpened, fdsClosed, accepted, joined, waited := {}, nextFd, [], [], [], [], {};
    }

    method Open() returns (fd: nat)
      modifies this`nextFd, this`fdsOpened
      ensures fd == old(nextFd) && nextFd == fd + 1 && fdsOpened == old(fdsOpened) + [fd]
    {
      fd := nextFd;
      nextFd, fdsOpened := fd + 1, fdsOpened + [fd];
    }

    method Close(fd: nat)
      modifies this`fdsClosed
      ensures fdsClosed == old(fdsClosed) + [fd]
    {
      fdsClosed := fdsClosed + [fd];
    }

    /** The accepted connection and its eventfd. */
    method OpenClient() returns (c: Client)
      modifies this`nextFd, this`fdsOpened
      ensures c == Client(old(nextFd), old(nextFd) + 1) && nextFd == old(nextFd) + 2
      ensures fdsOpened == old(fdsOpened) + [c.conn, c.cleanup]
    {
      var connFd := Open();
      var cleanupFd := Open();
      c := Client(connFd, cleanupFd);
    }

    /** Threads that are done write their eventfd, whatever this thread does. */
    method Finish(finished: set<Client>)
      modifies this`running
      ensures running == old(running) - finished
    {
      running := running - finished;
    }

    method CreateThread(c: Client)
      modifies this`running, this`accepted
      ensures running == old(running) + {c} && accepted == old(accepted) + [c]
    {
      running, accepted := running + {c}, accepted + [c];
    }

    /** Returns once the thread has finished. */
    method Join(c: Client)
      modifies this`running, this`joined, this`waited
      ensures running == old(running) - {c} && joined == old(joined) + [c]
      ensures waited == if c in old(running) then old(waited) + {c} else old(waited)
    {
      waited := if c in running then waited + {c} else waited;
      running, joined := running - {c}, joined + [c];
    }

    /** Joins the thread and closes both descriptors. */
    method Bury(c: Client)
      modifies this`running, this`joined, this`waited, this`fdsClosed
      ensures running == old(running) - {c} && joined == old(joined) + [c]
      ensures waited == if c in old(running) then old(waited) + {c} else old(waited)
      ensures fdsClosed == old(fdsClosed) + [c.cleanup, c.conn]
    {
      Join(c);
      Close(c.cleanup);
      Close(c.conn);
    }
  }

  /** The TCP server: its client queue, and the event loop it is registered in. */
  class Listener {
    const loop: Loop<Handler>
    const queue: Queue<Client>
    const kernel: Kernel
    var stopping: bool
    ghost var Repr: set<object>

    ghost predicate Valid()
      reads this, Repr, loop, loop.Repr
    {
      && this in Repr && queue in Repr && kernel in Repr
      && (forall i :: 0 <= i < |queue.nodes| ==> queue.nodes[i] in Repr)
      && Repr !! loop.Repr
      && queue.Valid() && loop.Valid()
    }

    ghost function View(): Server
      reads this, queue, kernel
    {
      Server(stopping, queue.Contents, kernel.running, kernel.nextFd, kernel.fdsOpened, kernel.fdsClosed,
             kernel.accepted, kernel.joined, kernel.waited, false)
    }

    /** The server and what its loop still has to do. */
    ghost function Alive(): Life
      reads this, queue, kernel, loop, loop.entries
    {
      Life(View(), loop.entries.Contents)
    }

    constructor (loop: Loop<Handler>, kernel: Kernel)
      requires loop.Valid() && kernel !in loop.Repr
      ensures Valid() && fresh(Repr - {kernel}) && this.loop == loop && this.kernel == kernel
      ensures queue.Contents == [] && !stopping
    {
      var clients := new Queue();
      queue, this.loop, this.kernel, stopping := clients, loop, kernel, false;
      Repr := {this, clients, kernel};
    }

    /** An accepted connection: eventfd, clean-up entry, client queue, thread. */
    method AcceptConnection() returns (ghost entry: Node<EventFd<Handler>>)
      requires Valid()
      modifies this`Repr, kernel, queue, queue.nodes, loop.Repr
      ensures Valid() && fresh(Repr - old(Repr)) && fresh(loop.Repr - old(loop.Repr))
      ensures View() == ClientCreate(old(View()))
      ensures
        var c := Client(old(kernel.nextFd), old(kernel.nextFd) + 1);
        && queue.Contents == old(queue.Contents) + [c] && c in kernel.running
        && kernel.accepted == old(kernel.accepted) + [c] && kernel.nextFd == old(kernel.nextFd) + 2
        && loop.entries.Contents == old(loop.entries.Contents) + [EventFd(c.cleanup, POLLIN, Cleanup(c), true)]
      ensures loop.entries.nodes == old(loop.entries.nodes) + [entry]
    {
      hide ClientCreate;
      CreateInParts(View());
      var client := OpenClient();
      entry := Register(client);
      StartClient(client);
    }

    /** The connection and its eventfd. */
    method OpenClient() returns (client: Client)
      requires Valid()
      modifies kernel
      ensures Valid() && client == Client(old(kernel.nextFd), old(kernel.nextFd) + 1)
      ensures View() == Opened(old(View()))
    {
      client := kernel.OpenClient();
    }

    method Register(client: Client) returns (ghost entry: Node<EventFd<Handler>>)
      requires Valid()
      modifies loop.Repr
      ensures Valid() && fresh(loop.Repr - old(loop.Repr)) && View() == old(View())
      ensures loop.entries.nodes == old(loop.entries.nodes) + [entry]
      ensures loop.entries.Contents == old(loop.entries.Contents) + [CleanupEntry(client)]
    {
      entry := loop.AddOnce(client.cleanup, POLLIN, Cleanup(client));
    }

    method StartClient(client: Client)
      requires Valid()
      modifies this`Repr, kernel, queue, queue.nodes
      ensures Valid() && fresh(Repr - old(Repr)) && loop.Repr == old(loop.Repr)
      ensures
        var s := old(View());
        View() == Started(s, client)
      ensures loop.entries.nodes == old(loop.entries.nodes) && loop.entries.Contents == old(loop.entries.Contents)
    {
      var node := new Node(client);
      queue.InsertTail(node);
      Repr := Repr + {node};
      kernel.CreateThread(client);
    }

    /** The eventfd cannot be made: the connection is closed again and nothing is queued. */
    method AcceptWithoutEventfd()
      requires Valid()
      modifies kernel
      ensures Valid() && View() == EventfdFails(old(View()))
    {
      var connFd := kernel.Open();
      kernel.Close(connFd);
    }

    /** `tcp_server_accept`. */
    method AcceptOne(result: AcceptResult) returns (ret: int, ghost news: seq<Node<EventFd<Handler>>>)
      requires Valid()
      modifies this`Repr, kernel, queue, queue.nodes, loop.Repr
      ensures Valid() && fresh(Repr - old(Repr)) && fresh(loop.Repr - old(loop.Repr))
      ensures
        var h := Effect(old(View()), Accept, result);
        && View() == h.server && ret == h.outcome.ret
        && loop.entries.Contents == old(loop.entries.Contents) + h.outcome.added
      ensures loop.entries.nodes == old(loop.entries.nodes) + news
    {
      ret, news := -1, [];
      match result {
        case AcceptFailed =>
        case EventfdFailed => AcceptWithoutEventfd();
        case Accepted =>
          ghost var entry;
          entry := AcceptConnection();
          ret, news := 0, [entry];
      }
    }

    method Destroy(client: Node<Client>, ghost k: nat)
      requires Valid() && k < |queue.nodes| && queue.nodes[k] == client
      modifies queue, kernel, queue.nodes
      ensures Valid() && queue.nodes == RemoveAt(old(queue.nodes), k) && !client.live
      ensures View() == ClientDestroyAt(old(View()), k)
    {
      queue.AllDistinct();
      queue.Remove(client, k);
      kernel.Bury(client.value);
      client.Free();
    }

    /** Destroys every client, reading each link before its client is unlinked and freed. */
    method DestroyAll()
      requires Valid()
      modifies queue, kernel, queue.nodes
      ensures Valid() && queue.nodes == []
      ensures View() == ClientQueueDestroy(old(View()))
    {
      var entry1 := queue.first;
      while entry1 != null
        invariant Valid() && entry1 == At(queue.nodes, 0)
        invariant forall i :: 0 <= i < |queue.nodes| ==> queue.nodes[i] in old(queue.nodes)
        invariant ClientQueueDestroy(View()) == ClientQueueDestroy(old(View()))
        decreases |queue.nodes|
      {
        var entry2 := entry1.Next();
        Destroy(entry1, 0);
        entry1 := entry2;
      }
    }

    /** The client whose pointer was registered with its clean-up. */
    method Registered(c: Client) returns (client: Node<Client>, ghost k: nat)
      requires Valid() && c in queue.Contents
      ensures k < |queue.nodes| && queue.nodes[k] == client && k == IndexOf(queue.Contents, c)
    {
      k := 0;
      var entry := queue.first;
      while entry.value != c
        invariant k < |queue.nodes| && entry == At(queue.nodes, k) && c in queue.Contents[k..]
        invariant IndexOf(queue.Contents, c) == k + IndexOf(queue.Contents[k..], c)
        decreases |queue.nodes| - k
      {
        assert queue.Contents[k..][1..] == queue.Contents[k + 1..];
        entry, k := entry.Next(), k + 1;
      }
      client := entry;
    }

    /** `client_destroy_handler`. */
    method CleanUp(c: Client)
      requires Valid() && c in queue.Contents
      modifies queue, kernel, queue.nodes
      ensures Valid() && View() == ClientDestroy(old(View()), c)
      ensures loop.entries.nodes == old(loop.entries.nodes) && loop.entries.Contents == old(loop.entries.Contents)
      ensures loop.Repr == old(loop.Repr)
    {
      ghost var k;
      var client;
      client, k := Registered(c);
      Destroy(client, k);
    }

    /** A ready handler, called on the heap. */
    method Call(handler: Handler, accept: AcceptResult) returns (ret: int, ghost news: seq<Node<EventFd<Handler>>>)
      requires Valid() && (handler.Cleanup? ==> handler.client in queue.Contents)
      modifies Repr, loop.Repr
      ensures Valid() && fresh(Repr - old(Repr)) && fresh(loop.Repr - old(loop.Repr))
      ensures
        var h := Effect(old(View()), handler, accept);
        && View() == h.server && ret == h.outcome.ret
        && loop.entries.Contents == old(loop.entries.Contents) + h.outcome.added
      ensures loop.entries.nodes == old(loop.entries.nodes) + news
    {
      hide ClientCreate, ClientDestroy;
      news, ret := [], 0;
      match handler {
        case SetStopping => stopping := true;
        case Cleanup(c) => CleanUp(c);
        case Accept => ret, news := AcceptOne(accept);
      }
    }

    method Invoke(handler: Handler, env: Env) returns (ret: int, ghost news: seq<Node<EventFd<Handler>>>)
      requires Valid() && (handler.Cleanup? ==> handler.client in queue.Contents)
      modifies Repr, loop.Repr
      ensures Valid() && fresh(Repr - old(Repr)) && fresh(loop.Repr - old(loop.Repr))
      ensures
        var h := Handle(old(View()), handler, env);
        && View() == h.server && ret == h.outcome.ret
        && loop.entries.Contents == old(loop.entries.Contents) + h.outcome.added
      ensures loop.entries.nodes == old(loop.entries.nodes) + news
    {
      hide Effect;
      kernel.Finish(env.finished);
      ret, news := Call(handler, env.accept);
    }

    /** Where a pass stands after `i` entries, `called` handlers having been called. */
    ghost predicate Midst(pass: Passing, fds: array<PollFd>, i: nat, trace: Trace<Handler>,
                          entry: Node?<EventFd<Handler>>, ret: int, called: nat)
      reads this, Repr, loop, loop.Repr, fds
    {
      && Valid() && fds !in Repr && fds !in loop.Repr && pass.Ok() && i <= |pass.was| == fds.Length
      && (forall j :: 0 <= j < fds.Length ==> fds[j].revents == pass.revents[j])
      && loop.Midway(pass.After(i).pass, pass.was, i, trace)
      && View() == pass.After(i).server && called == |pass.After(i).outcomes| && ret == pass.After(i).pass.ret
      && (i < |pass.was| ==> entry == trace.polled[i])
    }

    /** The handler of entry `i`, if it is ready. */
    method ServeEntry(handler: Handler, revents: Events, envs: seq<Env>, ghost i: nat, ret: int, called: nat,
                      ghost pass: Passing, ghost trace: Trace<Handler>)
      returns (ret': int, called': nat, ghost news: seq<Node<EventFd<Handler>>>)
      requires Valid() && pass.Ok() && i < |pass.was| && envs == pass.envs
      requires handler == pass.was[i].handler && revents == pass.revents[i]
      requires View() == pass.After(i).server && called == |pass.After(i).outcomes| && ret == pass.After(i).pass.ret
      requires loop.Midway(pass.After(i).pass, pass.was, i, trace)
      modifies Repr, loop.Repr
      ensures Valid() && fresh(Repr - old(Repr)) && fresh(loop.Repr - old(loop.Repr))
      ensures View() == pass.After(i + 1).server && called' == |pass.After(i + 1).outcomes|
      ensures ret' == pass.After(i + 1).pass.ret
      ensures loop.Called(pass.After(i).pass, pass.was, i, trace, pass.Added(i), news)
    {
      hide PassUpTo, ServeUpTo, Inv, Possible, Handle;
      pass.Step(i);
      ret', called', news := ret, called, [];
      if revents != 0 {
        var code;
        code, news := Invoke(handler, envs[called]);
        ret' := if code < 0 then code else ret;
        called' := called + 1;
      }
      loop.HandlerAppended(pass.After(i).pass, pass.was, i, trace, pass.Added(i), news);
    }

    method SettleEntry(entry: Node<EventFd<Handler>>, revents: Events, ghost i: nat,
                       ghost pass: Passing, ghost trace: Trace<Handler>, ghost news: seq<Node<EventFd<Handler>>>)
      returns (ghost trace': Trace<Handler>)
      requires Valid() && pass.Ok() && i < |pass.was| && revents == pass.revents[i]
      requires loop.Called(pass.After(i).pass, pass.was, i, trace, pass.Added(i), news) && entry == trace.polled[i]
      modifies loop.Repr
      ensures Valid() && loop.Repr == old(loop.Repr) && View() == old(View())
      ensures loop.Midway(pass.After(i + 1).pass, pass.was, i + 1, trace') && trace'.polled == trace.polled
    {
      hide ServeUpTo, Inv, Possible, Handle, StepPass;
      pass.Step(i);
      ghost var o := pass.Run().outcomes[|pass.After(i).outcomes|];
      trace' := loop.Settle(entry, revents, o, pass.After(i).pass, pass.was, i, trace, news);
    }

    /** One entry of the pass. */
    method Step(entry: Node<EventFd<Handler>>, fds: array<PollFd>, envs: seq<Env>, i: nat, ret: int, called: nat,
                ghost pass: Passing, ghost trace: Trace<Handler>)
      returns (next: Node?<EventFd<Handler>>, ret': int, called': nat, ghost trace': Trace<Handler>)
      requires Midst(pass, fds, i, trace, entry, ret, called) && i < |pass.was| && envs == pass.envs
      modifies Repr, loop.Repr
      ensures Midst(pass, fds, i + 1, trace', next, ret', called')
      ensures i + 1 < |pass.was| ==> next != null
      ensures fresh(Repr - old(Repr)) && fresh(loop.Repr - old(loop.Repr))
    {
      hide ServeUpTo, Inv, Possible;
      next := loop.Successor(entry, pass.After(i).pass, pass.was, i, trace);
      ghost var news;
      ret', called', news := ServeEntry(entry.value.handler, fds[i].revents, envs, i, ret, called, pass, trace);
      trace' := SettleEntry(entry, fds[i].revents, i, pass, trace, news);
    }

    /** `event_loop_run` with the server's handlers called on the heap: one pass of the lifecycle. */
    method RunOnce(poll: PollResult, envs: seq<Env>) returns (ret: int)
      requires Valid() && Inv(Alive())
      requires poll.Polled? ==> Possible(Alive(), LoopPass(poll.revents, envs))
      requires poll.PollFailed? ==> poll.ret < 0
      modifies Repr, loop.Repr
      ensures Valid() && fresh(Repr - old(Repr)) && fresh(loop.Repr - old(loop.Repr))
      ensures poll.PollFailed? ==> ret == poll.ret && Alive() == old(Alive())
      ensures poll.Polled? ==>
        && Alive() == Next(old(Alive()), LoopPass(poll.revents, envs))
        && ret == Serve(old(View()), old(loop.entries.Contents), poll.revents, envs).pass.ret
    {
      hide Inv, ServeUpTo;
      var fds := loop.MakePollFds();
      ret := loop.Poll(fds, poll);
      if ret >= 0 {
        ret := Pass(fds, envs, Passing(View(), loop.entries.Contents, poll.revents, envs));
      }
    }

    method Pass(fds: array<PollFd>, envs: seq<Env>, ghost pass: Passing) returns (ret: int)
      requires Valid() && pass.Ok() && envs == pass.envs && fds !in Repr && fds !in loop.Repr
      requires Alive() == Life(pass.start, pass.was) && fds.Length == |pass.was|
      requires forall j :: 0 <= j < fds.Length ==> fds[j].revents == pass.revents[j]
      modifies Repr, loop.Repr
      ensures Valid() && fresh(Repr - old(Repr)) && fresh(loop.Repr - old(loop.Repr))
      ensures Alive() == Next(old(Alive()), LoopPass(pass.revents, envs))
      ensures ret == pass.After(|pass.was|).pass.ret
    {
      hide Inv, Midst, Next;
      // The count is cached so that handlers can append entries.
      var n := loop.nfds;
      ghost var trace := Trace([], loop.entries.nodes, []);
      var entry := loop.entries.first;
      var called := 0;
      ret := 0;
      PassStarts(pass, fds);
      var i := 0;
      while i < n
        invariant i <= n == |pass.was| && Midst(pass, fds, i, trace, entry, ret, called)
        invariant i < n ==> entry != null
        invariant fresh(Repr - old(Repr)) && fresh(loop.Repr - old(loop.Repr))
      {
        entry, ret, called, trace := Step(entry, fds, envs, i, ret, called, pass, trace);
        i := i + 1;
      }
      PassFinishes(pass, fds, trace, entry, ret, called);
    }

    lemma PassStarts(pass: Passing, fds: array<PollFd>)
      requires Valid() && pass.Ok() && fds !in Repr && fds !in loop.Repr
      requires Alive() == Life(pass.start, pass.was) && fds.Length == |pass.was|
      requires forall j :: 0 <= j < fds.Length ==> fds[j].revents == pass.revents[j]
      ensures Midst(pass, fds, 0, Trace([], loop.entries.nodes, []), loop.entries.first, 0, 0)
      ensures pass.was != [] ==> loop.entries.first != null
    {
      hide Inv, Possible;
    }

    lemma PassFinishes(pass: Passing, fds: array<PollFd>, trace: Trace<Handler>, entry: Node?<EventFd<Handler>>,
                       ret: int, called: nat)
      requires Midst(pass, fds, |pass.was|, trace, entry, ret, called)
      ensures Valid() && Alive() == Next(Life(pass.start, pass.was), LoopPass(pass.revents, pass.envs))
      ensures ret == pass.After(|pass.was|).pass.ret
    {
      hide Inv, ServeUpTo;
      var p := pass.After(|pass.was|).pass;
      EmptyMiddle(p.kept, pass.was, p.added);
    }

    /**
     `server_listen_thread`: passes exactly until `stopping` is set or a pass fails, or for ever
     in `poll` once nothing more happens.
     */
    method Listen(events: seq<Event>, ghost end: Life) returns (ret: int, k: nat)
      requires Valid() && Inv(Alive()) && Reaches(Alive(), events, end)
      modifies Repr, loop.Repr
      ensures Valid() && fresh(Repr - old(Repr)) && fresh(loop.Repr - old(loop.Repr))
      ensures k <= |events| && Reaches(old(Alive()), events[..k], Alive())
      ensures k < |events| ==> stopping || ret < 0
      ensures ret < 0 ==> 0 < k && FailsAfter(old(Alive()), events[..k - 1], events[k - 1])
      ensures forall j :: 0 <= j < k ==> RunsOn(old(Alive()), events, j)
      ensures forall j :: 0 <= j < k ==> SucceedsAt(old(Alive()), events, j) || (j == k - 1 && ret < 0)
    {
      hide Inv, Next, Possible, Fails, RunsOn, SucceedsAt;
      ghost var start := Alive();
      ret, k := 0, 0;
      while !stopping && ret >= 0 && k < |events|
        invariant Valid() && fresh(Repr - old(Repr)) && fresh(loop.Repr - old(loop.Repr))
        invariant k <= |events| && Inv(Alive())
        invariant Reaches(start, events[..k], Alive()) && Reaches(Alive(), events[k..], end)
        invariant ret < 0 ==> 0 < k && FailsAfter(start, events[..k - 1], events[k - 1])
        invariant forall j :: 0 <= j < k ==> RunsOn(start, events, j)
        invariant forall j :: 0 <= j < k ==> SucceedsAt(start, events, j) || (j == k - 1 && ret < 0)
        decreases |events| - k
      {
        ghost var before := Alive();
        HereItRuns(start, events, k, before);
        assert events[k..][0] == events[k] && events[k..][1..] == events[k + 1..];
        assert events[..k + 1] == events[..k] + [events[k]];
        NextKeeps(before, events[k]);
        ret := Happen(events[k]);
        ReachesSnoc(start, events[..k], before, events[k]);
        if ret >= 0 {
          HereItSucceeds(start, events, k, before);
        }
        k := k + 1;
      }
    }

    method Happen(e: Event) returns (ret: int)
      requires Valid() && Inv(Alive()) && Possible(Alive(), e)
      modifies Repr, loop.Repr
      ensures Valid() && fresh(Repr - old(Repr)) && fresh(loop.Repr - old(loop.Repr))
      ensures Alive() == Next(old(Alive()), e) && (ret < 0 <==> Fails(old(Alive()), e))
    {
      hide Inv, Serve;
      match e {
        case ThreadFinishes(c) =>
          kernel.Finish({c});
          ret := 0;
        case LoopPass(revents, envs) =>
          ret := RunOnce(Polled(revents), envs);
      }
    }

    /**
     The listening thread and then the shutdown: nobody and no descriptor is left behind of all
     that were accepted in the `k` events up to `mid`.
     */
    method ListenAndDestroy(events: seq<Event>, ghost end: Life) returns (ret: int, k: nat, ghost mid: Life)
      requires Valid() && Start(Alive(), kernel.nextFd) && Reaches(Alive(), events, end)
      modifies Repr, loop.Repr
      ensures Valid() && queue.Contents == [] && kernel.running == {}
      ensures k <= |events| && Reaches(old(Alive()), events[..k], mid)
      ensures k < |events| ==>
        mid.server.stopping || (ret < 0 && 0 < k && FailsAfter(old(Alive()), events[..k - 1], events[k - 1]))
      ensures kernel.accepted == mid.server.accepted && kernel.fdsOpened == mid.server.fdsOpened
      ensures multiset(kernel.joined) == multiset(kernel.accepted) && AtMostOnce(multiset(kernel.joined))
      ensures multiset(kernel.fdsClosed) == multiset(kernel.fdsOpened) && AtMostOnce(multiset(kernel.fdsClosed))
    {
      hide Reaches, Inv;
      ghost var start, nextFd := Alive(), kernel.nextFd;
      StartInv(start, nextFd, start.entries);
      ret, k := Listen(events, end);
      mid := Alive();
      EveryClientIsCleanedUp(start, nextFd, events[..k], mid);
      DestroyOpensNothing(mid.server);
      DestroyAll();
    }
  }

  function Opened(s: Server): Server {
    s.(nextFd := s.nextFd + 2, fdsOpened := s.fdsOpened + [s.nextFd, s.nextFd + 1])
  }

  function Started(s: Server, c: Client): Server {
    s.(queue := s.queue + [c], running := s.running + {c}, accepted := s.accepted + [c])
  }

  lemma CreateInParts(s: Server)
    ensures ClientCreate(s) == Started(Opened(s), Client(s.nextFd, s.nextFd + 1))
  {
  }

  ghost predicate Fails(l: Life, e: Event) {
    e.LoopPass? && Possible(l, e) && Serve(l.server, l.entries, e.revents, e.envs).pass.ret < 0
  }

  /** The event after these ones is a pass that fails. */
  ghost predicate FailsAfter(start: Life, events: seq<Event>, e: Event) {
    exists l :: Reaches(start, events, l) && Fails(l, e)
  }

  /** After the first `j` events the server has not been told to stop. */
  ghost predicate RunsOn(start: Life, events: seq<Event>, j: nat)
    requires j <= |events|
  {
    forall l :: Reaches(start, events[..j], l) ==> !l.server.stopping
  }

  /** Event `j` is no pass that fails. */
  ghost predicate SucceedsAt(start: Life, events: seq<Event>, j: nat)
    requires j < |events|
  {
    forall l :: Reaches(start, events[..j], l) ==> !Fails(l, events[j])
  }

  lemma {:induction false} ReachesOnce(l: Life, events: seq<Event>, a: Life, b: Life)
    requires Reaches(l, events, a) && Reaches(l, events, b)
    ensures a == b
    decreases |events|
  {
    hide Next, Possible;
    if events != [] {
      ReachesOnce(Next(l, events[0]), events[1..], a, b);
    }
  }

  lemma HereItRuns(start: Life, events: seq<Event>, k: nat, here: Life)
    requires k <= |events| && Reaches(start, events[..k], here) && !here.server.stopping
    ensures RunsOn(start, events, k)
  {
    hide Reaches;
    forall l | Reaches(start, events[..k], l)
      ensures l == here
    {
      ReachesOnce(start, events[..k], l, here);
    }
  }

  lemma HereItSucceeds(start: Life, events: seq<Event>, k: nat, here: Life)
    requires k < |events| && Reaches(start, events[..k], here) && !Fails(here, events[k])
    ensures SucceedsAt(start, events, k)
  {
    hide Reaches, Fails;
    forall l | Reaches(start, events[..k], l)
      ensures l == here
    {
      ReachesOnce(start, events[..k], l, here);
    }
  }

  lemma {:induction false} DestroyOpensNothing(s: Server)
    ensures ClientQueueDestroy(s).accepted == s.accepted && ClientQueueDestroy(s).fdsOpened == s.fdsOpened
    decreases |s.queue|
  {
    if s.queue != [] {
      DestroyOpensNothing(ClientDestroyAt(s, 0));
    }
  }

  lemma {:induction false} ReachesSnoc(l: Life, events: seq<Event>, mid: Life, e: Event)
    requires Reaches(l, events, mid) && Possible(mid, e)
    ensures Reaches(l, events + [e], Next(mid, e))
    decreases |events|
  {
    hide Next, Possible;
    if events == [] {
      assert (events + [e])[1..] == [];
    } else {
      assert (events + [e])[1..] == events[1..] + [e];
      ReachesSnoc(Next(l, events[0]), events[1..], mid, e);
    }
  }

  /** One pass as the lifecycle sees it: the server and entries before it, and what the kernel answers. */
  datatype Passing = Passing(start: Server, was: seq<EventFd<Handler>>, revents: seq<Events>, envs: seq<Env>)
  {
    ghost predicate Ok() {
      |was| == |revents| <= |envs| && Inv(Life(start, was)) && Possible(Life(start, was), LoopPass(revents, envs))
    }

    ghost function After(n: nat): (v: Served)
      requires n <= |was| == |revents| <= |envs|
      ensures |v.outcomes| <= n
    {
      ServeUpTo(start, was, revents, envs, n)
    }

    /** What the handler of entry `i` appends to the loop. */
    ghost function Added(i: nat): seq<EventFd<Handler>>
      requires i < |was| == |revents| <= |envs|
    {
      if revents[i] == 0 then [] else Run().outcomes[|After(i).outcomes|].added
    }

    /** The same pass with the outcomes of the handlers foretold. */
    ghost function Run(): (run: Polling<Handler>)
      requires |was| == |revents| <= |envs|
      ensures run.was == was && run.revents == revents && |was| <= |run.outcomes|
    {
      Polling(was, revents, After(|was|).outcomes + seq(|was|, _ => Outcome([], 0)))
    }

    lemma {:induction false} Foretold(n: nat)
      requires n <= |was| == |revents| <= |envs|
      ensures After(n).outcomes <= After(|was|).outcomes
      decreases |was| - n
    {
      if n < |was| {
        Foretold(n + 1);
      }
    }

    /** Entry `i`: its clean-up finds its client, and its handler's outcome is the one foretold. */
    lemma Step(i: nat)
      requires Ok() && i < |was|
      ensures Run().After(i) == After(i).pass && |After(i).outcomes| <= i
      ensures
        var v, o := After(i), Run().outcomes[|After(i).outcomes|];
        && Run().After(i + 1) == StepPass(v.pass, was[i], revents[i], o)
        && |v.pass.calls| == |v.outcomes| && Run().After(i + 1) == After(i + 1).pass
        && if revents[i] == 0 then After(i + 1).server == v.server && |After(i + 1).outcomes| == |v.outcomes|
           else
             var h := Handle(v.server, was[i].handler, envs[|v.outcomes|]);
             && o == h.outcome && After(i + 1).server == h.server && |After(i + 1).outcomes| == |v.outcomes| + 1
             && (was[i].handler.Cleanup? ==> was[i].handler.client in v.server.queue)
    {
      hide Inv, Possible, Handle;
      Foretold(i);
      Foretold(i + 1);
      ServeIsAPass(start, was, revents, envs, Run().outcomes, i);
      ServeIsAPass(start, was, revents, envs, Run().outcomes, i + 1);
      if was[i].handler.Cleanup? {
        ServeKeeps(start, was, revents, envs, i);
        CleanupIsQueued(After(i), was, revents, i);
      }
    }
  }
}
