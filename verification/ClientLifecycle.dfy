/**
 The life of a client of the TCP server: accepted inside an event loop pass, served by its
 own thread, and cleaned up either by a later pass, once its eventfd is readable, or at
 shutdown.
 */
module ClientLifecycle {
  import opened Sequences
  import opened TailQueue
  import opened EventLoop

  /** A client by its two descriptors; descriptors are never reused as names. */
  datatype Client = Client(conn: nat, cleanup: nat)

  /** The handlers registered in the server's event loop. */
  datatype Handler = SetStopping | Accept | Cleanup(client: Client)

  datatype AcceptResult = AcceptFailed | EventfdFailed | Accepted

  /** What happens before and during a handler call: threads that finish, and the kernel's answer. */
  datatype Env = Env(finished: set<Client>, accept: AcceptResult)

  datatype Server = Server(
    stopping: bool,
    queue: seq<Client>,        // the client queue
    running: set<Client>,      // threads that have not yet written their eventfd
    nextFd: nat,
    fdsOpened: seq<nat>,        // descriptors obtained for clients
    fdsClosed: seq<nat>,        // descriptors closed
    accepted: seq<Client>,     // clients whose thread was started
    joined: seq<Client>,       // clients whose thread was joined
    waited: set<Client>,       // clients whose join had to wait for the thread
    crashed: bool)             // a client was unlinked from a queue it is not in

  function IndexOf<T(==)>(s: seq<T>, x: T): (k: nat)
    requires x in s
    ensures k < |s| && s[k] == x
  {
    if s[0] == x then 0 else 1 + IndexOf(s[1..], x)
  }

  function ClientCreate(s: Server): Server {
    var c := Client(s.nextFd, s.nextFd + 1);
    s.(queue := s.queue + [c], running := s.running + {c}, nextFd := s.nextFd + 2,
       fdsOpened := s.fdsOpened + [c.conn, c.cleanup], accepted := s.accepted + [c])
  }

  /** The accepted connection is closed again by the accepting code. */
  function EventfdFails(s: Server): Server {
    s.(nextFd := s.nextFd + 1, fdsOpened := s.fdsOpened + [s.nextFd], fdsClosed := s.fdsClosed + [s.nextFd])
  }

  /** Unlink, join, close both descriptors. */
  function ClientDestroyAt(s: Server, k: nat): Server
    requires k < |s.queue|
  {
    var c := s.queue[k];
    s.(queue := RemoveAt(s.queue, k), running := s.running - {c}, joined := s.joined + [c],
       waited := if c in s.running then s.waited + {c} else s.waited,
       fdsClosed := s.fdsClosed + [c.cleanup, c.conn])
  }

  function ClientDestroy(s: Server, c: Client): Server {
    if c in s.queue then ClientDestroyAt(s, IndexOf(s.queue, c)) else s.(crashed := true)
  }

  function ClientQueueDestroy(s: Server): (s': Server)
    ensures s'.queue == []
    decreases |s.queue|
  {
    if s.queue == [] then s else ClientQueueDestroy(ClientDestroyAt(s, 0))
  }

  function CleanupEntry(c: Client): EventFd<Handler> {
    EventFd(c.cleanup, POLLIN, Cleanup(c), true)
  }

  datatype Handled = Handled(server: Server, outcome: Outcome<Handler>)

  /** What a handler does to the server and to the loop. */
  function Effect(s: Server, handler: Handler, accept: AcceptResult): Handled {
    match handler
    case SetStopping => Handled(s.(stopping := true), Outcome([], 0))
    case Accept =>
      (match accept
       case AcceptFailed => Handled(s, Outcome([], -1))
       case EventfdFailed => Handled(EventfdFails(s), Outcome([], -1))
       case Accepted => Handled(ClientCreate(s), Outcome([CleanupEntry(Client(s.nextFd, s.nextFd + 1))], 0)))
    case Cleanup(c) => Handled(ClientDestroy(s, c), Outcome([], 0))
  }

  function Handle(s: Server, handler: Handler, env: Env): Handled {
    Effect(s.(running := s.running - env.finished), handler, env.accept)
  }

  /** A pass of the loop with these handlers in it. */
  datatype Served = Served(server: Server, pass: Pass<Handler>, outcomes: seq<Outcome<Handler>>)

  function ServeOne(v: Served, e: EventFd<Handler>, revents: Events, env: Env): Served {
    if revents == 0 then
      v.(pass := StepPass(v.pass, e, revents, Outcome([], 0)))
    else
      var h := Handle(v.server, e.handler, env);
      Served(h.server, StepPass(v.pass, e, revents, h.outcome), v.outcomes + [h.outcome])
  }

  ghost function ServeUpTo(s: Server, entries: seq<EventFd<Handler>>, revents: seq<Events>, envs: seq<Env>,
                           n: nat): (v: Served)
    requires n <= |entries| == |revents| <= |envs|
    ensures |v.pass.calls| == |v.outcomes| <= n
  {
    if n == 0 then
      Served(s, Pass([], [], [], 0), [])
    else
      var v := ServeUpTo(s, entries, revents, envs, n - 1);
      ServeOne(v, entries[n - 1], revents[n - 1], envs[|v.outcomes|])
  }

  ghost function Serve(s: Server, entries: seq<EventFd<Handler>>, revents: seq<Events>, envs: seq<Env>): Served
    requires |entries| == |revents| <= |envs|
  {
    ServeUpTo(s, entries, revents, envs, |entries|)
  }

  /**
   The contract of the event loop applies: whatever outcomes the loop is given, if they are
   the ones these handlers produce, call by call, then its pass is the one described here.
   */
  lemma {:induction false} ServeIsAPass(s: Server, entries: seq<EventFd<Handler>>, revents: seq<Events>, envs: seq<Env>,
                                        outcomes: seq<Outcome<Handler>>, n: nat)
    requires n <= |entries| == |revents| <= |envs| && |revents| <= |outcomes|
    requires ServeUpTo(s, entries, revents, envs, n).outcomes <= outcomes
    ensures PassUpTo(entries, revents, outcomes, n) == ServeUpTo(s, entries, revents, envs, n).pass
  {
    if n > 0 {
      var v := ServeUpTo(s, entries, revents, envs, n - 1);
      assert v.outcomes <= ServeUpTo(s, entries, revents, envs, n).outcomes;
      ServeIsAPass(s, entries, revents, envs, outcomes, n - 1);
    }
  }

  /** A pass sets `stopping` exactly when the signal descriptor was ready. */
  lemma {:induction false} SignalsStop(s: Server, entries: seq<EventFd<Handler>>, revents: seq<Events>, envs: seq<Env>,
                                       n: nat)
    requires n <= |entries| == |revents| <= |envs|
    ensures ServeUpTo(s, entries, revents, envs, n).server.stopping <==>
      s.stopping || exists i :: 0 <= i < n && revents[i] != 0 && entries[i].handler.SetStopping?
  {
    if n > 0 {
      SignalsStop(s, entries, revents, envs, n - 1);
    }
  }

  /** A pass fails exactly when it could not accept a connection or make its eventfd. */
  lemma {:induction false} PassFailsIff(s: Server, entries: seq<EventFd<Handler>>, revents: seq<Events>,
                                        envs: seq<Env>, n: nat)
    requires n <= |entries| == |revents| <= |envs|
    ensures ServeUpTo(s, entries, revents, envs, n).pass.ret < 0 <==>
      exists i :: 0 <= i < n && revents[i] != 0 && entries[i].handler.Accept?
        && !envs[|ServeUpTo(s, entries, revents, envs, i).outcomes|].accept.Accepted?
  {
    if n > 0 {
      PassFailsIff(s, entries, revents, envs, n - 1);
    }
  }

  /** How many of the first `n` entries are ready, and so which kernel answer is that of entry `n`. */
  ghost function ReadyBefore(revents: seq<Events>, n: nat): (k: nat)
    requires n <= |revents|
    ensures k <= n
  {
    if n == 0 then 0 else ReadyBefore(revents, n - 1) + (if revents[n - 1] != 0 then 1 else 0)
  }

  /** Whether entry `i` is a ready listening descriptor, and what comes of it. */
  ghost predicate AcceptsWith(entries: seq<EventFd<Handler>>, revents: seq<Events>, envs: seq<Env>, i: nat,
                              result: AcceptResult)
    requires i < |entries| == |revents| <= |envs|
  {
    revents[i] != 0 && entries[i].handler.Accept? && envs[ReadyBefore(revents, i)].accept == result
  }

  ghost function HowMany(entries: seq<EventFd<Handler>>, revents: seq<Events>, envs: seq<Env>, n: nat,
                         result: AcceptResult): nat
    requires n <= |entries| == |revents| <= |envs|
  {
    if n == 0 then 0
    else
      HowMany(entries, revents, envs, n - 1, result)
      + (if AcceptsWith(entries, revents, envs, n - 1, result) then 1 else 0)
  }

  /**
   A pass starts one client for every connection it gets, with two descriptors, and opens no
   others but one per failed eventfd.
   */
  lemma {:induction false} ConnectionsAreServed(s: Server, entries: seq<EventFd<Handler>>, revents: seq<Events>,
                                                envs: seq<Env>, n: nat)
    requires n <= |entries| == |revents| <= |envs|
    ensures
      var v := ServeUpTo(s, entries, revents, envs, n);
      && |v.outcomes| == ReadyBefore(revents, n)
      && |v.server.accepted| == |s.accepted| + HowMany(entries, revents, envs, n, Accepted)
      && |v.server.fdsOpened| ==
           |s.fdsOpened| + 2 * HowMany(entries, revents, envs, n, Accepted)
           + HowMany(entries, revents, envs, n, EventfdFailed)
      && s.accepted <= v.server.accepted && s.fdsOpened <= v.server.fdsOpened
  {
    if n > 0 {
      ConnectionsAreServed(s, entries, revents, envs, n - 1);
      ServeOneAccounts(ServeUpTo(s, entries, revents, envs, n - 1), entries[n - 1], revents[n - 1],
                       envs[ReadyBefore(revents, n - 1)]);
    }
  }

  lemma ServeOneAccounts(v: Served, e: EventFd<Handler>, revents: Events, env: Env)
    ensures
      var v' := ServeOne(v, e, revents, env);
      var accepts := revents != 0 && e.handler.Accept?;
      && |v'.outcomes| == |v.outcomes| + (if revents != 0 then 1 else 0)
      && v.server.accepted <= v'.server.accepted && v.server.fdsOpened <= v'.server.fdsOpened
      && |v'.server.accepted| == |v.server.accepted| + (if accepts && env.accept.Accepted? then 1 else 0)
      && |v'.server.fdsOpened| == |v.server.fdsOpened|
           + (if accepts && env.accept.Accepted? then 2 else if accepts && env.accept.EventfdFailed? then 1 else 0)
  {
    hide StepPass, IndexOf, RemoveAt;
  }

  // ---- the lifecycle ----

  /** The server between two passes: handler state and the entries of the loop. */
  datatype Life = Life(server: Server, entries: seq<EventFd<Handler>>)

  datatype Event =
    | ThreadFinishes(client: Client)
    | LoopPass(revents: seq<Events>, envs: seq<Env>)

  /** An eventfd is readable only once its thread has written it. */
  ghost predicate Possible(l: Life, e: Event) {
    match e
    case ThreadFinishes(c) => true
    case LoopPass(revents, envs) =>
      && |revents| == |l.entries| <= |envs|
      && forall i :: 0 <= i < |revents| && revents[i] != 0 && l.entries[i].handler.Cleanup? ==>
           l.entries[i].handler.client !in l.server.running
  }

  ghost function Next(l: Life, e: Event): Life
    requires Possible(l, e)
  {
    match e
    case ThreadFinishes(c) => l.(server := l.server.(running := l.server.running - {c}))
    case LoopPass(revents, envs) =>
      var v := Serve(l.server, l.entries, revents, envs);
      Life(v.server, v.pass.kept + v.pass.added)
  }

  ghost predicate Start(l: Life, nextFd: nat) {
    && l.server == Server(false, [], {}, nextFd, [], [], [], [], {}, false)
    && (forall i :: 0 <= i < |l.entries| ==> l.entries[i].handler in {SetStopping, Accept} && !l.entries[i].once)
  }

  ghost predicate Reaches(l: Life, events: seq<Event>, l': Life)
    decreases |events|
  {
    if events == [] then l' == l
    else Possible(l, events[0]) && Reaches(Next(l, events[0]), events[1..], l')
  }

  /** The clients whose clean-up is registered, in list order. */
  function ClientsOf(entries: seq<EventFd<Handler>>): seq<Client> {
    if entries == [] then []
    else (if entries[0].handler.Cleanup? then [entries[0].handler.client] else []) + ClientsOf(entries[1..])
  }

  function FdsOf(clients: seq<Client>): seq<nat> {
    if clients == [] then [] else [clients[0].cleanup, clients[0].conn] + FdsOf(clients[1..])
  }

  /** Clean-up entries, and only they, are one-shot, and each watches its client's eventfd. */
  ghost predicate EntryOk(e: EventFd<Handler>) {
    && (e.handler.Cleanup? <==> e.once)
    && (e.handler.Cleanup? ==> e == CleanupEntry(e.handler.client))
  }

  ghost predicate EntriesOk(entries: seq<EventFd<Handler>>) {
    forall i :: 0 <= i < |entries| ==> EntryOk(entries[i])
  }

  ghost predicate AtMostOnce<T(!new)>(m: multiset<T>) {
    forall x :: m[x] <= 1
  }

  /** Every descriptor opened is either closed, once, or still held by a queued client. */
  ghost predicate FdsConserved(fdsOpened: multiset<nat>, fdsClosed: multiset<nat>, held: multiset<nat>, nextFd: nat) {
    && AtMostOnce(fdsOpened)
    && (forall fd :: fd in fdsOpened ==> fd < nextFd)
    && fdsOpened == fdsClosed + held
  }

  /** Every client accepted is either joined, once, or still in the queue. */
  ghost predicate ClientsConserved(accepted: multiset<Client>, joined: multiset<Client>, queue: multiset<Client>,
                                   nextFd: nat) {
    && AtMostOnce(accepted)
    && (forall c :: c in accepted ==> c.conn < nextFd)
    && accepted == joined + queue
  }

  ghost predicate AllQueued(running: set<Client>, queue: seq<Client>) {
    forall c :: c in running ==> c in queue
  }

  ghost predicate Ledger(s: Server) {
    && !s.crashed
    && FdsConserved(multiset(s.fdsOpened), multiset(s.fdsClosed), multiset(FdsOf(s.queue)), s.nextFd)
    && ClientsConserved(multiset(s.accepted), multiset(s.joined), multiset(s.queue), s.nextFd)
    && AllQueued(s.running, s.queue)
  }

  ghost predicate Inv(l: Life) {
    && Ledger(l.server)
    && EntriesOk(l.entries)
    && ClientsOf(l.entries) == l.server.queue
    && l.server.waited == {}
  }

  lemma {:induction false} ClientsOfAppend(a: seq<EventFd<Handler>>, b: seq<EventFd<Handler>>)
    ensures ClientsOf(a + b) == ClientsOf(a) + ClientsOf(b)
  {
    if a == [] {
      assert a + b == b;
    } else {
      assert (a + b)[1..] == a[1..] + b;
      ClientsOfAppend(a[1..], b);
      Associate(if a[0].handler.Cleanup? then [a[0].handler.client] else [], ClientsOf(a[1..]), ClientsOf(b));
    }
  }

  lemma {:induction false} FdsOfAppend(a: seq<Client>, b: seq<Client>)
    ensures FdsOf(a + b) == FdsOf(a) + FdsOf(b)
  {
    if a == [] {
      assert a + b == b;
    } else {
      assert (a + b)[1..] == a[1..] + b;
      FdsOfAppend(a[1..], b);
      Associate([a[0].cleanup, a[0].conn], FdsOf(a[1..]), FdsOf(b));
    }
  }

  lemma {:induction false} FdsOfSnoc(q: seq<Client>, c: Client)
    ensures multiset(FdsOf(q + [c])) == multiset(FdsOf(q)) + multiset{c.cleanup, c.conn}
  {
    FdsOfAppend(q, [c]);
  }

  lemma {:induction false} Unlinked(q: seq<Client>, k: nat)
    requires k < |q|
    ensures multiset(q) == multiset(RemoveAt(q, k)) + multiset{q[k]}
    ensures multiset(FdsOf(q)) == multiset(FdsOf(RemoveAt(q, k))) + multiset{q[k].cleanup, q[k].conn}
  {
    assert q == q[..k] + ([q[k]] + q[k + 1..]);
    FdsOfAppend(q[..k], [q[k]] + q[k + 1..]);
    FdsOfAppend([q[k]], q[k + 1..]);
    FdsOfAppend(q[..k], q[k + 1..]);
  }

  lemma {:induction false} CountTwo<T>(s: seq<T>, lo: nat, hi: nat)
    requires lo < hi < |s| && s[lo] == s[hi]
    ensures multiset(s)[s[lo]] >= 2
  {
    assert s == s[..hi] + [s[hi]] + s[hi + 1..];
    assert s[lo] in s[..hi];
    assert multiset(s) == multiset(s[..hi]) + multiset{s[hi]} + multiset(s[hi + 1..]);
  }

  /** In a queue that holds nobody twice, the position of a client is the one it is found at. */
  lemma IndexOfIsUnique<T>(s: seq<T>, k: nat)
    requires k < |s| && multiset(s)[s[k]] <= 1
    ensures IndexOf(s, s[k]) == k
  {
    var j := IndexOf(s, s[k]);
    if j < k {
      CountTwo(s, j, k);
    } else if k < j {
      CountTwo(s, k, j);
    }
  }

  lemma LedgerCreate(s: Server)
    requires Ledger(s)
    ensures Ledger(ClientCreate(s))
  {
    hide FdsOf, FdsConserved, ClientsConserved, AllQueued;
    var c := Client(s.nextFd, s.nextFd + 1);
    CreateRunning(s.running, s.queue, c);
    CreateFds(s.fdsOpened, s.fdsClosed, s.queue, c, s.nextFd);
    CreateClients(s.accepted, s.joined, s.queue, c, s.nextFd);
  }

  lemma CreateRunning(running: set<Client>, q: seq<Client>, c: Client)
    requires AllQueued(running, q)
    ensures AllQueued(running + {c}, q + [c])
  {
  }

  lemma DestroyRunning(running: set<Client>, q: seq<Client>, k: nat)
    requires AllQueued(running, q) && k < |q|
    ensures AllQueued(running - {q[k]}, RemoveAt(q, k))
  {
    assert forall i :: 0 <= i < |q| && i != k ==> q[i] == RemoveAt(q, k)[if i < k then i else i - 1];
  }

  lemma CreateFds(o: seq<nat>, closed: seq<nat>, q: seq<Client>, c: Client, next: nat)
    requires FdsConserved(multiset(o), multiset(closed), multiset(FdsOf(q)), next) && c == Client(next, next + 1)
    ensures FdsConserved(multiset(o + [c.conn, c.cleanup]), multiset(closed), multiset(FdsOf(q + [c])), next + 2)
  {
    hide FdsOf;
    FdsGrow(multiset(o), multiset(closed), multiset(FdsOf(q)), next);
    hide FdsConserved;
    FdsOfSnoc(q, c);
    MultisetSnoc(o, c.conn, c.cleanup);
  }

  lemma CreateClients(accepted: seq<Client>, joined: seq<Client>, q: seq<Client>, c: Client, next: nat)
    requires ClientsConserved(multiset(accepted), multiset(joined), multiset(q), next) && c == Client(next, next + 1)
    ensures ClientsConserved(multiset(accepted + [c]), multiset(joined), multiset(q + [c]), next + 2)
  {
    ClientsGrow(multiset(accepted), multiset(joined), multiset(q), next);
    hide ClientsConserved;
    assert multiset(accepted + [c]) == multiset(accepted) + multiset{c};
    assert multiset(q + [c]) == multiset(q) + multiset{c};
  }

  lemma MultisetSnoc<T>(s: seq<T>, a: T, b: T)
    ensures multiset(s + [a, b]) == multiset(s) + multiset{b, a}
  {
  }

  lemma FdsGrow(o: multiset<nat>, c: multiset<nat>, h: multiset<nat>, next: nat)
    requires FdsConserved(o, c, h, next)
    ensures FdsConserved(o + multiset{next + 1, next}, c, h + multiset{next + 1, next}, next + 2)
    ensures FdsConserved(o + multiset{next}, c + multiset{next}, h, next + 1)
  {
    assert next !in o && next + 1 !in o;
  }

  lemma ClientsGrow(a: multiset<Client>, j: multiset<Client>, q: multiset<Client>, next: nat)
    requires ClientsConserved(a, j, q, next)
    ensures var c := Client(next, next + 1); ClientsConserved(a + multiset{c}, j, q + multiset{c}, next + 2)
    ensures ClientsConserved(a, j, q, next + 1)
  {
    assert Client(next, next + 1) !in a;
  }

  lemma LedgerDestroy(s: Server, k: nat)
    requires Ledger(s) && k < |s.queue|
    ensures Ledger(ClientDestroyAt(s, k))
  {
    hide FdsOf, FdsConserved, ClientsConserved, AllQueued;
    Unlinked(s.queue, k);
    DestroyRunning(s.running, s.queue, k);
    var c, s' := s.queue[k], ClientDestroyAt(s, k);
    var both := multiset{c.cleanup, c.conn};
    assert multiset(s'.fdsClosed) == multiset(s.fdsClosed) + both;
    assert multiset(s'.joined) == multiset(s.joined) + multiset{c};
    FdsShrink(multiset(s.fdsOpened), multiset(s.fdsClosed), multiset(FdsOf(s'.queue)), both, s.nextFd);
    ClientsShrink(multiset(s.accepted), multiset(s.joined), multiset(s'.queue), c, s.nextFd);
  }

  lemma FdsShrink(o: multiset<nat>, c: multiset<nat>, h: multiset<nat>, d: multiset<nat>, next: nat)
    requires FdsConserved(o, c, h + d, next)
    ensures FdsConserved(o, c + d, h, next)
  {
  }

  lemma ClientsShrink(a: multiset<Client>, j: multiset<Client>, q: multiset<Client>, c: Client, next: nat)
    requires ClientsConserved(a, j, q + multiset{c}, next)
    ensures ClientsConserved(a, j + multiset{c}, q, next)
    ensures c !in q
  {
    assert a[c] == j[c] + (q + multiset{c})[c];
  }

  /** What holds in the middle of a pass, after `n` of its entries. */
  ghost predicate MidPass(v: Served, entries: seq<EventFd<Handler>>, revents: seq<Events>, n: nat)
    requires n <= |entries| == |revents|
  {
    && Ledger(v.server)
    && EntriesOk(v.pass.kept) && EntriesOk(v.pass.added)
    && v.server.queue == ClientsOf(v.pass.kept) + ClientsOf(entries[n..]) + ClientsOf(v.pass.added)
    && v.server.waited == {}
    && (forall i :: n <= i < |entries| && revents[i] != 0 && entries[i].handler.Cleanup? ==>
          entries[i].handler.client !in v.server.running)
  }

  lemma ServeStarts(s: Server, entries: seq<EventFd<Handler>>, revents: seq<Events>, envs: seq<Env>)
    requires |entries| == |revents| <= |envs|
    requires Inv(Life(s, entries)) && Possible(Life(s, entries), LoopPass(revents, envs))
    ensures MidPass(Served(s, Pass([], [], [], 0), []), entries, revents, 0)
  {
    hide Ledger;
    assert entries[0..] == entries;
  }

  lemma {:induction false} ServeKeeps(s: Server, entries: seq<EventFd<Handler>>, revents: seq<Events>, envs: seq<Env>,
                                      n: nat)
    requires n <= |entries| == |revents| <= |envs|
    requires Inv(Life(s, entries)) && Possible(Life(s, entries), LoopPass(revents, envs))
    ensures MidPass(ServeUpTo(s, entries, revents, envs, n), entries, revents, n)
  {
    hide MidPass, ServeOne;
    if n == 0 {
      ServeStarts(s, entries, revents, envs);
    } else {
      ServeKeeps(s, entries, revents, envs, n - 1);
      var v := ServeUpTo(s, entries, revents, envs, n - 1);
      ServeOneKeeps(v, entries, revents, envs[|v.outcomes|], n - 1);
    }
  }

  /** The clients of the clean-ups among the first `n` entries that are ready. */
  ghost function ReadyCleanups(entries: seq<EventFd<Handler>>, revents: seq<Events>, n: nat): seq<Client>
    requires n <= |entries| == |revents|
  {
    if n == 0 then []
    else
      ReadyCleanups(entries, revents, n - 1)
      + (if revents[n - 1] != 0 && entries[n - 1].handler.Cleanup? then [entries[n - 1].handler.client] else [])
  }

  /** A pass joins exactly the clients whose clean-up is ready, in the order of the loop. */
  lemma {:induction false} FinishedAreJoined(s: Server, entries: seq<EventFd<Handler>>, revents: seq<Events>,
                                             envs: seq<Env>, n: nat)
    requires n <= |entries| == |revents| <= |envs|
    requires Inv(Life(s, entries)) && Possible(Life(s, entries), LoopPass(revents, envs))
    ensures ServeUpTo(s, entries, revents, envs, n).server.joined == s.joined + ReadyCleanups(entries, revents, n)
  {
    hide Inv, Possible, MidPass, ServeOne;
    if n > 0 {
      FinishedAreJoined(s, entries, revents, envs, n - 1);
      var v := ServeUpTo(s, entries, revents, envs, n - 1);
      ServeKeeps(s, entries, revents, envs, n - 1);
      if entries[n - 1].handler.Cleanup? {
        CleanupIsQueued(v, entries, revents, n - 1);
      }
      ServeOneJoins(v, entries[n - 1], revents[n - 1], envs[|v.outcomes|]);
    }
  }

  lemma ServeOneJoins(v: Served, e: EventFd<Handler>, revents: Events, env: Env)
    requires e.handler.Cleanup? ==> e.handler.client in v.server.queue
    ensures ServeOne(v, e, revents, env).server.joined ==
      v.server.joined + (if revents != 0 && e.handler.Cleanup? then [e.handler.client] else [])
  {
    hide StepPass, RemoveAt;
  }

  lemma CleanupIsQueued(v: Served, entries: seq<EventFd<Handler>>, revents: seq<Events>, i: nat)
    requires i < |entries| == |revents| && MidPass(v, entries, revents, i) && entries[i].handler.Cleanup?
    ensures entries[i].handler.client in v.server.queue
  {
    hide Ledger, ClientsOf;
    SplitEntry(entries, i);
  }

  /** Destroying a client whose thread has finished unlinks exactly it, and waits for nobody. */
  lemma DestroyUnlinks(s: Server, before: seq<Client>, c: Client, after: seq<Client>)
    requires Ledger(s) && s.queue == before + [c] + after && c !in s.running
    ensures
      var s' := ClientDestroy(s, c);
      && Ledger(s') && s'.queue == before + after
      && s'.waited == s.waited && s'.running <= s.running
  {
    hide FdsOf, FdsConserved;
    var k := |before|;
    assert s.queue[k] == c;
    assert multiset(s.queue)[c] <= multiset(s.accepted)[c] <= 1;
    IndexOfIsUnique(s.queue, k);
    LedgerDestroy(s, k);
    hide Ledger;
    assert RemoveAt(s.queue, k) == before + after;
  }

  lemma EntriesOkAppend(a: seq<EventFd<Handler>>, b: seq<EventFd<Handler>>)
    requires EntriesOk(a) && EntriesOk(b)
    ensures EntriesOk(a + b)
  {
  }

  lemma OneEntryOk(c: Client)
    ensures EntriesOk([CleanupEntry(c)])
  {
  }

  lemma SplitEntry(entries: seq<EventFd<Handler>>, i: nat)
    requires i < |entries|
    ensures
      var own := if entries[i].handler.Cleanup? then [entries[i].handler.client] else [];
      && ClientsOf([entries[i]]) == own
      && ClientsOf(entries[i..]) == own + ClientsOf(entries[i + 1..])
  {
    assert entries[i..] == [entries[i]] + entries[i + 1..];
  }

  /** Threads finishing never hurts. */
  lemma FinishedKeeps(v: Served, entries: seq<EventFd<Handler>>, revents: seq<Events>, finished: set<Client>, i: nat)
    requires i <= |entries| == |revents| && MidPass(v, entries, revents, i)
    ensures MidPass(v.(server := v.server.(running := v.server.running - finished)), entries, revents, i)
  {
    hide FdsOf, FdsConserved, ClientsConserved, EntriesOk, ClientsOf;
  }

  /** A clean-up call finds its client in the queue, and its thread has finished. */
  lemma CleanupKeeps(v: Served, entries: seq<EventFd<Handler>>, revents: seq<Events>, i: nat, w: Served)
    requires i < |entries| == |revents| && EntriesOk(entries) && MidPass(v, entries, revents, i)
    requires revents[i] != 0 && entries[i].handler.Cleanup?
    requires w.server == ClientDestroy(v.server, entries[i].handler.client)
    requires w.pass.kept == v.pass.kept && w.pass.added == v.pass.added
    ensures MidPass(w, entries, revents, i + 1)
  {
    hide Ledger, ClientDestroy, ClientsOf;
    SplitEntry(entries, i);
    var c := entries[i].handler.client;
    var before, after, added := ClientsOf(v.pass.kept), ClientsOf(entries[i + 1..]), ClientsOf(v.pass.added);
    assert v.server.queue == before + [c] + (after + added);
    DestroyUnlinks(v.server, before, c, after + added);
    assert w.server.queue == before + after + added;
  }

  lemma AcceptKeeps(v: Served, entries: seq<EventFd<Handler>>, revents: seq<Events>, i: nat, w: Served)
    requires i <= |entries| == |revents| && EntriesOk(entries) && MidPass(v, entries, revents, i)
    requires w.server == ClientCreate(v.server)
    requires w.pass.kept == v.pass.kept
    requires w.pass.added == v.pass.added + [CleanupEntry(Client(v.server.nextFd, v.server.nextFd + 1))]
    ensures MidPass(w, entries, revents, i)
  {
    hide Ledger, ClientsOf, EntriesOk;
    var before, rest, added := ClientsOf(v.pass.kept), ClientsOf(entries[i..]), ClientsOf(v.pass.added);
    LedgerCreate(v.server);
    QueuedAreOld(v.server, entries, i, before, added);
    var c := Client(v.server.nextFd, v.server.nextFd + 1);
    OneEntryOk(c);
    EntriesOkAppend(v.pass.added, [CleanupEntry(c)]);
    ClientsOfAppend(v.pass.added, [CleanupEntry(c)]);
    SplitEntry([CleanupEntry(c)], 0);
    assert w.server.queue == before + rest + (added + [c]);
  }

  /** Clients of entries still to be visited are in the queue, so a new client is none of them. */
  lemma QueuedAreOld(s: Server, entries: seq<EventFd<Handler>>, n: nat, before: seq<Client>, after: seq<Client>)
    requires n <= |entries| && Ledger(s)
    requires s.queue == before + ClientsOf(entries[n..]) + after
    ensures forall i :: n <= i < |entries| && entries[i].handler.Cleanup? ==> entries[i].handler.client.conn < s.nextFd
  {
    hide Ledger, ClientsOf;
    forall i | n <= i < |entries| && entries[i].handler.Cleanup?
      ensures entries[i].handler.client.conn < s.nextFd
    {
      IsListed(entries[n..], i - n);
      QueuedIsOld(s, entries[i].handler.client);
    }
  }

  lemma QueuedIsOld(s: Server, c: Client)
    requires Ledger(s) && c in s.queue
    ensures c.conn < s.nextFd
  {
    assert c in multiset(s.accepted);
  }

  lemma {:induction false} IsListed(entries: seq<EventFd<Handler>>, i: nat)
    requires i < |entries| && entries[i].handler.Cleanup?
    ensures entries[i].handler.client in ClientsOf(entries)
  {
    if i > 0 {
      IsListed(entries[1..], i - 1);
    }
  }

  lemma LedgerEventfdFailed(s: Server)
    requires Ledger(s)
    ensures Ledger(EventfdFails(s))
  {
    hide FdsOf, FdsConserved, ClientsConserved;
    assert multiset(s.fdsOpened + [s.nextFd]) == multiset(s.fdsOpened) + multiset{s.nextFd};
    assert multiset(s.fdsClosed + [s.nextFd]) == multiset(s.fdsClosed) + multiset{s.nextFd};
    FdsGrow(multiset(s.fdsOpened), multiset(s.fdsClosed), multiset(FdsOf(s.queue)), s.nextFd);
    ClientsGrow(multiset(s.accepted), multiset(s.joined), multiset(s.queue), s.nextFd);
  }

  /** An entry that is not a clean-up stays. */
  lemma PermanentStays(v: Served, entries: seq<EventFd<Handler>>, revents: seq<Events>, i: nat, w: Served)
    requires i < |entries| == |revents| && EntriesOk(entries) && MidPass(v, entries, revents, i)
    requires w.server == v.server.(stopping := w.server.stopping)
    requires w.pass.kept == v.pass.kept + [entries[i]] && w.pass.added == v.pass.added
    ensures MidPass(w, entries, revents, i + 1)
  {
    hide FdsOf, FdsConserved, ClientsConserved, ClientsOf;
    EntriesOkAppend(v.pass.kept, [entries[i]]);
    ClientsOfAppend(v.pass.kept, [entries[i]]);
    SplitEntry(entries, i);
  }

  lemma ServeOneKeeps(v: Served, entries: seq<EventFd<Handler>>, revents: seq<Events>, env: Env, i: nat)
    requires i < |entries| == |revents| && EntriesOk(entries) && MidPass(v, entries, revents, i)
    ensures MidPass(ServeOne(v, entries[i], revents[i], env), entries, revents, i + 1)
  {
    hide MidPass, ClientCreate, ClientDestroy, EntriesOk;
    var e := entries[i];
    assert EntryOk(e) by {
      EntryAt(entries, i);
    }
    var w := ServeOne(v, e, revents[i], env);
    if revents[i] == 0 {
      PermanentStays(v, entries, revents, i, w);
    } else {
      FinishedKeeps(v, entries, revents, env.finished, i);
      var v1 := v.(server := v.server.(running := v.server.running - env.finished));
      match e.handler {
        case SetStopping => PermanentStays(v1, entries, revents, i, w);
        case Cleanup(c) => CleanupKeeps(v1, entries, revents, i, w);
        case Accept =>
          var v2 := w.(pass := w.pass.(kept := v.pass.kept));
          match env.accept {
            case AcceptFailed => PermanentStays(v1, entries, revents, i, w);
            case EventfdFailed =>
              EventfdFailedKeeps(v1, entries, revents, i, v2);
              PermanentStays(v2, entries, revents, i, w);
            case Accepted =>
              AcceptKeeps(v1, entries, revents, i, v2);
              PermanentStays(v2, entries, revents, i, w);
          }
      }
    }
  }

  lemma EntryAt(entries: seq<EventFd<Handler>>, i: nat)
    requires EntriesOk(entries) && i < |entries|
    ensures EntryOk(entries[i])
  {
  }

  lemma EventfdFailedKeeps(v: Served, entries: seq<EventFd<Handler>>, revents: seq<Events>, i: nat, w: Served)
    requires i <= |entries| == |revents| && MidPass(v, entries, revents, i)
    requires w.server == EventfdFails(v.server)
    requires w.pass.kept == v.pass.kept && w.pass.added == v.pass.added
    ensures MidPass(w, entries, revents, i)
  {
    LedgerEventfdFailed(v.server);
    hide Ledger;
  }

  lemma PassEnds(v: Served, entries: seq<EventFd<Handler>>, revents: seq<Events>)
    requires |entries| == |revents| && MidPass(v, entries, revents, |entries|)
    ensures Inv(Life(v.server, v.pass.kept + v.pass.added))
  {
    hide Ledger;
    assert entries[|entries|..] == [];
    ClientsOfAppend(v.pass.kept, v.pass.added);
    EntriesOkAppend(v.pass.kept, v.pass.added);
  }

  lemma {:induction false} NextKeeps(l: Life, e: Event)
    requires Inv(l) && Possible(l, e)
    ensures Inv(Next(l, e))
  {
    match e
    case ThreadFinishes(c) =>
    case LoopPass(revents, envs) =>
      hide Ledger, ServeUpTo, MidPass;
      ServeKeeps(l.server, l.entries, revents, envs, |l.entries|);
      PassEnds(Serve(l.server, l.entries, revents, envs), l.entries, revents);
  }

  /** Shutdown after the loop: every client still queued is joined and closed, in order. */
  lemma {:induction false} DestroyKeeps(s: Server)
    requires Ledger(s)
    ensures Ledger(ClientQueueDestroy(s)) && ClientQueueDestroy(s).running == {}
    decreases |s.queue|
  {
    hide FdsConserved, ClientsConserved;
    if s.queue != [] {
      LedgerDestroy(s, 0);
      DestroyKeeps(ClientDestroyAt(s, 0));
    }
  }

  lemma {:induction false} DestroyInOrder(s: Server)
    ensures ClientQueueDestroy(s).joined == s.joined + s.queue
    ensures ClientQueueDestroy(s).fdsClosed == s.fdsClosed + FdsOf(s.queue)
    decreases |s.queue|
  {
    if s.queue != [] {
      assert ClientQueueDestroy(s) == ClientQueueDestroy(ClientDestroyAt(s, 0));
      hide ClientQueueDestroy, FdsOf, RemoveAt;
      FirstDestroyed(s.queue, s.joined, s.fdsClosed);
      DestroyInOrder(ClientDestroyAt(s, 0));
    }
  }

  lemma FirstDestroyed(q: seq<Client>, joined: seq<Client>, fds: seq<nat>)
    requires q != []
    ensures RemoveAt(q, 0) == q[1..]
    ensures joined + [q[0]] + q[1..] == joined + q
    ensures fds + [q[0].cleanup, q[0].conn] + FdsOf(q[1..]) == fds + FdsOf(q)
  {
    Associate(fds, [q[0].cleanup, q[0].conn], FdsOf(q[1..]));
    assert FdsOf(q) == [q[0].cleanup, q[0].conn] + FdsOf(q[1..]);
    hide FdsOf;
    Associate(joined, [q[0]], q[1..]);
    assert [q[0]] + q[1..] == q;
  }

  /**
   Over any run: between passes the registered clean-ups are exactly the queued clients, in
   the same order, and a pass never waits in a join.
   */
  lemma {:induction false} LifecycleInvariant(l: Life, events: seq<Event>, l': Life)
    requires Inv(l) && Reaches(l, events, l')
    ensures Inv(l')
    decreases |events|
  {
    if events != [] {
      NextKeeps(l, events[0]);
      LifecycleInvariant(Next(l, events[0]), events[1..], l');
    }
  }

  /** Over any run that ends in shutdown: each accepted client is joined once, each descriptor closed once. */
  lemma EveryClientIsCleanedUp(l: Life, nextFd: nat, events: seq<Event>, l': Life)
    requires Start(l, nextFd) && Reaches(l, events, l')
    ensures Inv(l')
    ensures
      var s := ClientQueueDestroy(l'.server);
      && s.queue == [] && s.running == {} && !s.crashed
      && multiset(s.joined) == multiset(s.accepted) && AtMostOnce(multiset(s.joined))
      && multiset(s.fdsClosed) == multiset(s.fdsOpened) && AtMostOnce(multiset(s.fdsClosed))
  {
    StartInv(l, nextFd, l.entries);
    LifecycleInvariant(l, events, l');
    DestroyKeeps(l'.server);
  }

  lemma {:induction false} StartInv(l: Life, nextFd: nat, entries: seq<EventFd<Handler>>)
    requires Start(l, nextFd)
    requires forall i :: 0 <= i < |entries| ==> entries[i].handler in {SetStopping, Accept}
    ensures ClientsOf(entries) == []
    ensures entries == l.entries ==> Inv(l)
  {
    if entries != [] {
      StartInv(l, nextFd, entries[1..]);
    }
    if entries == l.entries {
      assert EntriesOk(l.entries);
    }
  }
}
