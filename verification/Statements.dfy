/**
 The prepared statements the threads share: each has a mutex, bindings and a current row.  A call
 locks, binds its arguments one by one, steps, reads a column, resets and unlocks, and any thread
 may do any of these between two of another.
 */
module Statements {
  import opened Bytes
  import opened Results
  import opened Protocol
  import opened Storage
  import opened RunCreation

  datatype Sql = RepoFind | RepoInsert | RunInsert | RunFinished

  datatype Value = IntValue(n: int) | TextValue(s: string) | BlobValue(b: seq<byte>)

  /** By parameter number, from 1; a parameter without a binding is NULL. */
  type Bindings = map<int, Value>

  datatype Execution = Refused | Executed(tables: Tables, row: Option<int>)

  predicate StatusExists(status: int) {
    exists i :: 0 <= i < |STATUSES| && STATUSES[i].id == status
  }

  function UpdatedRow(r: RunRow, id: int, status: int, exitCode: int32, output: seq<byte>): RunRow {
    if r.id == id then r.(status := status, exitCode := exitCode, output := output) else r
  }

  /** Executing a statement with these bindings; the columns are STRICT, NOT NULL and keyed. */
  function Execute(sql: Sql, b: Bindings, t: Tables): Execution {
    match sql
    case RepoFind =>
      if 1 !in b then Executed(t, None)
      else if !b[1].TextValue? then Refused
      else Executed(t, if HasUrl(t, b[1].s) then Some(FindRepo(t, b[1].s)) else None)
    case RepoInsert =>
      if 1 !in b || !b[1].TextValue? then Refused
      else Executed(InsertRepo(t, b[1].s), None)
    case RunInsert =>
      if !({1, 2, 3} <= b.Keys) || !b[1].IntValue? || !b[2].IntValue? || !b[3].TextValue? then Refused
      else if !StatusExists(b[1].n) || !RepoExists(t.repos, b[2].n) then Refused
      else Executed(t.(runs := t.runs + [RunRow(NextRunId(t), b[1].n, -1, [], b[2].n, b[3].s)]), Some(NextRunId(t)))
    case RunFinished =>
      if !({1, 2, 3, 4} <= b.Keys) || !b[1].IntValue? || !b[2].IntValue? || !b[3].BlobValue?
        || !b[4].IntValue? then Refused
      else if !StatusExists(b[1].n) then Refused
      else
        Executed(t.(runs := seq(|t.runs|, i requires 0 <= i < |t.runs| =>
                   UpdatedRow(t.runs[i], b[4].n, b[1].n, ToInt32(b[2].n), b[3].b))), None)
  }

  /** What the function around the statement returns after a successful step. */
  function Returns(sql: Sql, row: Option<int>): int {
    match sql
    case RepoFind => if row.Some? then ToInt32(row.value) else 0
    case RunInsert => if row.Some? then ToInt32(row.value) else -1
    case _ => 0
  }

  /** A call with its arguments, in the order in which they are bound. */
  datatype Call = Call(sql: Sql, args: seq<Value>)

  function FindRepoCall(url: string): Call {
    Call(RepoFind, [TextValue(url)])
  }

  function InsertRepoCall(url: string): Call {
    Call(RepoInsert, [TextValue(url)])
  }

  function InsertRunCall(repoId: int32, rev: string): Call {
    Call(RunInsert, [IntValue(STATUS_CREATED), IntValue(repoId), TextValue(rev)])
  }

  function FinishedCall(id: int32, output: ProcessOutput): Call {
    Call(RunFinished, [IntValue(STATUS_FINISHED), IntValue(output.ec), BlobValue(output.data), IntValue(id)])
  }

  /** The first `k` arguments, bound. */
  function Bound(args: seq<Value>, k: nat): Bindings
    requires k <= |args|
  {
    if k == 0 then map[] else Bound(args, k - 1)[k := args[k - 1]]
  }

  /** The call as one step on the tables. */
  function Atomically(call: Call, t: Tables): Execution {
    Execute(call.sql, Bound(call.args, |call.args|), t)
  }

  lemma {:induction false} BoundAt(args: seq<Value>, k: nat, i: int)
    requires k <= |args|
    ensures i in Bound(args, k) <==> 1 <= i <= k
    ensures 1 <= i <= k ==> Bound(args, k)[i] == args[i - 1]
  {
    if k > 0 {
      BoundAt(args, k - 1, i);
    }
  }

  /** Parameter `i` has the i-th argument. */
  lemma BoundIs(args: seq<Value>)
    ensures forall i :: i in Bound(args, |args|) <==> 1 <= i <= |args|
    ensures forall i :: i in Bound(args, |args|) ==> Bound(args, |args|)[i] == args[i - 1]
  {
    forall i
      ensures i in Bound(args, |args|) <==> 1 <= i <= |args|
      ensures 1 <= i <= |args| ==> Bound(args, |args|)[i] == args[i - 1]
    {
      BoundAt(args, |args|, i);
    }
  }

  /** Binding three or four arguments one after another. */
  lemma BoundInOrder(args: seq<Value>)
    ensures |args| == 3 ==> Bound(args, 3) == map[][1 := args[0]][2 := args[1]][3 := args[2]]
    ensures |args| == 4 ==> Bound(args, 4) == map[][1 := args[0]][2 := args[1]][3 := args[2]][4 := args[3]]
  {
    if |args| >= 3 {
      assert Bound(args, 1) == map[][1 := args[0]];
      assert Bound(args, 2) == map[][1 := args[0]][2 := args[1]];
      assert Bound(args, 3) == map[][1 := args[0]][2 := args[1]][3 := args[2]];
    }
  }

  /** Bound in full, the four statements are the table operations the rest of the model uses. */
  lemma StatementsMean(t: Tables, url: string, rev: string, id: int32, output: ProcessOutput)
    ensures Atomically(FindRepoCall(url), t) == Executed(t, if HasUrl(t, url) then Some(FindRepo(t, url)) else None)
    ensures Atomically(InsertRepoCall(url), t) == Executed(InsertRepo(t, url), None)
    ensures Atomically(InsertRunCall(id, rev), t) ==
      if RepoExists(t.repos, id) then Executed(InsertRun(t, id, rev), Some(NextRunId(t))) else Refused
    ensures Atomically(FinishedCall(id, output), t) == Executed(FinishRun(t, id, output), None)
    ensures Returns(RepoFind, Atomically(FindRepoCall(url), t).row) == ToInt32(FindRepo(t, url))
    ensures Returns(RunInsert, Some(NextRunId(t))) == ToInt32(NextRunId(t))
    ensures Returns(RepoInsert, None) == 0 && Returns(RunFinished, None) == 0
  {
    NotFoundIsZero(t, url);
    assert STATUSES[0].id == STATUS_CREATED && STATUSES[1].id == STATUS_FINISHED;
    BoundIs(FindRepoCall(url).args);
    BoundIs(InsertRepoCall(url).args);
    BoundIs(InsertRunCall(id, rev).args);
    BoundIs(FinishedCall(id, output).args);
    hide Bound, HasUrl, FindRepo, InsertRepo, NextRunId, RepoExists;
  }

  /** A missing row reads as 0, like the id the search in the model returns. */
  lemma NotFoundIsZero(t: Tables, url: string)
    ensures !HasUrl(t, url) ==> FindRepo(t, url) == 0
  {
    MissingIsZero(t.repos, url);
  }

  lemma {:induction false} MissingIsZero(repos: seq<RepoRow>, url: string)
    ensures (forall i :: 0 <= i < |repos| ==> repos[i].url != url) ==> RepoIdIn(repos, url) == 0
  {
    if repos != [] {
      MissingIsZero(repos[1..], url);
      assert forall i :: 0 <= i < |repos[1..]| ==> repos[1..][i] == repos[i + 1];
    }
  }

  // ---- threads sharing the statements ----

  datatype Pc =
    | Locking(call: Call)
    | Binding(call: Call, k: nat)               // holds the mutex, k arguments are bound
    | Reading(call: Call, own: Option<int>)     // stepped; `own` is the row of its own execution
    | Resetting(call: Call, ret: int)
    | Unlocking(call: Call, ret: int)
    | Returned(call: Call, ret: int)
  {
    predicate Inside() {
      Binding? || Reading? || Resetting? || Unlocking?
    }
  }

  /** `struct prepared_stmt`. */
  datatype Slot = Slot(owner: Option<nat>, bindings: Bindings, row: Option<int>)

  const IDLE := Slot(None, map[], None)

  /** What was executed, by whom, and the row it gave. */
  datatype Entry = Entry(thread: nat, call: Call, row: Option<int>)

  datatype State = State(tables: Tables, slots: map<Sql, Slot>, threads: seq<Pc>, log: seq<Entry>)

  function Initial(t: Tables): State {
    State(t, map[RepoFind := IDLE, RepoInsert := IDLE, RunInsert := IDLE, RunFinished := IDLE], [], [])
  }

  /** `ok` is false when SQLite refuses a binding or a step for reasons of its own. */
  datatype Event = Start(call: Call) | Move(t: nat, ok: bool)

  predicate Possible(s: State, e: Event) {
    match e
    case Start(call) => true
    case Move(t, _) =>
      && t < |s.threads| && !s.threads[t].Returned? && s.threads[t].call.sql in s.slots
      && (s.threads[t].Locking? ==> s.slots[s.threads[t].call.sql].owner.None?)
      && (s.threads[t].Binding? ==> s.threads[t].k <= |s.threads[t].call.args|)
  }

  function Put(s: State, t: nat, pc: Pc, slot: Slot): State
    requires t < |s.threads|
  {
    s.(threads := s.threads[t := pc], slots := s.slots[pc.call.sql := slot])
  }

  function Stepped(s: State, t: nat, call: Call, slot: Slot, ok: bool): State
    requires t < |s.threads|
  {
    var e := if ok then Execute(call.sql, slot.bindings, s.tables) else Refused;
    match e
    case Refused => Put(s, t, Resetting(call, -1), slot)
    case Executed(tables, row) =>
      Put(s, t, Reading(call, row), slot.(row := row)).(tables := tables, log := s.log + [Entry(t, call, row)])
  }

  function Next(s: State, e: Event): State
    requires Possible(s, e)
  {
    match e
    case Start(call) => s.(threads := s.threads + [Locking(call)])
    case Move(t, ok) =>
      var slot := s.slots[s.threads[t].call.sql];
      match s.threads[t]
      case Locking(call) => Put(s, t, Binding(call, 0), slot.(owner := Some(t)))
      case Binding(call, k) =>
        if k == |call.args| then Stepped(s, t, call, slot, ok)
        else if ok then Put(s, t, Binding(call, k + 1), slot.(bindings := slot.bindings[k + 1 := call.args[k]]))
        else Put(s, t, Resetting(call, -1), slot)
      case Reading(call, _) => Put(s, t, Resetting(call, Returns(call.sql, slot.row)), slot)
      case Resetting(call, ret) => Put(s, t, Unlocking(call, ret), Slot(slot.owner, map[], None))
      case Unlocking(call, ret) => Put(s, t, Returned(call, ret), slot.(owner := None))
      case Returned(call, ret) => s
  }

  ghost predicate Reaches(s: State, events: seq<Event>, s': State)
    decreases |events|
  {
    if events == [] then s' == s
    else Possible(s, events[0]) && Reaches(Next(s, events[0]), events[1..], s')
  }

  // ---- each thread has the statement to itself ----

  /** The thread that owns a statement is inside it, and sees exactly what it put there. */
  predicate SlotOk(slot: Slot, t: nat, pc: Pc) {
    match pc
    case Binding(call, k) => slot.owner == Some(t) && k <= |call.args| && slot.bindings == Bound(call.args, k)
      && slot.row == None
    case Reading(call, own) => slot.owner == Some(t) && slot.row == own
    case Resetting(_, _) => slot.owner == Some(t)
    case Unlocking(_, _) => slot == Slot(Some(t), map[], None)
    case _ => slot.owner != Some(t)
  }

  ghost predicate SlotsInv(slots: map<Sql, Slot>, threads: seq<Pc>) {
    && (forall sql: Sql :: sql in slots)
    && (forall t :: 0 <= t < |threads| ==> SlotOk(slots[threads[t].call.sql], t, threads[t]))
    && (forall sql, t :: sql in slots && 0 <= t < |threads| && slots[sql].owner == Some(t) ==>
          threads[t].Inside() && threads[t].call.sql == sql)
    && (forall sql :: sql in slots && slots[sql].owner.Some? ==> slots[sql].owner.value < |threads|)
    && (forall sql :: sql in slots && slots[sql].owner.None? ==> slots[sql] == IDLE)
  }

  /** One thread moves within its statement: the others see nothing of it. */
  lemma PutKeeps(slots: map<Sql, Slot>, threads: seq<Pc>, t: nat, pc: Pc, slot: Slot)
    requires SlotsInv(slots, threads) && t < |threads| && pc.call == threads[t].call
    requires threads[t].Inside() || (threads[t].Locking? && slots[pc.call.sql].owner.None?)
    requires SlotOk(slot, t, pc)
    requires if pc.Returned? then slot == IDLE else pc.Inside()
    ensures SlotsInv(slots[pc.call.sql := slot], threads[t := pc])
  {
    hide Bound, Execute;
    assert SlotOk(slots[threads[t].call.sql], t, threads[t]);
  }

  lemma SlotsKept(s: State, e: Event)
    requires SlotsInv(s.slots, s.threads) && Possible(s, e)
    ensures SlotsInv(Next(s, e).slots, Next(s, e).threads)
  {
    hide Bound, Execute, Returns;
    if e.Move? {
      var t, pc := e.t, s.threads[e.t];
      assert SlotOk(s.slots[pc.call.sql], t, pc);
      hide SlotsInv;
      MoveKeepsSlots(s, e);
    }
  }

  lemma MoveKeepsSlots(s: State, e: Event)
    requires SlotsInv(s.slots, s.threads) && Possible(s, e) && e.Move?
    ensures SlotsInv(Next(s, e).slots, Next(s, e).threads)
  {
    var t, pc := e.t, s.threads[e.t];
    assert SlotOk(s.slots[pc.call.sql], t, pc);
    assert pc.Locking? ==> s.slots[pc.call.sql] == IDLE;
    hide SlotsInv, Execute, Returns;
    var s' := Next(s, e);
    PutKeeps(s.slots, s.threads, t, s'.threads[t], s'.slots[pc.call.sql]);
  }

  // ---- a call is one step ----

  /** The calls executed, one after another, each with its own arguments. */
  function Replay(t: Tables, log: seq<Entry>): Tables {
    if log == [] then t
    else
      var before, last := Replay(t, log[..|log| - 1]), log[|log| - 1];
      var e := Atomically(last.call, before);
      if e.Executed? then e.tables else before
  }

  /** Each entry has the row its call gave at its turn. */
  ghost predicate RowsMatch(t: Tables, log: seq<Entry>) {
    forall i :: 0 <= i < |log| ==> Gives(log[i], Replay(t, log[..i]))
  }

  predicate Gives(entry: Entry, before: Tables) {
    var e := Atomically(entry.call, before);
    e.Executed? && e.row == entry.row
  }

  /** Where an execution of this thread stands in the log. */
  ghost predicate ExecutedOnce(log: seq<Entry>, t: nat, call: Call, ret: Option<int>) {
    exists i ::
      && IsOnlyEntry(log, i, t) && log[i].call == call
      && (ret.Some? ==> ret.value == Returns(call.sql, log[i].row))
  }

  ghost predicate IsOnlyEntry(log: seq<Entry>, i: int, t: nat) {
    0 <= i < |log| && log[i].thread == t && forall j :: 0 <= j < |log| && j != i ==> log[j].thread != t
  }

  ghost predicate NotExecuted(log: seq<Entry>, t: nat) {
    forall i :: 0 <= i < |log| ==> log[i].thread != t
  }

  /** What a thread has done to the tables so far: one execution, or none, and then it fails. */
  ghost predicate PcTells(pc: Pc, t: nat, log: seq<Entry>) {
    match pc
    case Locking(_) => NotExecuted(log, t)
    case Binding(_, _) => NotExecuted(log, t)
    case Reading(call, own) => ExecutedOnce(log, t, call, Some(Returns(call.sql, own)))
    case Resetting(call, ret) => ExecutedOnce(log, t, call, Some(ret)) || (ret < 0 && NotExecuted(log, t))
    case Unlocking(call, ret) => ExecutedOnce(log, t, call, Some(ret)) || (ret < 0 && NotExecuted(log, t))
    case Returned(call, ret) => ExecutedOnce(log, t, call, Some(ret)) || (ret < 0 && NotExecuted(log, t))
  }

  ghost predicate LogInv(start: Tables, s: State) {
    && s.tables == Replay(start, s.log) && RowsMatch(start, s.log)
    && (forall t :: 0 <= t < |s.threads| ==> PcTells(s.threads[t], t, s.log))
    && (forall i :: 0 <= i < |s.log| ==> s.log[i].thread < |s.threads|)
  }

  lemma ReplaySnoc(start: Tables, log: seq<Entry>, entry: Entry)
    requires RowsMatch(start, log) && Gives(entry, Replay(start, log))
    ensures RowsMatch(start, log + [entry])
    ensures Replay(start, log + [entry]) == Atomically(entry.call, Replay(start, log)).tables
  {
    hide Atomically;
    var more := log + [entry];
    assert more[..|log|] == log;
    forall i | 0 <= i < |more|
      ensures Gives(more[i], Replay(start, more[..i]))
    {
      if i < |log| {
        assert more[..i] == log[..i];
      }
    }
  }

  /** A new entry of thread `t` changes nothing for the others. */
  lemma OthersTellTheSame(pc: Pc, u: nat, log: seq<Entry>, entry: Entry)
    requires PcTells(pc, u, log) && entry.thread != u
    ensures PcTells(pc, u, log + [entry])
  {
    hide Returns;
    var more := log + [entry];
    if !NotExecuted(log, u) {
      var i :| IsOnlyEntry(log, i, u);
      assert IsOnlyEntry(more, i, u);
      forall ret | ExecutedOnce(log, u, pc.call, ret)
        ensures ExecutedOnce(more, u, pc.call, ret)
      {
        var k :| IsOnlyEntry(log, k, u) && log[k].call == pc.call
          && (ret.Some? ==> ret.value == Returns(pc.call.sql, log[k].row));
        assert IsOnlyEntry(more, k, u) && more[k] == log[k];
      }
    }
  }

  lemma ExecutionTells(log: seq<Entry>, t: nat, call: Call, row: Option<int>)
    requires NotExecuted(log, t)
    ensures ExecutedOnce(log + [Entry(t, call, row)], t, call, Some(Returns(call.sql, row)))
  {
    hide Returns;
    var more := log + [Entry(t, call, row)];
    assert IsOnlyEntry(more, |log|, t) && more[|log|].call == call;
  }

  lemma EntryKeepsLog(threads: seq<Pc>, log: seq<Entry>, t: nat, call: Call, row: Option<int>)
    requires t < |threads| && (forall u :: 0 <= u < |threads| ==> PcTells(threads[u], u, log)) && NotExecuted(log, t)
    ensures
      var threads', log' := threads[t := Reading(call, row)], log + [Entry(t, call, row)];
      forall u :: 0 <= u < |threads| ==> PcTells(threads'[u], u, log')
  {
    var log' := log + [Entry(t, call, row)];
    ExecutionTells(log, t, call, row);
    forall u | 0 <= u < |threads| && u != t
      ensures PcTells(threads[u], u, log')
    {
      OthersTellTheSame(threads[u], u, log, Entry(t, call, row));
    }
    hide ExecutedOnce, NotExecuted, Returns;
  }

  /** The one step that touches the tables. */
  lemma StepKeepsLog(start: Tables, s: State, t: nat, ok: bool)
    requires LogInv(start, s) && SlotsInv(s.slots, s.threads) && Possible(s, Move(t, ok))
    requires s.threads[t].Binding? && s.threads[t].k == |s.threads[t].call.args|
    ensures LogInv(start, Next(s, Move(t, ok)))
  {
    var pc := s.threads[t];
    assert SlotOk(s.slots[pc.call.sql], t, pc) && PcTells(pc, t, s.log);
    hide SlotsInv, Execute, Bound, Returns, Replay, RowsMatch, ExecutedOnce;
    var e := if ok then Atomically(pc.call, s.tables) else Refused;
    if e.Executed? {
      EntryKeepsLog(s.threads, s.log, t, pc.call, e.row);
      ReplaySnoc(start, s.log, Entry(t, pc.call, e.row));
    }
    hide NotExecuted;
  }

  /** Every other step leaves tables and log alone. */
  lemma QuietStepKeepsLog(start: Tables, s: State, t: nat, ok: bool)
    requires LogInv(start, s) && SlotsInv(s.slots, s.threads) && Possible(s, Move(t, ok))
    requires !(s.threads[t].Binding? && s.threads[t].k == |s.threads[t].call.args|)
    ensures LogInv(start, Next(s, Move(t, ok))) && Next(s, Move(t, ok)).tables == s.tables
  {
    var pc := s.threads[t];
    assert SlotOk(s.slots[pc.call.sql], t, pc) && PcTells(pc, t, s.log);
    hide SlotsInv, Execute, Bound, Returns, Replay, RowsMatch, ExecutedOnce, NotExecuted;
  }

  lemma StartKeepsLog(start: Tables, s: State, call: Call)
    requires LogInv(start, s)
    ensures LogInv(start, Next(s, Start(call)))
  {
    hide Replay, RowsMatch, ExecutedOnce;
    assert NotExecuted(s.log, |s.threads|);
  }

  lemma LogKept(start: Tables, s: State, e: Event)
    requires LogInv(start, s) && SlotsInv(s.slots, s.threads) && Possible(s, e)
    ensures LogInv(start, Next(s, e))
  {
    hide LogInv, SlotsInv, Next;
    match e
    case Start(call) => StartKeepsLog(start, s, call);
    case Move(t, ok) =>
      if s.threads[t].Binding? && s.threads[t].k == |s.threads[t].call.args| {
        StepKeepsLog(start, s, t, ok);
      } else {
        QuietStepKeepsLog(start, s, t, ok);
      }
  }

  lemma {:induction false} AlwaysLogged(start: Tables, s: State, events: seq<Event>, s': State)
    requires LogInv(start, s) && SlotsInv(s.slots, s.threads) && Reaches(s, events, s')
    ensures LogInv(start, s') && SlotsInv(s'.slots, s'.threads)
    decreases |events|
  {
    hide LogInv, SlotsInv, Next;
    if events != [] {
      LogKept(start, s, events[0]);
      SlotsKept(s, events[0]);
      AlwaysLogged(start, Next(s, events[0]), events[1..], s');
    }
  }

  lemma InitiallyLogged(start: Tables)
    ensures LogInv(start, Initial(start)) && SlotsInv(Initial(start).slots, [])
  {
    assert RowsMatch(start, []);
    forall sql: Sql
      ensures sql in Initial(start).slots
    {
      assert sql.RepoFind? || sql.RepoInsert? || sql.RunInsert? || sql.RunFinished?;
    }
  }

  /**
   However the threads interleave within and between statements: the tables are those left by
   the calls executed, one after another, each with its own arguments; and a call that returns
   was executed exactly once and returns what it gave at its turn, or was not executed and
   returns an error.
   */
  lemma CallsAreAtomic(start: Tables, events: seq<Event>, s: State)
    requires Reaches(Initial(start), events, s)
    ensures s.tables == Replay(start, s.log) && RowsMatch(start, s.log)
    ensures forall t :: 0 <= t < |s.threads| && s.threads[t].Returned? ==>
      var call, ret := s.threads[t].call, s.threads[t].ret;
      ExecutedOnce(s.log, t, call, Some(ret)) || (ret < 0 && NotExecuted(s.log, t))
  {
    InitiallyLogged(start);
    AlwaysLogged(start, Initial(start), events, s);
    hide Reaches, Replay, RowsMatch, ExecutedOnce, NotExecuted, SlotsInv;
    forall t | 0 <= t < |s.threads| && s.threads[t].Returned?
      ensures ExecutedOnce(s.log, t, s.threads[t].call, Some(s.threads[t].ret))
        || (s.threads[t].ret < 0 && NotExecuted(s.log, t))
    {
      assert PcTells(s.threads[t], t, s.log);
    }
  }

  /** A thread always steps with exactly the arguments it bound, and a free statement has none. */
  lemma OwnBindings(start: Tables, events: seq<Event>, s: State)
    requires Reaches(Initial(start), events, s)
    ensures forall t :: 0 <= t < |s.threads| && s.threads[t].Binding? && s.threads[t].k == |s.threads[t].call.args| ==>
      var call := s.threads[t].call;
      call.sql in s.slots && s.slots[call.sql].bindings == Bound(call.args, |call.args|)
    ensures forall sql :: sql in s.slots && s.slots[sql].owner.None? ==> s.slots[sql].bindings == map[]
  {
    InitiallyLogged(start);
    AlwaysLogged(start, Initial(start), events, s);
    hide Reaches, LogInv, Bound;
    forall t | 0 <= t < |s.threads| && s.threads[t].Binding? && s.threads[t].k == |s.threads[t].call.args|
      ensures s.slots[s.threads[t].call.sql].bindings == Bound(s.threads[t].call.args, |s.threads[t].call.args|)
    {
      assert SlotOk(s.slots[s.threads[t].call.sql], t, s.threads[t]);
    }
  }

  // ---- a call fails only when it is refused ----

  /** SQLite refused something this thread asked for, or the constraints refused the call at some turn. */
  ghost predicate WasRefused(start: Tables, events: seq<Event>, log: seq<Entry>, t: nat, call: Call) {
    || Move(t, false) in events
    || exists j :: 0 <= j <= |log| && Atomically(call, Replay(start, log[..j])).Refused?
  }

  /** Past its step a thread has executed its call, or was refused. */
  ghost predicate PcExcused(start: Tables, events: seq<Event>, log: seq<Entry>, t: nat, pc: Pc) {
    pc.Resetting? || pc.Unlocking? || pc.Returned? ==>
      !NotExecuted(log, t) || WasRefused(start, events, log, t, pc.call)
  }

  ghost predicate Excused(start: Tables, events: seq<Event>, s: State) {
    forall t :: 0 <= t < |s.threads| ==> PcExcused(start, events, s.log, t, s.threads[t])
  }

  lemma StillRefused(start: Tables, events: seq<Event>, e: Event, log: seq<Entry>, log': seq<Entry>, t: nat, call: Call)
    requires WasRefused(start, events, log, t, call) && log <= log'
    ensures WasRefused(start, events + [e], log', t, call)
  {
    hide Atomically, Replay;
    if Move(t, false) !in events {
      var j :| 0 <= j <= |log| && Atomically(call, Replay(start, log[..j])).Refused?;
      assert log'[..j] == log[..j];
    }
  }

  lemma StillExecuted(log: seq<Entry>, log': seq<Entry>, t: nat)
    requires !NotExecuted(log, t) && log <= log'
    ensures !NotExecuted(log', t)
  {
    var i :| 0 <= i < |log| && log[i].thread == t;
    assert log'[i].thread == t;
  }

  lemma StillExcused(start: Tables, events: seq<Event>, e: Event, log: seq<Entry>, log': seq<Entry>, t: nat, pc: Pc)
    requires PcExcused(start, events, log, t, pc) && log <= log'
    ensures PcExcused(start, events + [e], log', t, pc)
  {
    hide NotExecuted, WasRefused;
    if pc.Resetting? || pc.Unlocking? || pc.Returned? {
      if NotExecuted(log, t) {
        StillRefused(start, events, e, log, log', t, pc.call);
      } else {
        StillExecuted(log, log', t);
      }
    }
  }

  /** The thread that moves. */
  lemma MoverExcused(start: Tables, events: seq<Event>, s: State, t: nat, ok: bool)
    requires LogInv(start, s) && SlotsInv(s.slots, s.threads) && Possible(s, Move(t, ok))
    requires PcExcused(start, events, s.log, t, s.threads[t])
    ensures
      var s' := Next(s, Move(t, ok));
      s.log <= s'.log && PcExcused(start, events + [Move(t, ok)], s'.log, t, s'.threads[t])
  {
    var pc, s' := s.threads[t], Next(s, Move(t, ok));
    assert SlotOk(s.slots[pc.call.sql], t, pc) && PcTells(pc, t, s.log);
    hide SlotsInv, Execute, Bound, Returns, Replay, RowsMatch;
    assert s.log <= s'.log && s'.threads[t].call == pc.call;
    if pc.Binding? {
      if ok && s'.threads[t].Resetting? {
        assert s.log[..|s.log|] == s.log;
        assert Atomically(pc.call, Replay(start, s.log[..|s.log|])).Refused?;
      } else if !ok {
        assert Move(t, false) in events + [Move(t, ok)];
      }
    } else if pc.Reading? {
      assert !NotExecuted(s'.log, t);
    } else if !pc.Locking? {
      StillExcused(start, events, Move(t, ok), s.log, s'.log, t, pc);
    }
  }

  lemma NextExcused(start: Tables, events: seq<Event>, s: State, e: Event)
    requires LogInv(start, s) && SlotsInv(s.slots, s.threads) && Possible(s, e) && Excused(start, events, s)
    ensures Excused(start, events + [e], Next(s, e))
  {
    var s' := Next(s, e);
    if e.Move? {
      assert PcExcused(start, events, s.log, e.t, s.threads[e.t]);
      MoverExcused(start, events, s, e.t, e.ok);
    }
    hide PcExcused, LogInv, SlotsInv, Execute;
    forall t | 0 <= t < |s'.threads|
      ensures PcExcused(start, events + [e], s'.log, t, s'.threads[t])
    {
      if t == |s.threads| {
        StartsExcused(start, events + [e], s'.log, t, s'.threads[t].call);
      } else if !e.Move? || t != e.t {
        StillExcused(start, events, e, s.log, s'.log, t, s.threads[t]);
      }
    }
  }

  lemma StartsExcused(start: Tables, events: seq<Event>, log: seq<Entry>, t: nat, call: Call)
    ensures PcExcused(start, events, log, t, Locking(call))
  {
  }

  lemma {:induction false} AlwaysExcused(start: Tables, past: seq<Event>, s: State, events: seq<Event>, s': State)
    requires LogInv(start, s) && SlotsInv(s.slots, s.threads) && Excused(start, past, s) && Reaches(s, events, s')
    ensures Excused(start, past + events, s')
    decreases |events|
  {
    hide LogInv, SlotsInv, Next, Excused;
    if events == [] {
      assert past + events == past;
    } else {
      var e := events[0];
      LogKept(start, s, e);
      SlotsKept(s, e);
      NextExcused(start, past, s, e);
      AlwaysExcused(start, past + [e], Next(s, e), events[1..], s');
      assert past + [e] + events[1..] == past + events;
    }
  }

  /** A call that returns was executed, unless SQLite refused a binding or its step, or the constraints the call. */
  lemma OnlyRefusedCallsFail(start: Tables, events: seq<Event>, s: State, t: nat)
    requires Reaches(Initial(start), events, s) && t < |s.threads| && s.threads[t].Returned?
    requires Move(t, false) !in events
    requires forall j :: 0 <= j <= |s.log| ==> Atomically(s.threads[t].call, Replay(start, s.log[..j])).Executed?
    ensures ExecutedOnce(s.log, t, s.threads[t].call, Some(s.threads[t].ret))
  {
    hide Atomically, Replay, SlotsInv, ExecutedOnce;
    InitiallyLogged(start);
    AlwaysExcused(start, [], Initial(start), events, s);
    assert [] + events == events;
    assert PcExcused(start, events, s.log, t, s.threads[t]);
    CallsAreAtomic(start, events, s);
  }
}
