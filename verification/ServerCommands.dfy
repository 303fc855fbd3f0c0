/** The server's command handlers, and what a response to a client is worth. */
module ServerCommands {
  import opened Results
  import opened Json
  import opened JsonRpc
  import opened Protocol
  import opened Storage
  import opened RunCreation
  import opened ServerState
  import opened Server
  import opened Command

  /** What the handlers change: the database, the queues, and the descriptors duplicated. */
  datatype Hub = Hub(tables: Tables, shared: Shared, duplicated: nat)

  /** Which of the fallible calls a handler may make succeed. */
  datatype Faults = Faults(insertsRepo: bool, findsRepo: bool, insertsRun: bool, duplicates: bool, finishes: bool,
                           fetches: bool)

  /** `storage_run_create`, uninterrupted. */
  function RunCreate(t: Tables, url: string, rev: string, f: Faults): (Tables, int32) {
    var (tables, stage) := CreateAlone(t, url, rev, f.insertsRepo, f.findsRepo, f.insertsRun);
    (tables, if stage.Created? then stage.id else -1)
  }

  function HandleNewWorker(request: Json, hub: Hub, f: Faults): Reply<Hub> {
    if !f.duplicates then Reply(hub, None, -1)
    else Reply(hub.(shared := WithWorker(hub.shared, hub.duplicated), duplicated := hub.duplicated + 1), None, 0)
  }

  function HandleQueueRun(request: Json, hub: Hub, f: Faults): Reply<Hub> {
    match ParseQueueRun(request)
    case None => Reply(hub, None, -1)
    case Some(run) =>
      match ResultResponse(request, Null)
      case None => Reply(hub, None, -1)
      case Some(response) =>
        var (tables, ret) := RunCreate(hub.tables, run.url, run.rev, f);
        if ret < 0 then Reply(hub.(tables := tables), None, ret)
        else Reply(hub.(tables := tables, shared := WithRun(hub.shared, run.(id := ret))), Some(response), 0)
  }

  function HandleFinishedRun(request: Json, hub: Hub, f: Faults): Reply<Hub> {
    match ParseFinishedRun(request)
    case None => Reply(hub, None, -1)
    case Some((id, output)) =>
      if !f.finishes then Reply(hub, None, -1) else Reply(hub.(tables := FinishRun(hub.tables, id, output)), None, 0)
  }

  function HandleGetRuns(request: Json, hub: Hub, f: Faults): Reply<Hub> {
    if !f.fetches then Reply(hub, None, -1)
    else
      match ResultResponse(request, RunsAsJson(GetRuns(hub.tables)))
      case None => Reply(hub, None, -1)
      case Some(response) => Reply(hub, Some(response), 0)
  }

  function Commands(f: Faults): seq<Cmd<Hub>> {
    [Cmd(CMD_NEW_WORKER, (request, hub) => HandleNewWorker(request, hub, f)),
     Cmd(CMD_QUEUE_RUN, (request, hub) => HandleQueueRun(request, hub, f)),
     Cmd(CMD_FINISHED_RUN, (request, hub) => HandleFinishedRun(request, hub, f)),
     Cmd(CMD_GET_RUNS, (request, hub) => HandleGetRuns(request, hub, f))]
  }

  lemma NamesDiffer()
    ensures CMD_NEW_WORKER != CMD_QUEUE_RUN && CMD_NEW_WORKER != CMD_FINISHED_RUN && CMD_NEW_WORKER != CMD_GET_RUNS
    ensures CMD_QUEUE_RUN != CMD_FINISHED_RUN && CMD_QUEUE_RUN != CMD_GET_RUNS && CMD_FINISHED_RUN != CMD_GET_RUNS
  {
    assert CMD_NEW_WORKER[0] == 'n' && CMD_QUEUE_RUN[0] == 'q' && CMD_FINISHED_RUN[0] == 'f' && CMD_GET_RUNS[0] == 'g';
  }

  /** Each command reaches its own handler; any other method is refused. */
  lemma Dispatched(request: Json, hub: Hub, f: Faults)
    requires CheckMethod(request)
    ensures
      var name := GetString(request, KEY_METHOD).value;
      Dispatch(Commands(f), request, hub) ==
        if name == CMD_NEW_WORKER then HandleNewWorker(request, hub, f)
        else if name == CMD_QUEUE_RUN then HandleQueueRun(request, hub, f)
        else if name == CMD_FINISHED_RUN then HandleFinishedRun(request, hub, f)
        else if name == CMD_GET_RUNS then HandleGetRuns(request, hub, f)
        else Reply(hub, None, -1)
  {
    NamesDiffer();
    hide HandleNewWorker, HandleQueueRun, HandleFinishedRun, HandleGetRuns;
    var cmds := Commands(f);
    assert cmds[1..][0] == cmds[1] && cmds[1..][1..] == cmds[2..];
    assert cmds[2..][0] == cmds[2] && cmds[2..][1..] == cmds[3..];
    assert cmds[3..][0] == cmds[3] && cmds[3..][1..] == [];
  }

  /** The last row is a new one with this revision, for the repository found for this url. */
  ghost predicate Inserted(before: Tables, after: Tables, url: string, rev: string, id: int32) {
    && |after.runs| == |before.runs| + 1 && after.runs[..|before.runs|] == before.runs
    && before.repos <= after.repos
    && var row := after.runs[|before.runs|];
    && row.id == NextRunId(before) && ToInt32(row.id) == id
    && row.rev == rev && row.status == STATUS_CREATED && row.exitCode == -1
    && HasUrl(after, url) && row.repoId == ToInt32(FindRepo(after, url)) && RepoExists(after.repos, row.repoId)
    && (ReposNumbered(before.repos) && |after.repos| <= WRAP ==> RepoIs(after.repos, row.repoId, url))
  }

  lemma RunCreateIsPositive(t: Tables, url: string, rev: string, f: Faults)
    requires Grown(t) && |t.repos| + 1 < WRAP && |t.runs| + 1 < WRAP
    ensures RunCreate(t, url, rev, f).1 >= 0 <==>
      CreateAlone(t, url, rev, f.insertsRepo, f.findsRepo, f.insertsRun).1.Created?
  {
    CreateAloneSucceedsIff(t, url, rev, f.insertsRepo, f.findsRepo, f.insertsRun);
    hide CreateAlone;
  }

  lemma CreatedMeansInserted(t: Tables, url: string, rev: string, f: Faults)
    ensures
      var (t', ret) := RunCreate(t, url, rev, f);
      && (ret >= 0 ==> Inserted(t, t', url, rev, ret))
      && (ret < 0 && 1 <= NextRunId(t) <= INT_MAX ==> t'.runs == t.runs)
  {
    var t1 := InsertRepo(t, url);
    UrlIsThere(t, url);
    assert RepoIdIn(t1.repos, url) == FindRepo(t1, url);
    hide ReposNumbered, FindRepo, HasUrl, ToInt32;
    if ReposNumbered(t.repos) {
      NewRepoNumbered(t, url);
      FoundRepo(t1, url);
      if |t1.repos| <= WRAP && RepoExists(t1.repos, ToInt32(FindRepo(t1, url))) {
        ExistsIsPositive(t1.repos, ToInt32(FindRepo(t1, url)));
        ReadsAsItself(FindRepo(t1, url), |t1.repos|);
      }
    }
  }

  lemma UrlIsThere(t: Tables, url: string)
    ensures HasUrl(InsertRepo(t, url), url)
  {
    if !HasUrl(t, url) {
      assert InsertRepo(t, url).repos[|t.repos|].url == url;
    }
  }

  lemma ExistsIsPositive(repos: seq<RepoRow>, id: int)
    requires ReposNumbered(repos) && RepoExists(repos, id)
    ensures id >= 1
  {
  }

  /**
   One connection to the server, whatever was received and whatever fails: for each command
   exactly when it succeeds, what success does to the database, the queues and the response, and
   that failure queues and registers nothing.  Any other method is answered with an error.
   */
  method ServeConnection(received: Option<Json>, hub: Hub, f: Faults, sendOk: bool)
    returns (ret: int, sent: Option<Json>, hub': Hub)
    ensures received.None? || !IsRequest(received.value) ==> ret < 0 && sent.None? && hub' == hub
    ensures received.Some? && IsRequest(received.value) ==>
      && (IsNotification(received.value) <==> sent.None?)
      && (sent.Some? ==> Answers(sent.value, received.value))
      && (sent.Some? ==> (ret >= 0 <==> sendOk && !IsError(sent.value)))
      && (GetString(received.value, KEY_METHOD) == Some(CMD_QUEUE_RUN)
          ==> QueueRunServed(received.value, hub, f, sent, hub'))
      && (GetString(received.value, KEY_METHOD) == Some(CMD_GET_RUNS) ==> GetRunsServed(hub, f, sent, hub'))
      && (GetString(received.value, KEY_METHOD) == Some(CMD_NEW_WORKER)
          ==> NewWorkerServed(hub, f, Succeeded(ret, sent), hub'))
      && (GetString(received.value, KEY_METHOD) == Some(CMD_FINISHED_RUN) ==>
            FinishedRunServed(received.value, hub, f, Succeeded(ret, sent), hub'))
      && (GetString(received.value, KEY_METHOD).value !in {"new-worker", "queue-run", "finished-run", "get-runs"} ==>
            !Succeeded(ret, sent) && hub' == hub)
  {
    hide Dispatch, Chosen, Commands, IsRequest, Answers, QueueRunServed, GetRunsServed, NewWorkerServed,
      FinishedRunServed;
    hide HandleNewWorker, HandleQueueRun, HandleFinishedRun, HandleGetRuns;
    ret, sent, hub' := HandleConn(Commands(f), received, hub, sendOk);
    if received.Some? && IsRequest(received.value) {
      HandlersAnswer(received.value, hub, f);
      ResponsesAnswer(Commands(f), received.value, hub);
      OneIsServed(received.value, hub, f);
    }
  }

  /** As far as the other end can tell, or, without a response, by the code returned. */
  predicate Succeeded(ret: int, sent: Option<Json>) {
    if sent.Some? then !IsError(sent.value) else ret >= 0
  }

  /** A worker is registered under a fresh descriptor, or nothing happens. */
  predicate NewWorkerServed(hub: Hub, f: Faults, ok: bool, hub': Hub) {
    && (ok <==> f.duplicates)
    && hub'.tables == hub.tables && hub'.shared.runs == hub.shared.runs && hub'.shared.stopping == hub.shared.stopping
    && hub'.shared.workers == hub.shared.workers + (if ok then [hub.duplicated] else [])
    && hub'.duplicated == hub.duplicated + (if ok then 1 else 0)
  }

  /** The run named is finished as reported, or nothing happens. */
  predicate FinishedRunServed(request: Json, hub: Hub, f: Faults, ok: bool, hub': Hub) {
    && (ok <==> ParseFinishedRun(request).Some? && f.finishes)
    && hub'.shared == hub.shared && hub'.duplicated == hub.duplicated
    && (!ok ==> hub'.tables == hub.tables)
    && (ok ==>
          && ParseFinishedRun(request).Some?
          && var (id, output) := ParseFinishedRun(request).value;
          && hub'.tables.repos == hub.tables.repos && |hub'.tables.runs| == |hub.tables.runs|
          && forall i :: 0 <= i < |hub.tables.runs| ==>
               var row := hub.tables.runs[i];
               hub'.tables.runs[i] ==
                 if row.id == id then RunRow(row.id, STATUS_FINISHED, output.ec, output.data, row.repoId, row.rev)
                   else row)
  }

  /**
   Over a database that grew from an empty one: what can be parsed is queued whenever SQLite
   executes the three statements and the ids fit an `int`.
   */
  ghost predicate QueueRunServed(request: Json, hub: Hub, f: Faults, sent: Option<Json>, hub': Hub) {
    && (sent.None? ==> hub' == hub)
    && (sent.Some? && Grown(hub.tables) && |hub.tables.repos| + 1 < WRAP && |hub.tables.runs| + 1 < WRAP ==>
          (!IsError(sent.value) <==>
             && ParseQueueRun(request).Some? && f.insertsRepo && f.findsRepo && f.insertsRun
             && UrlFits(hub.tables, ParseQueueRun(request).value.url) && |hub.tables.runs| < INT_MAX))
    && (sent.Some? && IsError(sent.value) ==> hub'.shared == hub.shared && hub'.duplicated == hub.duplicated)
    && (sent.Some? && !IsError(sent.value) ==>
          && ParseQueueRun(request).Some?
          && var run := ParseQueueRun(request).value;
          && |hub'.shared.runs| > 0
          && var queued := hub'.shared.runs[|hub'.shared.runs| - 1];
          && queued == run.(id := queued.id) && queued.id >= 0
          && hub' == Hub(hub'.tables, WithRun(hub.shared, queued), hub.duplicated)
          && Inserted(hub.tables, hub'.tables, run.url, run.rev, queued.id))
  }

  predicate GetRunsServed(hub: Hub, f: Faults, sent: Option<Json>, hub': Hub) {
    && hub' == hub
    && (sent.Some? ==> (!IsError(sent.value) <==> f.fetches))
    && (sent.Some? && !IsError(sent.value) ==> Get(sent.value, KEY_RESULT) == Some(RunsAsJson(GetRuns(hub.tables))))
  }

  /** A response a handler makes answers the request it was given. */
  lemma HandlersAnswer(request: Json, hub: Hub, f: Faults)
    requires IsRequest(request)
    ensures
      var reply := Dispatch(Commands(f), request, hub);
      reply.response.Some? ==>
        Answers(reply.response.value, request) && reply.ret >= 0 && !IsError(reply.response.value)
  {
    hide Answers, IsError, Commands, Dispatch, ParseQueueRun, ParseFinishedRun, RunCreate, ResultResponse,
      ErrorResponse, RunsAsJson;
    Dispatched(request, hub, f);
    ResponsesConform(request, Null, -1, "");
    ResponsesConform(request, RunsAsJson(GetRuns(hub.tables)), -1, "");
  }

  lemma QueueRunIsServed(request: Json, hub: Hub, f: Faults)
    requires IsRequest(request) && GetString(request, KEY_METHOD) == Some(CMD_QUEUE_RUN)
    ensures
      var reply := Dispatch(Commands(f), request, hub);
      QueueRunServed(request, hub, f, if IsNotification(request) then None else Chosen(request, reply), reply.state)
  {
    hide Answers, IsError, Commands, Dispatch, ParseQueueRun, RunCreate, ResultResponse, ErrorResponse, Inserted,
      IsRequest, IsNotification;
    Dispatched(request, hub, f);
    NamesDiffer();
    ResponsesConform(request, Null, DEFAULT_ERROR_CODE, DEFAULT_ERROR_MESSAGE);
    if ParseQueueRun(request).Some? {
      var run := ParseQueueRun(request).value;
      CreatedMeansInserted(hub.tables, run.url, run.rev, f);
      if Grown(hub.tables) && |hub.tables.repos| + 1 < WRAP && |hub.tables.runs| + 1 < WRAP {
        CreateAloneSucceedsIff(hub.tables, run.url, run.rev, f.insertsRepo, f.findsRepo, f.insertsRun);
        RunCreateIsPositive(hub.tables, run.url, run.rev, f);
      }
    }
  }

  lemma GetRunsIsServed(request: Json, hub: Hub, f: Faults)
    requires IsRequest(request) && GetString(request, KEY_METHOD) == Some(CMD_GET_RUNS)
    ensures
      var reply := Dispatch(Commands(f), request, hub);
      GetRunsServed(hub, f, if IsNotification(request) then None else Chosen(request, reply), reply.state)
  {
    hide Answers, IsError, Commands, Dispatch, ResultResponse, ErrorResponse, IsRequest, IsNotification, RunsAsJson;
    Dispatched(request, hub, f);
    NamesDiffer();
    ResponsesConform(request, RunsAsJson(GetRuns(hub.tables)), DEFAULT_ERROR_CODE, DEFAULT_ERROR_MESSAGE);
  }

  lemma NewWorkerIsServed(request: Json, hub: Hub, f: Faults)
    requires IsRequest(request) && GetString(request, KEY_METHOD) == Some(CMD_NEW_WORKER)
    ensures
      var reply := Dispatch(Commands(f), request, hub);
      NewWorkerServed(hub, f, Succeeded(reply.ret, if IsNotification(request) then None else Chosen(request, reply)),
                      reply.state)
  {
    hide Answers, IsError, Commands, Dispatch, ResultResponse, ErrorResponse, IsRequest, IsNotification;
    Dispatched(request, hub, f);
    ResponsesConform(request, Null, DEFAULT_ERROR_CODE, DEFAULT_ERROR_MESSAGE);
  }

  lemma FinishedRunIsServed(request: Json, hub: Hub, f: Faults)
    requires IsRequest(request) && GetString(request, KEY_METHOD) == Some(CMD_FINISHED_RUN)
    ensures
      var reply := Dispatch(Commands(f), request, hub);
      FinishedRunServed(request, hub, f,
                        Succeeded(reply.ret, if IsNotification(request) then None else Chosen(request, reply)),
                        reply.state)
  {
    hide Answers, IsError, Commands, Dispatch, ParseFinishedRun, ResultResponse, ErrorResponse, IsRequest,
      IsNotification;
    Dispatched(request, hub, f);
    NamesDiffer();
    ResponsesConform(request, Null, DEFAULT_ERROR_CODE, DEFAULT_ERROR_MESSAGE);
  }

  lemma OthersAreRefused(request: Json, hub: Hub, f: Faults)
    requires IsRequest(request)
    requires GetString(request, KEY_METHOD).value !in {"new-worker", "queue-run", "finished-run", "get-runs"}
    ensures
      var reply := Dispatch(Commands(f), request, hub);
      !Succeeded(reply.ret, if IsNotification(request) then None else Chosen(request, reply)) && reply.state == hub
  {
    assert CheckMethod(request);
    hide Answers, IsError, Commands, Dispatch, ResultResponse, ErrorResponse, IsRequest, IsNotification;
    Dispatched(request, hub, f);
    ResponsesConform(request, Null, DEFAULT_ERROR_CODE, DEFAULT_ERROR_MESSAGE);
  }

  /** Whichever command it is. */
  lemma OneIsServed(request: Json, hub: Hub, f: Faults)
    requires IsRequest(request)
    ensures
      var reply := Dispatch(Commands(f), request, hub);
      var sent := if IsNotification(request) then None else Chosen(request, reply);
      var name := GetString(request, KEY_METHOD);
      && (name == Some(CMD_QUEUE_RUN) ==> QueueRunServed(request, hub, f, sent, reply.state))
      && (name == Some(CMD_GET_RUNS) ==> GetRunsServed(hub, f, sent, reply.state))
      && (name == Some(CMD_NEW_WORKER) ==> NewWorkerServed(hub, f, Succeeded(reply.ret, sent), reply.state))
      && (name == Some(CMD_FINISHED_RUN) ==>
            FinishedRunServed(request, hub, f, Succeeded(reply.ret, sent), reply.state))
      && (name.value !in {"new-worker", "queue-run", "finished-run", "get-runs"} ==>
            !Succeeded(reply.ret, sent) && reply.state == hub)
  {
    assert CheckMethod(request);
    hide Dispatch, Chosen, Commands, IsRequest, QueueRunServed, GetRunsServed, NewWorkerServed, FinishedRunServed,
      Succeeded;
    NamesDiffer();
    var name := GetString(request, KEY_METHOD);
    if name == Some(CMD_QUEUE_RUN) {
      QueueRunIsServed(request, hub, f);
    } else if name == Some(CMD_GET_RUNS) {
      GetRunsIsServed(request, hub, f);
    } else if name == Some(CMD_NEW_WORKER) {
      NewWorkerIsServed(request, hub, f);
    } else if name == Some(CMD_FINISHED_RUN) {
      FinishedRunIsServed(request, hub, f);
    } else {
      OthersAreRefused(request, hub, f);
    }
  }
}
