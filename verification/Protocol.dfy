/** The messages of the protocol: creating them and parsing them. */
module Protocol {
  import opened Bytes
  import opened Results
  import opened Json
  import opened JsonRpc
  import opened Base64

  const CMD_QUEUE_RUN := "queue-run"
  const CMD_NEW_WORKER := "new-worker"
  const CMD_START_RUN := "start-run"
  const CMD_FINISHED_RUN := "finished-run"
  const CMD_GET_RUNS := "get-runs"

  const RUN_KEY_ID := "id"
  const RUN_KEY_URL := "url"
  const RUN_KEY_REV := "rev"
  const FINISHED_KEY_RUN_ID := "run_id"
  const FINISHED_KEY_EC := "exit_code"
  const FINISHED_KEY_DATA := "output"

  const STATUS_CREATED := 1
  const STATUS_FINISHED := 2

  /** A C `int`. */
  type int32 = n: int | -0x8000_0000 <= n < 0x8000_0000

  const INT_MAX: int32 := 0x7fff_ffff

  /** The conversion of an `int64_t` to `int`: the low 32 bits. */
  function ToInt32(n: int): int32 {
    (n + 0x8000_0000) % 0x1_0000_0000 - 0x8000_0000
  }

  datatype Run = Run(id: int32, url: string, rev: string, status: int32, exitCode: int32)

  /** A run a client asks for: it has no id yet. */
  function RunQueued(url: string, rev: string): Run {
    Run(-1, url, rev, STATUS_CREATED, -1)
  }

  function RunCreated(id: int32, url: string, rev: string): Run {
    Run(id, url, rev, STATUS_CREATED, -1)
  }

  datatype ProcessOutput = ProcessOutput(ec: int32, data: seq<byte>)

  // ---- queue-run ----

  function QueueRunSettings(run: Run): seq<Setting> {
    [Setting(RUN_KEY_URL, Str(run.url)), Setting(RUN_KEY_REV, Str(run.rev))]
  }

  function QueueRunRequest(id: int32, run: Run): Json {
    Object(WithParams(NewRequest(Some(id), CMD_QUEUE_RUN, None), QueueRunSettings(run)))
  }

  method CreateQueueRun(id: int32, run: Run) returns (request: Request)
    ensures fresh(request) && request.Value() == QueueRunRequest(id, run)
  {
    var ret, r := Request.Create(Some(id), CMD_QUEUE_RUN, None);
    request := r;
    request.SetParamString(RUN_KEY_URL, run.url);
    request.SetParamString(RUN_KEY_REV, run.rev);
    TwoSettings(NewRequest(Some(id), CMD_QUEUE_RUN, None), QueueRunSettings(run));
  }

  function ParseQueueRun(request: Json): Option<Run> {
    match (GetParamString(request, RUN_KEY_URL), GetParamString(request, RUN_KEY_REV))
    case (Some(url), Some(rev)) => Some(RunQueued(url, rev))
    case _ => None
  }

  // ---- start-run ----

  function StartRunSettings(run: Run): seq<Setting> {
    [Setting(RUN_KEY_ID, Int(run.id)), Setting(RUN_KEY_URL, Str(run.url)), Setting(RUN_KEY_REV, Str(run.rev))]
  }

  function StartRunRequest(run: Run): Json {
    Object(WithParams(NewRequest(None, CMD_START_RUN, None), StartRunSettings(run)))
  }

  method CreateStartRun(run: Run) returns (request: Request)
    ensures fresh(request) && request.Value() == StartRunRequest(run)
  {
    var ret, r := Request.Create(None, CMD_START_RUN, None);
    request := r;
    request.SetParamInt(RUN_KEY_ID, run.id);
    request.SetParamString(RUN_KEY_URL, run.url);
    request.SetParamString(RUN_KEY_REV, run.rev);
    ThreeSettings(NewRequest(None, CMD_START_RUN, None), StartRunSettings(run));
  }

  function ParseStartRun(request: Json): Option<Run> {
    match (GetParamInt(request, RUN_KEY_ID), GetParamString(request, RUN_KEY_URL), GetParamString(request, RUN_KEY_REV))
    case (Some(id), Some(url), Some(rev)) => Some(RunCreated(ToInt32(id), url, rev))
    case _ => None
  }

  // ---- finished-run ----

  function FinishedRunSettings(runId: int32, output: ProcessOutput): seq<Setting> {
    [Setting(FINISHED_KEY_RUN_ID, Int(runId)), Setting(FINISHED_KEY_EC, Int(output.ec)),
     Setting(FINISHED_KEY_DATA, Str(Encode(output.data)))]
  }

  function FinishedRunRequest(runId: int32, output: ProcessOutput): Json {
    Object(WithParams(NewRequest(None, CMD_FINISHED_RUN, None), FinishedRunSettings(runId, output)))
  }

  method CreateFinishedRun(runId: int32, output: ProcessOutput) returns (request: Request)
    ensures fresh(request) && request.Value() == FinishedRunRequest(runId, output)
  {
    var ret, r := Request.Create(None, CMD_FINISHED_RUN, None);
    request := r;
    request.SetParamInt(FINISHED_KEY_RUN_ID, runId);
    request.SetParamInt(FINISHED_KEY_EC, output.ec);
    var b64data := Base64Encode(output.data);
    request.SetParamString(FINISHED_KEY_DATA, b64data[..b64data.Length - 1]);
    ThreeSettings(NewRequest(None, CMD_FINISHED_RUN, None), FinishedRunSettings(runId, output));
  }

  function ParseFinishedRun(request: Json): Option<(int32, ProcessOutput)> {
    match (GetParamInt(request, FINISHED_KEY_RUN_ID), GetParamInt(request, FINISHED_KEY_EC),
           GetParamString(request, FINISHED_KEY_DATA))
    case (Some(runId), Some(ec), Some(b64data)) =>
      (match Decode(b64data)
       case Some(data) => Some((ToInt32(runId), ProcessOutput(ToInt32(ec), data)))
       case None => None)
    case _ => None
  }

  /** Fills the outputs in the order of the parameters. */
  method ReadFinishedRun(request: Json) returns (ret: int, runId: int32, output: ProcessOutput)
    ensures ret == 0 || ret == -1
    ensures ret == 0 <==> ParseFinishedRun(request).Some?
    ensures ret == 0 ==> ParseFinishedRun(request) == Some((runId, output))
  {
    hide Decode, Encode;
    runId, output := 0, ProcessOutput(0, []);
    var id := GetParamInt(request, FINISHED_KEY_RUN_ID);
    if id.None? {
      return -1, runId, output;
    }
    var ec := GetParamInt(request, FINISHED_KEY_EC);
    if ec.None? {
      return -1, runId, output;
    }
    output := output.(ec := ToInt32(ec.value));
    var b64data := GetParamString(request, FINISHED_KEY_DATA);
    if b64data.None? {
      return -1, runId, output;
    }
    var data: array<byte>, len: nat;
    ret, data, len := Base64Decode(b64data.value);
    if ret < 0 {
      return -1, runId, output;
    }
    output := output.(data := data[..len]);
    DecodeEncode(data[..len]);
    runId := ToInt32(id.value);
  }

  // ---- round trips ----

  lemma TwoSettings(fields: map<string, Json>, settings: seq<Setting>)
    requires |settings| == 2
    ensures WithParams(fields, settings) ==
      WithParam(WithParam(fields, settings[0].name, settings[0].value), settings[1].name, settings[1].value)
  {
    var one := settings[..1];
    assert one[..0] == [];
    assert WithParams(fields, one) == WithParam(fields, one[0].name, one[0].value);
  }

  lemma ThreeSettings(fields: map<string, Json>, settings: seq<Setting>)
    requires |settings| == 3
    ensures WithParams(fields, settings) ==
      WithParam(WithParam(WithParam(fields, settings[0].name, settings[0].value),
                          settings[1].name, settings[1].value),
                settings[2].name, settings[2].value)
  {
    TwoSettings(fields, settings[..2]);
  }

  /** With different names, each parameter keeps the one value it was given. */
  lemma {:induction false} LastSetOf(settings: seq<Setting>, k: nat)
    requires k < |settings|
    requires forall i, j :: 0 <= i < j < |settings| ==> settings[i].name != settings[j].name
    ensures LastSet(settings, settings[k].name) == Some(settings[k].value)
    decreases |settings|
  {
    if k < |settings| - 1 {
      LastSetOf(settings[..|settings| - 1], k);
    }
  }

  lemma SmallIntsSurvive(n: int32)
    ensures ToInt32(n) == n && INT64_MIN <= n <= INT64_MAX
  {
  }

  lemma QueueRunRoundTrip(id: int32, run: Run)
    ensures
      var request := QueueRunRequest(id, run);
      && IsRequest(request) && !IsNotification(request)
      && GetString(request, KEY_METHOD) == Some(CMD_QUEUE_RUN)
      && ParseQueueRun(request) == Some(Run(-1, run.url, run.rev, STATUS_CREATED, -1))
  {
    hide WithParams, LastSet, NewRequest, IsRequest, GetParamString, GetParamInt;
    var settings := QueueRunSettings(run);
    LastSetOf(settings, 0);
    LastSetOf(settings, 1);
    BuiltRequestsConform(Some(id), CMD_QUEUE_RUN, None, settings, RUN_KEY_URL);
    BuiltRequestsConform(Some(id), CMD_QUEUE_RUN, None, settings, RUN_KEY_REV);
  }

  lemma StartRunRoundTrip(run: Run)
    ensures
      var request := StartRunRequest(run);
      && IsRequest(request) && IsNotification(request)
      && GetString(request, KEY_METHOD) == Some(CMD_START_RUN)
      && ParseStartRun(request) == Some(Run(run.id, run.url, run.rev, STATUS_CREATED, -1))
  {
    hide WithParams, LastSet, NewRequest, IsRequest, GetParamString, GetParamInt;
    var settings := StartRunSettings(run);
    LastSetOf(settings, 0);
    LastSetOf(settings, 1);
    LastSetOf(settings, 2);
    SmallIntsSurvive(run.id);
    BuiltRequestsConform(None, CMD_START_RUN, None, settings, RUN_KEY_ID);
    BuiltRequestsConform(None, CMD_START_RUN, None, settings, RUN_KEY_URL);
    BuiltRequestsConform(None, CMD_START_RUN, None, settings, RUN_KEY_REV);
  }

  /** Any run id, any exit code, any bytes. */
  lemma FinishedRunRoundTrip(runId: int32, output: ProcessOutput)
    ensures
      var request := FinishedRunRequest(runId, output);
      && IsRequest(request) && IsNotification(request)
      && GetString(request, KEY_METHOD) == Some(CMD_FINISHED_RUN)
      && ParseFinishedRun(request) == Some((runId, output))
  {
    hide WithParams, LastSet, NewRequest, IsRequest, GetParamString, GetParamInt, Encode, Decode;
    var settings := FinishedRunSettings(runId, output);
    LastSetOf(settings, 0);
    LastSetOf(settings, 1);
    LastSetOf(settings, 2);
    SmallIntsSurvive(runId);
    SmallIntsSurvive(output.ec);
    DecodeEncode(output.data);
    BuiltRequestsConform(None, CMD_FINISHED_RUN, None, settings, FINISHED_KEY_RUN_ID);
    BuiltRequestsConform(None, CMD_FINISHED_RUN, None, settings, FINISHED_KEY_EC);
    BuiltRequestsConform(None, CMD_FINISHED_RUN, None, settings, FINISHED_KEY_DATA);
  }

  // ---- the messages as others see them ----

  /** The low 32 bits of `n`, read as an `int`. */
  ghost predicate ReadsAs(n: int, r: int32) {
    (n - r) % 0x1_0000_0000 == 0
  }

  /** Which parameters make a queue-run, whoever built it. */
  lemma QueueRunParsesIff(request: Json)
    ensures ParseQueueRun(request).Some? <==>
      exists url, rev :: QueueRunParams(request, url, rev)
    ensures forall url, rev :: QueueRunParams(request, url, rev) ==>
      ParseQueueRun(request) == Some(Run(-1, url, rev, 1, -1))
  {
    if ParseQueueRun(request).Some? {
      var run := ParseQueueRun(request).value;
      assert QueueRunParams(request, run.url, run.rev);
    }
  }

  predicate Param(request: Json, name: string, value: Json) {
    && Has(request, "params") && request.fields["params"].Object?
    && name in request.fields["params"].fields && request.fields["params"].fields[name] == value
  }

  predicate QueueRunParams(request: Json, url: string, rev: string) {
    Param(request, "url", Str(url)) && Param(request, "rev", Str(rev))
  }

  predicate StartRunParams(request: Json, id: int, url: string, rev: string) {
    && INT64_MIN <= id <= INT64_MAX
    && Param(request, "id", Int(id)) && Param(request, "url", Str(url)) && Param(request, "rev", Str(rev))
  }

  lemma StartRunParsesIff(request: Json)
    ensures ParseStartRun(request).Some? <==> exists id, url, rev :: StartRunParams(request, id, url, rev)
    ensures forall id, url, rev :: StartRunParams(request, id, url, rev) ==>
      exists r: int32 :: ReadsAs(id, r) && ParseStartRun(request) == Some(Run(r, url, rev, 1, -1))
  {
    if ParseStartRun(request).Some? {
      var run, id := ParseStartRun(request).value, GetParamInt(request, RUN_KEY_ID).value;
      assert StartRunParams(request, id, run.url, run.rev);
    }
    forall id, url, rev | StartRunParams(request, id, url, rev)
      ensures exists r: int32 :: ReadsAs(id, r) && ParseStartRun(request) == Some(Run(r, url, rev, 1, -1))
    {
      assert ReadsAs(id, ToInt32(id));
    }
  }

  ghost predicate FinishedRunParams(request: Json, id: int, ec: int, data: seq<byte>) {
    && INT64_MIN <= id <= INT64_MAX && INT64_MIN <= ec <= INT64_MAX
    && Param(request, "run_id", Int(id)) && Param(request, "exit_code", Int(ec))
    && Param(request, "output", Str(Encode(data)))
  }

  lemma FinishedRunParsesIff(request: Json)
    ensures ParseFinishedRun(request).Some? <==> exists id, ec, data :: FinishedRunParams(request, id, ec, data)
    ensures forall id, ec, data :: FinishedRunParams(request, id, ec, data) ==>
      exists r: int32, c: int32 ::
        ReadsAs(id, r) && ReadsAs(ec, c) && ParseFinishedRun(request) == Some((r, ProcessOutput(c, data)))
  {
    hide Encode, Decode;
    if ParseFinishedRun(request).Some? {
      var id, ec := GetParamInt(request, FINISHED_KEY_RUN_ID).value, GetParamInt(request, FINISHED_KEY_EC).value;
      var data := ParseFinishedRun(request).value.1.data;
      EncodeDecode(GetParamString(request, FINISHED_KEY_DATA).value);
      assert FinishedRunParams(request, id, ec, data);
    }
    forall id, ec, data | FinishedRunParams(request, id, ec, data)
      ensures exists r: int32, c: int32 ::
        ReadsAs(id, r) && ReadsAs(ec, c) && ParseFinishedRun(request) == Some((r, ProcessOutput(c, data)))
    {
      DecodeEncode(data);
      assert ReadsAs(id, ToInt32(id)) && ReadsAs(ec, ToInt32(ec));
    }
  }

  /** The members of each message, by name. */
  lemma QueueRunOnTheWire(id: int32, run: Run)
    ensures QueueRunRequest(id, run) ==
      Object(map["jsonrpc" := Str("2.0"), "id" := Int(id), "method" := Str("queue-run"),
                 "params" := Object(map["url" := Str(run.url), "rev" := Str(run.rev)])])
  {
    hide WithParams;
    TwoSettings(NewRequest(Some(id), CMD_QUEUE_RUN, None), QueueRunSettings(run));
    KeysDiffer();
  }

  lemma StartRunOnTheWire(run: Run)
    ensures StartRunRequest(run) ==
      Object(map["jsonrpc" := Str("2.0"), "method" := Str("start-run"),
                 "params" := Object(map["id" := Int(run.id), "url" := Str(run.url), "rev" := Str(run.rev)])])
  {
    hide WithParams;
    ThreeSettings(NewRequest(None, CMD_START_RUN, None), StartRunSettings(run));
    KeysDiffer();
  }

  lemma FinishedRunOnTheWire(id: int32, output: ProcessOutput)
    ensures FinishedRunRequest(id, output) ==
      Object(map["jsonrpc" := Str("2.0"), "method" := Str("finished-run"),
                 "params" := Object(map["run_id" := Int(id), "exit_code" := Int(output.ec),
                                        "output" := Str(Encode(output.data))])])
  {
    hide Encode, WithParams;
    ThreeSettings(NewRequest(None, CMD_FINISHED_RUN, None), FinishedRunSettings(id, output));
    KeysDiffer();
  }
}
