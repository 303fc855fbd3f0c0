/** The command dispatcher: one request per connection, at most one response. */
module Command {
  import opened Results
  import opened Json
  import opened JsonRpc

  /** What a command handler leaves behind: a response it made, if any, and a return code. */
  datatype Reply<S> = Reply(state: S, response: Option<Json>, ret: int)

  /** `struct cmd_desc`. */
  datatype Cmd<!S> = Cmd(name: string, handler: (Json, S) -> Reply<S>)

  const DEFAULT_ERROR_CODE := -1
  const DEFAULT_ERROR_MESSAGE := "An error occured"

  /** The position of the first command with this name, or the length of the table. */
  ghost function FirstNamed<S>(cmds: seq<Cmd<S>>, name: string): (k: nat)
    ensures k <= |cmds| && forall i :: 0 <= i < k ==> cmds[i].name != name
    ensures k < |cmds| ==> cmds[k].name == name
  {
    if cmds == [] || cmds[0].name == name then 0 else 1 + FirstNamed(cmds[1..], name)
  }

  /** What handling a request means: the first matching handler, or failure. */
  ghost function Dispatch<S>(cmds: seq<Cmd<S>>, request: Json, s: S): Reply<S>
    requires CheckMethod(request)
  {
    var name := GetString(request, KEY_METHOD).value;
    var k := FirstNamed(cmds, name);
    if k < |cmds| then cmds[k].handler(request, s) else Reply(s, None, -1)
  }

  method HandleInternal<S>(cmds: seq<Cmd<S>>, request: Json, s: S) returns (reply: Reply<S>)
    requires CheckMethod(request)
    ensures reply == Dispatch(cmds, request, s)
  {
    var actualCmd := GetString(request, KEY_METHOD).value;
    var i := 0;
    while i < |cmds|
      invariant i <= |cmds| && forall j :: 0 <= j < i ==> cmds[j].name != actualCmd
    {
      if cmds[i].name == actualCmd {
        return cmds[i].handler(request, s);
      }
      i := i + 1;
    }
    reply := Reply(s, None, -1);
  }

  /** The response that goes out. */
  function Chosen<S>(request: Json, reply: Reply<S>): (r: Option<Json>) {
    var default_ := if reply.ret < 0 then ErrorResponse(request, DEFAULT_ERROR_CODE, DEFAULT_ERROR_MESSAGE)
                    else ResultResponse(request, Null);
    match reply.response
    case Some(own) => if reply.ret < 0 && !IsError(own) then default_ else Some(own)
    case None => default_
  }

  /**
   One connection.  `received` is the request, or nothing if none could be read; `sent` is the
   response handed to the socket; `sendOk` says whether the socket took it.
   */
  method HandleConn<S>(cmds: seq<Cmd<S>>, received: Option<Json>, s: S, sendOk: bool)
    returns (ret: int, sent: Option<Json>, s': S)
    ensures received.None? || !IsRequest(received.value) ==> ret < 0 && sent.None? && s' == s
    ensures received.Some? && IsRequest(received.value) ==>
      var request := received.value;
      var reply := Dispatch(cmds, request, s);
      && s' == reply.state
      && (IsNotification(request) ==> sent.None? && ret == reply.ret)
      && (!IsNotification(request) ==>
            && sent == Chosen(request, reply)
            && ret == if sendOk then reply.ret else -1)
  {
    ret, sent, s' := -1, None, s;
    if received.None? || !IsRequest(received.value) {
      return;
    }
    var request := received.value;
    var requiresResponse := !IsNotification(request);

    var defaultResponse: Response?, defaultError: Response? := null, null;
    if requiresResponse {
      ret, defaultResponse := Response.CreateInternal(request, Null, None);
      if ret < 0 {
        return;
      }
      ret, defaultError := Response.CreateError(request, DEFAULT_ERROR_CODE, DEFAULT_ERROR_MESSAGE);
      if ret < 0 {
        return;
      }
    }

    var reply := HandleInternal(cmds, request, s);
    ret, s' := reply.ret, reply.state;

    if requiresResponse {
      var actualResponse: Json;
      if reply.response.Some? {
        actualResponse := reply.response.value;
      } else {
        actualResponse := Object(if ret < 0 then defaultError.impl else defaultResponse.impl);
      }
      if ret < 0 && !IsError(actualResponse) {
        actualResponse := Object(defaultError.impl);
      }
      sent := Some(actualResponse);
      ret := if sendOk then ret else -1;
    }
  }

  /**
   Whatever the handlers, as long as they answer the request they were given: whatever goes out
   is accepted at the other end, carries the request's id, and is an error if the handler
   failed.  A handler's own response goes out unless the handler failed and it is no error; without
   one, it is null as a result, or the default error.
   */
  lemma ResponsesAnswer<S>(cmds: seq<Cmd<S>>, request: Json, s: S)
    requires IsRequest(request)
    requires
      var reply := Dispatch(cmds, request, s);
      reply.response.Some? ==> Answers(reply.response.value, request)
    ensures
      var reply := Dispatch(cmds, request, s);
      var out := Chosen(request, reply);
      !IsNotification(request) ==>
        && out.Some? && Answers(out.value, request)
        && (reply.ret < 0 ==> IsError(out.value))
        && (reply.response.Some? && (reply.ret >= 0 || IsError(reply.response.value)) ==> out == reply.response)
        && (reply.ret >= 0 && reply.response.None? ==> !IsError(out.value) && Get(out.value, KEY_RESULT) == Some(Null))
        && (reply.ret < 0 && (reply.response.None? || !IsError(reply.response.value)) ==>
              Get(out.value, KEY_ERROR) ==
                Some(Object(map[KEY_CODE := Int(-1), KEY_MESSAGE := Str("An error occured")])))
        && (!IsError(out.value) ==> reply.ret >= 0)
  {
    hide Answers, IsError, ResultResponse, ErrorResponse, IsRequest, IsNotification;
    ResponsesConform(request, Null, DEFAULT_ERROR_CODE, DEFAULT_ERROR_MESSAGE);
  }
}
