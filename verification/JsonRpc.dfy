/** JSON-RPC 2.0 requests and responses. */
module JsonRpc {
  import opened Results
  import opened Json

  const KEY_VERSION := "jsonrpc"
  const KEY_ID := "id"
  const KEY_METHOD := "method"
  const KEY_PARAMS := "params"
  const KEY_RESULT := "result"
  const KEY_ERROR := "error"
  const KEY_CODE := "code"
  const KEY_MESSAGE := "message"
  const VERSION := "2.0"

  // ---- the validators ----

  predicate CheckVersion(obj: Json) {
    GetString(obj, KEY_VERSION) == Some(VERSION)
  }

  predicate CheckId(obj: Json, required: bool) {
    if !Has(obj, KEY_ID) then !required
    else obj.fields[KEY_ID].Str? || obj.fields[KEY_ID].Int?
  }

  predicate CheckMethod(obj: Json) {
    GetString(obj, KEY_METHOD).Some?
  }

  predicate CheckParamsType(params: Json) {
    params.Object? || params.Array?
  }

  predicate CheckParams(obj: Json) {
    Has(obj, KEY_PARAMS) ==> CheckParamsType(obj.fields[KEY_PARAMS])
  }

  predicate CheckError(obj: Json) {
    && Has(obj, KEY_ERROR)
    && GetInt(obj.fields[KEY_ERROR], KEY_CODE).Some?
    && GetString(obj.fields[KEY_ERROR], KEY_MESSAGE).Some?
  }

  predicate CheckResultOrError(obj: Json) {
    Has(obj, KEY_RESULT) || CheckError(obj)
  }

  /** `jsonrpc_request_from_json` accepts. */
  predicate IsRequest(obj: Json) {
    CheckVersion(obj) && CheckId(obj, false) && CheckMethod(obj) && CheckParams(obj)
  }

  /** `jsonrpc_response_from_json` accepts. */
  predicate IsResponse(obj: Json) {
    CheckVersion(obj) && CheckId(obj, true) && CheckResultOrError(obj)
  }

  predicate IsNotification(request: Json) {
    !Has(request, KEY_ID)
  }

  predicate IsError(response: Json) {
    Has(response, KEY_ERROR)
  }

  // ---- requests ----

  function OptionalField(fields: map<string, Json>, key: string, value: Option<Json>): map<string, Json> {
    if value.Some? then fields[key := value.value] else fields
  }

  /** A request object as the specification lists its members (sections 4 and 4.1). */
  function NewRequest(id: Option<int>, method_: string, params: Option<Json>): map<string, Json> {
    var base := map[KEY_VERSION := Str(VERSION), KEY_METHOD := Str(method_)];
    var withId := OptionalField(base, KEY_ID, if id.Some? then Some(Int(id.value)) else None);
    OptionalField(withId, KEY_PARAMS, params)
  }

  function ParamsOf(fields: map<string, Json>): map<string, Json> {
    if KEY_PARAMS in fields && fields[KEY_PARAMS].Object? then fields[KEY_PARAMS].fields else map[]
  }

  function GetParamString(request: Json, name: string): Option<string> {
    match Get(request, KEY_PARAMS)
    case Some(params) => GetString(params, name)
    case None => None
  }

  function GetParamInt(request: Json, name: string): Option<int> {
    match Get(request, KEY_PARAMS)
    case Some(params) => GetInt(params, name)
    case None => None
  }

  /** A request under construction: its members are added in place. */
  class Request {
    var impl: map<string, Json>

    constructor Empty()
      ensures impl == map[]
    {
      impl := map[];
    }

    function Value(): Json
      reads this
    {
      Object(impl)
    }

    /** `jsonrpc_request_create` and, without an id, `jsonrpc_notification_create`. */
    static method Create(id: Option<int>, method_: string, params: Option<Json>) returns (ret: int, request: Request?)
      ensures ret == 0 <==> params.None? || CheckParamsType(params.value)
      ensures ret == 0 ==> request != null && fresh(request) && request.impl == NewRequest(id, method_, params)
      ensures ret != 0 ==> ret < 0 && request == null
    {
      var r := new Request.Empty();
      r.impl := r.impl[KEY_VERSION := Str(VERSION)];
      if id.Some? {
        r.impl := r.impl[KEY_ID := Int(id.value)];
      }
      r.impl := r.impl[KEY_METHOD := Str(method_)];
      if params.Some? {
        if !CheckParamsType(params.value) {
          return -1, null;
        }
        r.impl := r.impl[KEY_PARAMS := params.value];
      }
      return 0, r;
    }

    /** json-c adds keys to objects only, so `params` must not be an array. */
    method SetParam(name: string, value: Json)
      requires KEY_PARAMS in impl ==> impl[KEY_PARAMS].Object?
      modifies this
      ensures KEY_PARAMS in impl && impl[KEY_PARAMS] == Object(ParamsOf(old(impl))[name := value])
      ensures impl == old(impl)[KEY_PARAMS := impl[KEY_PARAMS]]
    {
      if KEY_PARAMS !in impl {
        impl := impl[KEY_PARAMS := Object(map[])];
      }
      var params := impl[KEY_PARAMS].fields;
      params := params[name := value];
      impl := impl[KEY_PARAMS := Object(params)];
    }

    method SetParamString(name: string, value: string)
      requires KEY_PARAMS in impl ==> impl[KEY_PARAMS].Object?
      modifies this
      ensures impl == WithParam(old(impl), name, Str(value))
    {
      SetParam(name, Str(value));
    }

    method SetParamInt(name: string, value: int)
      requires INT64_MIN <= value <= INT64_MAX
      requires KEY_PARAMS in impl ==> impl[KEY_PARAMS].Object?
      modifies this
      ensures impl == WithParam(old(impl), name, Int(value))
    {
      SetParam(name, Int(value));
    }
  }

  function WithParam(fields: map<string, Json>, name: string, value: Json): map<string, Json> {
    fields[KEY_PARAMS := Object(ParamsOf(fields)[name := value])]
  }

  /** One call of a parameter setter. */
  datatype Setting = Setting(name: string, value: Json)

  predicate Settable(v: Json) {
    v.Str? || (v.Int? && INT64_MIN <= v.n <= INT64_MAX)
  }

  function WithParams(fields: map<string, Json>, settings: seq<Setting>): map<string, Json> {
    if settings == [] then fields
    else
      var last := settings[|settings| - 1];
      WithParam(WithParams(fields, settings[..|settings| - 1]), last.name, last.value)
  }

  /** The value given last to a parameter, if any call named it. */
  function LastSet(settings: seq<Setting>, name: string): Option<Json> {
    if settings == [] then None
    else if settings[|settings| - 1].name == name then Some(settings[|settings| - 1].value)
    else LastSet(settings[..|settings| - 1], name)
  }

  /** Whatever is set on a request, it keeps its other members, and each parameter its last value. */
  lemma {:induction false} SettersOnlyTouchParams(fields: map<string, Json>, settings: seq<Setting>)
    requires KEY_PARAMS in fields ==> fields[KEY_PARAMS].Object?
    ensures
      var now := WithParams(fields, settings);
      && (KEY_PARAMS in now ==> now[KEY_PARAMS].Object?)
      && (settings != [] ==> KEY_PARAMS in now)
      && (forall k :: k != KEY_PARAMS ==> (k in now <==> k in fields) && (k in now ==> now[k] == fields[k]))
      && (forall name :: LastSet(settings, name).Some? ==>
            name in ParamsOf(now) && ParamsOf(now)[name] == LastSet(settings, name).value)
      && (forall name :: LastSet(settings, name).None? ==>
            (name in ParamsOf(now) <==> name in ParamsOf(fields))
            && (name in ParamsOf(now) ==> ParamsOf(now)[name] == ParamsOf(fields)[name]))
  {
    if settings != [] {
      SettersOnlyTouchParams(fields, settings[..|settings| - 1]);
    }
  }

  /**
   Section 4: whatever is built by creating a request or notification and then setting
   parameters is accepted by the receiving side, which reads back what was last set.
   */
  lemma BuiltRequestsConform(id: Option<int>, method_: string, params: Option<Json>, settings: seq<Setting>,
                             name: string)
    requires params.Some? ==> CheckParamsType(params.value)
    requires params.Some? && settings != [] ==> params.value.Object?
    ensures
      var base, request := Object(NewRequest(id, method_, params)),
        Object(WithParams(NewRequest(id, method_, params), settings));
      && IsRequest(request)
      && GetString(request, KEY_METHOD) == Some(method_)
      && (IsNotification(request) <==> id.None?)
      && (id.Some? ==> Get(request, KEY_ID) == Some(Int(id.value)))
      && (LastSet(settings, name).Some? ==>
            var v := LastSet(settings, name).value;
            && (v.Str? ==> GetParamString(request, name) == Some(v.s))
            && (v.Int? && Settable(v) ==> GetParamInt(request, name) == Some(v.n)))
      && (LastSet(settings, name).None? ==>
            && GetParamString(request, name) == GetParamString(base, name)
            && GetParamInt(request, name) == GetParamInt(base, name))
  {
    var base := NewRequest(id, method_, params);
    if settings == [] {
      KeysDiffer();
    } else {
      hide WithParams, LastSet;
      SettersOnlyTouchParams(base, settings);
      var now := WithParams(base, settings);
      assert KEY_VERSION in now && KEY_METHOD in now;
    }
  }

  // ---- responses ----

  /** A response object (section 5): exactly one of result and error. */
  function NewResponse(id: Json, result: Json, error: Option<Json>): map<string, Json> {
    var base := map[KEY_VERSION := Str(VERSION), KEY_ID := id];
    if error.Some? then base[KEY_ERROR := error.value] else base[KEY_RESULT := result]
  }

  /** A response under construction. */
  class Response {
    var impl: map<string, Json>

    constructor Empty()
      ensures impl == map[]
    {
      impl := map[];
    }

    /** `jsonrpc_response_create_internal`: fails exactly when there is no id to echo. */
    static method CreateInternal(request: Json, result: Json, error: Option<Json>)
      returns (ret: int, response: Response?)
      ensures ret == 0 <==> Clone(request, KEY_ID).Some?
      ensures ret == 0 ==> response != null && fresh(response)
                           && response.impl == NewResponse(Clone(request, KEY_ID).value, result, error)
      ensures ret != 0 ==> ret < 0 && response == null
    {
      var r := new Response.Empty();
      r.impl := r.impl[KEY_VERSION := Str(VERSION)];
      var id := Clone(request, KEY_ID);
      if id.None? {
        return -1, null;
      }
      r.impl := r.impl[KEY_ID := id.value];
      if error.Some? {
        r.impl := r.impl[KEY_ERROR := error.value];
      } else {
        r.impl := r.impl[KEY_RESULT := result];
      }
      return 0, r;
    }

    /** `jsonrpc_error_create`. */
    static method CreateError(request: Json, code: int, message: string) returns (ret: int, response: Response?)
      ensures ret == 0 <==> Clone(request, KEY_ID).Some?
      ensures ret == 0 ==> response != null && fresh(response)
                           && Some(Object(response.impl)) == ErrorResponse(request, code, message)
      ensures ret != 0 ==> ret < 0 && response == null
    {
      var error: map<string, Json> := map[];
      error := error[KEY_CODE := Int(code)];
      error := error[KEY_MESSAGE := Str(message)];
      ret, response := CreateInternal(request, Null, Some(Object(error)));
    }
  }

  /** The values these constructors make. */
  function ResultResponse(request: Json, result: Json): Option<Json> {
    match Clone(request, KEY_ID)
    case Some(id) => Some(Object(NewResponse(id, result, None)))
    case None => None
  }

  function ErrorResponse(request: Json, code: int, message: string): Option<Json> {
    match Clone(request, KEY_ID)
    case Some(id) =>
      Some(Object(NewResponse(id, Null, Some(Object(map[KEY_CODE := Int(code), KEY_MESSAGE := Str(message)])))))
    case None => None
  }

  /** `response` answers `request` (section 5): acceptable, with the request's own id. */
  predicate Answers(response: Json, request: Json) {
    IsResponse(response) && Get(response, KEY_ID) == Get(request, KEY_ID)
  }

  /** Every accepted request that is not a notification can be answered, either way. */
  lemma ResponsesConform(request: Json, result: Json, code: int, message: string)
    requires IsRequest(request) && INT64_MIN <= code <= INT64_MAX
    ensures IsNotification(request) <==> ResultResponse(request, result).None?
    ensures IsNotification(request) <==> ErrorResponse(request, code, message).None?
    ensures !IsNotification(request) ==>
      var r, e := ResultResponse(request, result).value, ErrorResponse(request, code, message).value;
      && Answers(r, request) && !IsError(r) && Get(r, KEY_RESULT) == Some(result)
      && Answers(e, request) && IsError(e) && Get(e, KEY_RESULT) == None
      && Get(e, KEY_ERROR) == Some(Object(map[KEY_CODE := Int(code), KEY_MESSAGE := Str(message)]))
  {
    if !IsNotification(request) {
      var id := request.fields[KEY_ID];
      var err := map[KEY_CODE := Int(code), KEY_MESSAGE := Str(message)];
      assert KEY_VERSION in NewResponse(id, result, None) && KEY_VERSION in NewResponse(id, Null, Some(Object(err)));
      assert KEY_CODE != KEY_MESSAGE && err[KEY_CODE] == Int(code);
    }
  }

  /** The members of a response, by name. */
  lemma ResponsesOnTheWire(request: Json, id: Json, result: Json, code: int, message: string)
    requires Get(request, "id") == Some(id) && !id.Null?
    ensures ResultResponse(request, result) ==
      Some(Object(map["jsonrpc" := Str("2.0"), "id" := id, "result" := result]))
    ensures ErrorResponse(request, code, message) ==
      Some(Object(map["jsonrpc" := Str("2.0"), "id" := id,
                      "error" := Object(map["code" := Int(code), "message" := Str(message)])]))
  {
    KeysDiffer();
  }

  // ---- what is refused ----

  function Without(obj: Json, keys: set<string>): Json
    requires obj.Object?
  {
    Object(obj.fields - keys)
  }

  function With(obj: Json, key: string, value: Json): Json
    requires obj.Object?
  {
    Object(obj.fields[key := value])
  }

  /**
   Sections 4 and 4.1, member by member: exactly which values of a member keep a request
   acceptable, and which members it can do without.
   */
  lemma RequestAcceptedIff(obj: Json, v: Json)
    requires IsRequest(obj)
    ensures IsRequest(With(obj, KEY_VERSION, v)) <==> v == Str(VERSION)
    ensures IsRequest(With(obj, KEY_METHOD, v)) <==> v.Str?
    ensures IsRequest(With(obj, KEY_ID, v)) <==> v.Str? || v.Int?
    ensures IsRequest(With(obj, KEY_PARAMS, v)) <==> v.Object? || v.Array?
    ensures !IsRequest(Without(obj, {KEY_VERSION})) && !IsRequest(Without(obj, {KEY_METHOD}))
    ensures IsRequest(Without(obj, {KEY_ID, KEY_PARAMS}))
  {
    KeysDiffer();
  }

  /** Sections 5 and 5.1, likewise for responses. */
  lemma ResponseAcceptedIff(obj: Json, v: Json)
    requires IsResponse(obj)
    ensures IsResponse(With(obj, KEY_VERSION, v)) <==> v == Str(VERSION)
    ensures IsResponse(With(obj, KEY_ID, v)) <==> v.Str? || v.Int?
    ensures IsResponse(With(obj, KEY_RESULT, v))
    ensures IsResponse(With(Without(obj, {KEY_RESULT}), KEY_ERROR, v)) <==>
      GetInt(v, KEY_CODE).Some? && GetString(v, KEY_MESSAGE).Some?
    ensures !IsResponse(Without(obj, {KEY_VERSION})) && !IsResponse(Without(obj, {KEY_ID}))
    ensures !IsResponse(Without(obj, {KEY_RESULT, KEY_ERROR}))
    ensures Has(obj, KEY_RESULT) ==> IsResponse(With(obj, KEY_ERROR, v)) && IsResponse(Without(obj, {KEY_ERROR}))
  {
    KeysDiffer();
  }

  /** Members the specification does not name make no difference. */
  lemma OtherMembersDoNotMatter(obj: Json, key: string, v: Json)
    ensures IsRequest(obj) && key !in {KEY_VERSION, KEY_METHOD, KEY_ID, KEY_PARAMS} ==>
      IsRequest(With(obj, key, v)) && IsRequest(Without(obj, {key}))
    ensures IsResponse(obj) && key !in {KEY_VERSION, KEY_ID, KEY_RESULT, KEY_ERROR} ==>
      IsResponse(With(obj, key, v)) && IsResponse(Without(obj, {key}))
  {
  }

  lemma KeysDiffer()
    ensures KEY_VERSION != KEY_ID && KEY_VERSION != KEY_METHOD && KEY_VERSION != KEY_RESULT && KEY_VERSION != KEY_ERROR
    ensures KEY_ID != KEY_METHOD && KEY_ID != KEY_PARAMS && KEY_ID != KEY_RESULT && KEY_ID != KEY_ERROR
    ensures KEY_METHOD != KEY_PARAMS && KEY_METHOD != KEY_RESULT && KEY_METHOD != KEY_ERROR && KEY_RESULT != KEY_ERROR
    ensures KEY_PARAMS != KEY_VERSION && KEY_PARAMS != KEY_RESULT && KEY_PARAMS != KEY_ERROR
  {
    assert |KEY_VERSION| == 7 && |KEY_ID| == 2 && |KEY_METHOD| == 6 && |KEY_PARAMS| == 6 && |KEY_RESULT| == 6
      && |KEY_ERROR| == 5;
    assert KEY_METHOD[0] == 'm' && KEY_PARAMS[0] == 'p' && KEY_RESULT[0] == 'r';
  }

  /** What is built as a request is no response, and the other way around. */
  lemma KindsDiffer(id: Option<int>, method_: string, settings: seq<Setting>, request: Json, result: Json, code: int,
                    message: string)
    ensures !IsResponse(Object(WithParams(NewRequest(id, method_, None), settings)))
    ensures IsRequest(request) && !IsNotification(request) && INT64_MIN <= code <= INT64_MAX ==>
      && !IsRequest(ResultResponse(request, result).value)
      && !IsRequest(ErrorResponse(request, code, message).value)
  {
    hide WithParams, LastSet;
    KeysDiffer();
    var base := NewRequest(id, method_, None);
    assert KEY_RESULT !in base && KEY_ERROR !in base;
    SettersOnlyTouchParams(base, settings);
    if IsRequest(request) && !IsNotification(request) && INT64_MIN <= code <= INT64_MAX {
      ResponsesConform(request, result, code, message);
    }
  }
}
