/** The runtime's HTTP entry point for cloud functions: the choice between the normal and
    the debug path, function lookup with the default fallback, method gating with the
    trigger-token bypass, develop-token and debug-payload checks, and the mapping from
    the executor's result to the reply and the debug headers. */
module Invoke {
  import opened Wrappers
  import opened JsString
  import opened Js
  import opened Engine
  import Console
  import JsonStrings

  const DEVELOP_TOKEN_HEADER: string := "x-laf-develop-token"
  const TRIGGER_TOKEN_HEADER: string := "x-laf-trigger-token"
  const DEBUG_DATA_HEADER: string := "x-laf-debug-data"
  const FUNC_DATA_HEADER: string := "x-laf-func-data"
  const DEBUG_LOGS_HEADER: string := "x-laf-debug-logs"
  const FUNC_LOGS_HEADER: string := "x-laf-func-logs"
  const TIME_USAGE_HEADER: string := "x-laf-debug-time-usage"

  /** The parts of the request the handler reads: the function name from the path, the
      HTTP method, the headers (lower-case names) and the request id. */
  datatype Request = Request(name: string, httpMethod: string, headers: map<string, string>, requestId: string)

  /** `req.get(h)`: the header's value, if it was sent. */
  function Header(req: Request, h: string): Option<string> {
    if h in req.headers then Some(req.headers[h]) else None
  }

  /** `if (req.get(h))`: the header was sent with a non-empty value. */
  predicate HasHeader(req: Request, h: string) {
    h in req.headers && req.headers[h] != ""
  }

  /** What the executor runs: a cached function, or the function data a debug request carries. */
  datatype Target = Deployed(func: CloudFunction) | Debugging(funcData: Value)

  /** One call of the executor: the target, the context's `__function_name`, the request
      and whether the interceptor runs first. */
  datatype Invocation = Invocation(target: Target, functionName: string, request: Request, useInterceptor: bool)

  /** The executor's result (`data`, `error`, `time_usage`), whether the function itself
      ended the response, and the lines its debug console buffered; or a thrown error. */
  datatype ExecResult =
    | Threw
    | Returned(data: Value, error: Value, timeUsage: int, ended: bool, logs: seq<string>)

  /** The collaborators of the handler: the function cache, token parsing (a falsy value
      for an absent or invalid token), the executor, the two payload decoders (None when
      decoding throws), the gzip+base64 and percent encoders, and what the debug console
      needs for its error line. */
  datatype Env = Env(
    cache: FunctionCache,
    parseToken: Option<string> -> Value,
    execute: Invocation -> ExecResult,
    decodeDebugData: string -> Option<Value>,
    decodeFuncData: string -> Option<Value>,
    gzipBase64: string -> string,
    encodeUri: string -> string,
    logLevel: Option<string>,
    now: string,
    inspect: Value -> string)

  /** The response: nothing written, or `send(body)` with an explicit status or the default one. */
  datatype Reply = NotWritten | Sent(status: Option<nat>, body: Value)

  /** The reply, the response headers the handler set, and the executor call it made, if any. */
  datatype Outcome = Outcome(reply: Reply, headers: map<string, string>, ran: Option<Invocation>)

  function TextReply(status: nat, text: string): Reply {
    Sent(Some(status), Str(text))
  }

  /** `{ error, requestId }`. */
  function ErrorBody(error: string, requestId: string): Value {
    Obj(map["error" := Str(error), "requestId" := Str(requestId)])
  }

  /** The interceptor's refusal: an object tagged `__interceptor__` whose `__res__` is `== false`. */
  predicate IsRejection(data: Value) {
    IsObject(data) && Prop(data, "__type__") == Str("__interceptor__") && LooselyEqualsFalse(Prop(data, "__res__"))
  }

  /** What `send` receives for the returned data: numbers as their decimal text. */
  function SendForm(data: Value): Value {
    if data.Num? then Str(NumberToString(data.n)) else data
  }

  /** From the executor's result to the reply (shared by both paths): an error first,
      then the interceptor's refusal, then the data unless the response has ended. */
  function Respond(data: Value, error: Value, ended: bool, requestId: string): (r: Reply)
    ensures r.Sent? && r.status == Some(500) <==> Truthy(error)
    ensures Truthy(error) ==> r.body == ErrorBody("Internal Server Error", requestId)
    ensures r.Sent? && r.status == Some(403) <==> !Truthy(error) && IsRejection(data)
    ensures r.Sent? && r.status == Some(403) ==> r.body == ErrorBody("Forbidden", requestId)
    ensures r.NotWritten? <==> !Truthy(error) && !IsRejection(data) && ended
    ensures r.Sent? && r.status.None? <==> !Truthy(error) && !IsRejection(data) && !ended
    ensures r.Sent? && r.status.None? ==> r.body == SendForm(data)
  {
    if Truthy(error) then Sent(Some(500), ErrorBody("Internal Server Error", requestId))
    else if IsRejection(data) then Sent(Some(403), ErrorBody("Forbidden", requestId))
    else if !ended then Sent(None, SendForm(data))
    else NotWritten
  }

  /** The cached function for a name, else the default function, else none. */
  function Resolve(cache: FunctionCache, name: string): (r: Option<CloudFunction>)
    ensures name in cache ==> r == Some(cache[name])
    ensures name !in cache && DEFAULT_FUNCTION_NAME in cache ==> r == Some(cache[DEFAULT_FUNCTION_NAME])
    ensures r.None? <==> name !in cache && DEFAULT_FUNCTION_NAME !in cache
  {
    if name in cache then Some(cache[name])
    else if DEFAULT_FUNCTION_NAME in cache then Some(cache[DEFAULT_FUNCTION_NAME])
    else None
  }

  /** `handleInvokeFunction`: the interceptor is used when it is cached; a request with a
      develop token takes the debug path. */
  function HandleInvokeFunction(env: Env, req: Request): (o: Outcome)
    ensures o.ran.Some? ==> (o.ran.value.target.Debugging? <==> HasHeader(req, DEVELOP_TOKEN_HEADER))
    ensures o.ran.Some? ==> (o.ran.value.useInterceptor <==> INTERCEPTOR_FUNCTION_NAME in env.cache)
    ensures !HasHeader(req, DEVELOP_TOKEN_HEADER) ==> o.headers == map[]
    ensures !HasHeader(req, DEVELOP_TOKEN_HEADER) ==>
      (o.reply == TextReply(404, "Function Not Found") <==> Resolve(env.cache, req.name).None?)
    ensures o.ran.Some? && o.ran.value.target.Deployed? ==>
      Resolve(env.cache, req.name) == Some(o.ran.value.target.func)
  {
    var useInterceptor := INTERCEPTOR_FUNCTION_NAME in env.cache;
    if HasHeader(req, DEVELOP_TOKEN_HEADER) then InvokeDebug(env, req, useInterceptor)
    else InvokeFunction(env, req, useInterceptor)
  }

  /** `invokeFunction`: the normal path. */
  function InvokeFunction(env: Env, req: Request, useInterceptor: bool): (o: Outcome)
    ensures o.ran.Some? ==>
      && o.ran.value.target.Deployed? && o.ran.value.functionName == req.name
      && o.ran.value.useInterceptor == useInterceptor
    ensures o.headers == map[]
  {
    var isTrigger := Truthy(env.parseToken(Header(req, TRIGGER_TOKEN_HEADER)));
    match Resolve(env.cache, req.name)
    case None => Outcome(TextReply(404, "Function Not Found"), map[], None)
    case Some(func) =>
      if ToUpperAscii(req.httpMethod) !in func.methods && !isTrigger then
        Outcome(TextReply(405, "Method Not Allowed"), map[], None)
      else
        var call := Invocation(Deployed(func), req.name, req, useInterceptor);
        match env.execute(call)
        case Threw => Outcome(TextReply(500, "Internal Server Error"), map[], Some(call))
        case Returned(data, error, _, ended, _) => Outcome(Respond(data, error, ended, req.requestId), map[], Some(call))
  }

  /** `auth?.type === 'develop'` for the parsed develop token (`|| null` for a falsy one). */
  predicate IsDevelopAuth(auth: Value) {
    Truthy(auth) && Prop(auth, "type") == Str("develop")
  }

  /** The function data of a debug request: `x-laf-debug-data` when sent, else
      `x-laf-func-data`; Err holds the 400 message. */
  function DebugPayload(env: Env, req: Request): Result<Value, string> {
    if HasHeader(req, DEBUG_DATA_HEADER) then
      match env.decodeDebugData(req.headers[DEBUG_DATA_HEADER])
      case None => Err("x-laf-debug-data is invalid")
      case Some(v) => Ok(v)
    else if HasHeader(req, FUNC_DATA_HEADER) then
      match env.decodeFuncData(req.headers[FUNC_DATA_HEADER])
      case None => Err("x-laf-func-data is invalid")
      case Some(v) => Ok(v)
    else Err("x-laf-debug-data is required")
  }

  /** The debug console's buffer after the run: the function's own lines, then the error
      line when the result carries an error. */
  function DebugLines(env: Env, req: Request, error: Value, logs: seq<string>): (lines: seq<string>)
    ensures |lines| >= |logs| && lines[..|logs|] == logs
    ensures Truthy(error) ==>
      |lines| == |logs| + 1 && lines[|logs|] == Console.Format(env.now, Console.ERROR, req.name, [error], env.inspect)
    ensures !Truthy(error) ==> lines == logs
  {
    Console.ErrorAlwaysEmitted(env.logLevel);
    logs + (if Truthy(error) then Console.Emitted(env.logLevel, Console.Error, env.now, req.name, [error], env.inspect) else [])
  }

  /** The headers of a debug reply: the serialised logs under the header matching the
      payload header used, and the time usage. */
  function DebugHeaders(env: Env, req: Request, timeUsage: int, lines: seq<string>): (h: map<string, string>)
    ensures TIME_USAGE_HEADER in h && h[TIME_USAGE_HEADER] == NumberToString(timeUsage)
    ensures DEBUG_LOGS_HEADER in h <==> HasHeader(req, DEBUG_DATA_HEADER)
    ensures FUNC_LOGS_HEADER in h <==> !HasHeader(req, DEBUG_DATA_HEADER) && HasHeader(req, FUNC_DATA_HEADER)
    ensures h.Keys <= {TIME_USAGE_HEADER, DEBUG_LOGS_HEADER, FUNC_LOGS_HEADER}
    ensures DEBUG_LOGS_HEADER in h ==> h[DEBUG_LOGS_HEADER] == env.gzipBase64(JsonStrings.Stringify(lines))
    ensures FUNC_LOGS_HEADER in h ==> h[FUNC_LOGS_HEADER] == env.encodeUri(JsonStrings.Stringify(lines))
  {
    var logs := JsonStrings.Stringify(lines);
    var logHeaders :=
      if HasHeader(req, DEBUG_DATA_HEADER) then map[DEBUG_LOGS_HEADER := env.gzipBase64(logs)]
      else if HasHeader(req, FUNC_DATA_HEADER) then map[FUNC_LOGS_HEADER := env.encodeUri(logs)]
      else map[];
    logHeaders[TIME_USAGE_HEADER := NumberToString(timeUsage)]
  }

  /** `invokeDebug`: the debug path. */
  function InvokeDebug(env: Env, req: Request, useInterceptor: bool): (o: Outcome)
    ensures o.ran.Some? ==>
      && o.ran.value.target.Debugging? && o.ran.value.functionName == req.name
      && o.ran.value.useInterceptor == useInterceptor
  {
    if !HasHeader(req, DEVELOP_TOKEN_HEADER) then
      Outcome(TextReply(400, "x-laf-develop-token is required"), map[], None)
    else if !IsDevelopAuth(env.parseToken(Header(req, DEVELOP_TOKEN_HEADER))) then
      Outcome(TextReply(403, "permission denied: invalid develop token"), map[], None)
    else
      match DebugPayload(env, req)
      case Err(message) => Outcome(TextReply(400, message), map[], None)
      case Ok(funcData) =>
        if !Truthy(funcData) then
          var body := Obj(map["code" := Num(1), "error" := Str("function data not found"), "requestId" := Str(req.requestId)]);
          Outcome(Sent(None, body), map[], None)
        else
          var call := Invocation(Debugging(funcData), req.name, req, useInterceptor);
          match env.execute(call)
          case Threw => Outcome(TextReply(500, "Internal Server Error"), map[], Some(call))
          case Returned(data, error, timeUsage, ended, logs) =>
            Outcome(Respond(data, error, ended, req.requestId),
                    DebugHeaders(env, req, timeUsage, DebugLines(env, req, error, logs)), Some(call))
  }

  // ---------------------------------------------------------------------------
  // Properties of the entry point

  /** The debug path is taken exactly when a develop token is sent, and every executor call
      uses the interceptor exactly when it is cached. */
  lemma DebugPathIffDevelopToken(env: Env, req: Request)
    ensures var o := HandleInvokeFunction(env, req);
      o.ran.Some? ==> (o.ran.value.target.Debugging? <==> HasHeader(req, DEVELOP_TOKEN_HEADER))
    ensures var o := HandleInvokeFunction(env, req);
      o.ran.Some? ==> (o.ran.value.useInterceptor <==> INTERCEPTOR_FUNCTION_NAME in env.cache)
    ensures !HasHeader(req, DEVELOP_TOKEN_HEADER) ==> HandleInvokeFunction(env, req).headers == map[]
  {
  }

  /** The entry point never answers that a develop token is missing: that reply of
      `invokeDebug` is unreachable from `handleInvokeFunction`. */
  lemma NoMissingTokenReply(env: Env, req: Request)
    ensures HandleInvokeFunction(env, req).reply != TextReply(400, "x-laf-develop-token is required")
  {
    var useInterceptor := INTERCEPTOR_FUNCTION_NAME in env.cache;
    if !HasHeader(req, DEVELOP_TOKEN_HEADER) {
      NormalPathReplies(env, req, useInterceptor);
    }
  }

  /** The statuses the normal path can answer with. */
  lemma NormalPathReplies(env: Env, req: Request, useInterceptor: bool)
    ensures var o := InvokeFunction(env, req, useInterceptor);
      o.reply.Sent? && o.reply.status.Some? ==> o.reply.status.value in {403, 404, 405, 500}
  {
  }

  /** Lookup order on the normal path: the requested function, else `__default__`, else 404
      whatever the trigger token says. */
  lemma LookupOrder(env: Env, req: Request, useInterceptor: bool)
    ensures var o := InvokeFunction(env, req, useInterceptor);
      o.ran.Some? ==> o.ran.value.target == Deployed(
        if req.name in env.cache then env.cache[req.name] else env.cache[DEFAULT_FUNCTION_NAME])
    ensures var o := InvokeFunction(env, req, useInterceptor);
      o.reply.Sent? && o.reply.status == Some(404) <==> req.name !in env.cache && DEFAULT_FUNCTION_NAME !in env.cache
    ensures req.name !in env.cache && DEFAULT_FUNCTION_NAME !in env.cache ==>
      InvokeFunction(env, req, useInterceptor) == Outcome(TextReply(404, "Function Not Found"), map[], None)
  {
  }

  /** Method gating: 405 exactly when a function was found, its methods lack the upper-cased
      request method and the trigger token does not parse; the function runs otherwise. */
  lemma MethodGate(env: Env, req: Request, useInterceptor: bool)
    ensures var o := InvokeFunction(env, req, useInterceptor);
      var f := Resolve(env.cache, req.name);
      var isTrigger := Truthy(env.parseToken(Header(req, TRIGGER_TOKEN_HEADER)));
      && (o.reply == TextReply(405, "Method Not Allowed") <==> f.Some? && ToUpperAscii(req.httpMethod) !in f.value.methods && !isTrigger)
      && (o.ran.Some? <==> f.Some? && (ToUpperAscii(req.httpMethod) in f.value.methods || isTrigger))
  {
  }

  /** Once the deployed function has run, the reply is the shared mapping of its result, or
      500 text when the executor throws; the normal path sets no headers. */
  lemma NormalPathAfterExecution(env: Env, req: Request, useInterceptor: bool)
    requires InvokeFunction(env, req, useInterceptor).ran.Some?
    ensures var o := InvokeFunction(env, req, useInterceptor);
      var r := env.execute(o.ran.value);
      && o.ran.value.functionName == req.name
      && o.ran.value.useInterceptor == useInterceptor
      && o.headers == map[]
      && (r.Threw? ==> o.reply == TextReply(500, "Internal Server Error"))
      && (r.Returned? ==> o.reply == Respond(r.data, r.error, r.ended, req.requestId))
  {
  }

  /** An error wins over the interceptor's refusal. */
  lemma ErrorBeforeRejection(data: Value, error: Value, ended: bool, requestId: string)
    requires Truthy(error) && IsRejection(data)
    ensures Respond(data, error, ended, requestId) == Sent(Some(500), ErrorBody("Internal Server Error", requestId))
  {
  }

  /** Only the exact refusal shape is refused: `__res__` must be loosely false, so `0`, `"0"`
      and `[]` refuse while null, undefined and a missing `__res__` do not. */
  lemma RejectionShape()
    ensures IsRejection(Obj(map["__type__" := Str("__interceptor__"), "__res__" := Bool(false)]))
    ensures IsRejection(Obj(map["__type__" := Str("__interceptor__"), "__res__" := Str("0")]))
    ensures IsRejection(Obj(map["__type__" := Str("__interceptor__"), "__res__" := Arr([])]))
    ensures !IsRejection(Obj(map["__type__" := Str("__interceptor__"), "__res__" := Null]))
    ensures !IsRejection(Obj(map["__type__" := Str("__interceptor__")]))
    ensures !IsRejection(Obj(map["__type__" := Str("interceptor"), "__res__" := Bool(false)]))
  {
    RejectionOf(Bool(false));
    ZeroStringIsZero();
    RejectionOf(Str("0"));
    RejectionOf(Arr([]));
    RejectionOf(Null);
    MissingResIsNoRejection();
    OtherTypeIsNoRejection();
  }

  /** An interceptor-typed object refuses exactly when its `__res__` is loosely false. */
  lemma RejectionOf(res: Value)
    ensures IsRejection(Obj(map["__type__" := Str("__interceptor__"), "__res__" := res])) <==> LooselyEqualsFalse(res)
  {
    var o := Obj(map["__type__" := Str("__interceptor__"), "__res__" := res]);
    assert Prop(o, "__res__") == res;
    assert Prop(o, "__type__") == Str("__interceptor__");
  }

  lemma MissingResIsNoRejection()
    ensures !IsRejection(Obj(map["__type__" := Str("__interceptor__")]))
  {
    var missing := Obj(map["__type__" := Str("__interceptor__")]);
    assert "__res__" !in missing.fields;
    assert Prop(missing, "__res__") == Undefined;
  }

  lemma OtherTypeIsNoRejection()
    ensures !IsRejection(Obj(map["__type__" := Str("interceptor"), "__res__" := Bool(false)]))
  {
    var other := Obj(map["__type__" := Str("interceptor"), "__res__" := Bool(false)]);
    assert Prop(other, "__type__") == Str("interceptor");
    assert |"interceptor"| != |"__interceptor__"|;
  }

  /** Numbers are sent as their decimal text, which reads back as the same number; any
      other data is sent unchanged. */
  lemma SendFormKeepsData(data: Value)
    ensures data.Num? ==> SendForm(data).Str? && ParseInt(SendForm(data).s) == Some(data.n)
    ensures !data.Num? ==> SendForm(data) == data
  {
    if data.Num? {
      NumberToStringRoundTrip(data.n);
    }
  }

  /** Debug path checks: a token that is not a develop token is refused before any payload
      is decoded (the decoders do not matter), `x-laf-debug-data` takes precedence over
      `x-laf-func-data`, failures name the header used, and there is never a 404 or 405. */
  lemma DebugValidation(env: Env, req: Request, useInterceptor: bool,
                        otherDebug: string -> Option<Value>, otherFunc: string -> Option<Value>)
    requires HasHeader(req, DEVELOP_TOKEN_HEADER)
    requires !IsDevelopAuth(env.parseToken(Header(req, DEVELOP_TOKEN_HEADER)))
    ensures InvokeDebug(env, req, useInterceptor) == Outcome(TextReply(403, "permission denied: invalid develop token"), map[], None)
    ensures InvokeDebug(env.(decodeDebugData := otherDebug, decodeFuncData := otherFunc), req, useInterceptor)
      == InvokeDebug(env, req, useInterceptor)
  {
  }

  /** When `x-laf-debug-data` is sent, `x-laf-func-data` is never decoded. */
  lemma DebugDataPreferred(env: Env, req: Request, useInterceptor: bool, otherFunc: string -> Option<Value>)
    requires HasHeader(req, DEBUG_DATA_HEADER)
    ensures InvokeDebug(env.(decodeFuncData := otherFunc), req, useInterceptor) == InvokeDebug(env, req, useInterceptor)
  {
    assert DebugPayload(env.(decodeFuncData := otherFunc), req) == DebugPayload(env, req);
  }

  /** With a valid develop token, a payload that is missing or does not decode is a 400
      naming the header at fault. */
  lemma DebugPayloadErrors(env: Env, req: Request, useInterceptor: bool)
    requires HasHeader(req, DEVELOP_TOKEN_HEADER) && IsDevelopAuth(env.parseToken(Header(req, DEVELOP_TOKEN_HEADER)))
    ensures var o := InvokeDebug(env, req, useInterceptor);
      && (HasHeader(req, DEBUG_DATA_HEADER) && env.decodeDebugData(req.headers[DEBUG_DATA_HEADER]).None? ==>
            o == Outcome(TextReply(400, "x-laf-debug-data is invalid"), map[], None))
      && (!HasHeader(req, DEBUG_DATA_HEADER) && HasHeader(req, FUNC_DATA_HEADER)
          && env.decodeFuncData(req.headers[FUNC_DATA_HEADER]).None? ==>
            o == Outcome(TextReply(400, "x-laf-func-data is invalid"), map[], None))
      && (!HasHeader(req, DEBUG_DATA_HEADER) && !HasHeader(req, FUNC_DATA_HEADER) ==>
            o == Outcome(TextReply(400, "x-laf-debug-data is required"), map[], None))
  {
  }

  /** The debug path never answers 404 or 405: it does not look the function up. */
  lemma DebugNeverNotFound(env: Env, req: Request, useInterceptor: bool)
    ensures var o := InvokeDebug(env, req, useInterceptor);
      o.reply.Sent? ==> o.reply.status != Some(404) && o.reply.status != Some(405)
  {
  }

  /** A debug run executes the decoded function data under the requested name, and only when
      that data is truthy. */
  lemma DebugRunsDecodedData(env: Env, req: Request, useInterceptor: bool)
    requires InvokeDebug(env, req, useInterceptor).ran.Some?
    ensures var call := InvokeDebug(env, req, useInterceptor).ran.value;
      && IsDevelopAuth(env.parseToken(Header(req, DEVELOP_TOKEN_HEADER)))
      && DebugPayload(env, req) == Ok(call.target.funcData)
      && call.target.Debugging? && Truthy(call.target.funcData)
      && call.functionName == req.name
      && call.useInterceptor == useInterceptor
  {
  }

  /** Debug headers after a run: the logs go to `x-laf-debug-logs` exactly when
      `x-laf-debug-data` was used and to `x-laf-func-logs` otherwise, the time usage is set
      even on error, the logs are the buffer (with the error line last on error) in a form
      that reads back line for line, and nothing else is set. */
  lemma DebugHeadersAfterRun(env: Env, req: Request, useInterceptor: bool)
    requires InvokeDebug(env, req, useInterceptor).ran.Some?
    requires env.execute(InvokeDebug(env, req, useInterceptor).ran.value).Returned?
    ensures var o := InvokeDebug(env, req, useInterceptor);
      var r := env.execute(o.ran.value);
      var lines := DebugLines(env, req, r.error, r.logs);
      && o.headers == DebugHeaders(env, req, r.timeUsage, lines)
      && (FUNC_LOGS_HEADER in o.headers <==> !HasHeader(req, DEBUG_DATA_HEADER))
      && JsonStrings.Parse(JsonStrings.Stringify(lines)) == Some(lines)
      && o.reply == Respond(r.data, r.error, r.ended, req.requestId)
  {
    var o := InvokeDebug(env, req, useInterceptor);
    var r := env.execute(o.ran.value);
    DebugRunsDecodedData(env, req, useInterceptor);
    JsonStrings.StringifyRoundTrip(DebugLines(env, req, r.error, r.logs));
  }
}
