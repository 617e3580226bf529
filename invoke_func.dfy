/** The older entry point for cloud functions, which loads functions by name from the
    database: a `healthz` answer for an unknown `healthz`, the default fallback, method
    gating without any trigger bypass, and a 400 reply when the function reports an error. */
module InvokeFunc {
  import opened Wrappers
  import opened JsString
  import opened Js
  import opened Engine
  import Invoke

  /** One call of `func.invoke(ctx)`: the loaded function, the context's `__function_name`
      and the request. */
  datatype Call = Call(func: CloudFunction, functionName: string, request: Invoke.Request)

  /** The reply and the call made, if any. */
  datatype Outcome = Outcome(reply: Invoke.Reply, ran: Option<Call>)

  const ERROR_MESSAGE: string := "invoke cloud function got error, please check the function logs"

  /** Every stored function is stored under its own name. */
  predicate StoredByName(db: map<string, CloudFunction>) {
    forall k :: k in db ==> db[k].name == k
  }

  /** Runs a loaded function: 405 for a method it does not enable, else the call and the
      mapping of its result (the timing and log fields of the result are not read here). */
  function Run(func: CloudFunction, invoke: Call -> Invoke.ExecResult, req: Invoke.Request): (o: Outcome)
    ensures o.reply == Invoke.TextReply(405, "Method Not Allowed") <==> ToUpperAscii(req.httpMethod) !in func.methods
    ensures o.ran.Some? <==> ToUpperAscii(req.httpMethod) in func.methods
    ensures o.ran.Some? ==> o.ran.value == Call(func, func.name, req)
    ensures o.ran.Some? && invoke(o.ran.value).Threw? ==> o.reply == Invoke.TextReply(500, "Internal Server Error")
    ensures o.ran.Some? && invoke(o.ran.value).Returned? ==>
      var r := invoke(o.ran.value);
      && (Truthy(r.error) ==> o.reply == Invoke.Sent(Some(400), Invoke.ErrorBody(ERROR_MESSAGE, req.requestId)))
      && (!Truthy(r.error) && !r.ended ==> o.reply == Invoke.Sent(None, r.data))
      && (!Truthy(r.error) && r.ended ==> o.reply.NotWritten?)
  {
    if ToUpperAscii(req.httpMethod) !in func.methods then
      Outcome(Invoke.TextReply(405, "Method Not Allowed"), None)
    else
      var call := Call(func, func.name, req);
      match invoke(call)
      case Threw => Outcome(Invoke.TextReply(500, "Internal Server Error"), Some(call))
      case Returned(data, error, _, ended, _) =>
        if Truthy(error) then
          Outcome(Invoke.Sent(Some(400), Invoke.ErrorBody(ERROR_MESSAGE, req.requestId)), Some(call))
        else if !ended then Outcome(Invoke.Sent(None, data), Some(call))
        else Outcome(Invoke.NotWritten, Some(call))
  }

  /** `handleInvokeFunction` of the older runtime. */
  function HandleInvokeFunction(db: map<string, CloudFunction>, invoke: Call -> Invoke.ExecResult, req: Invoke.Request): (o: Outcome)
    ensures Loaded(db, req.name).Some? ==> o == Run(Loaded(db, req.name).value, invoke, req)
    ensures Loaded(db, req.name).None? && req.name == "healthz" ==> o == Outcome(Invoke.TextReply(200, "ok"), None)
    ensures Loaded(db, req.name).None? && req.name != "healthz" ==>
      o == Outcome(Invoke.TextReply(404, "Function Not Found"), None)
  {
    if req.name in db then Run(db[req.name], invoke, req)
    else if req.name == "healthz" then Outcome(Invoke.TextReply(200, "ok"), None)
    else if DEFAULT_FUNCTION_NAME in db then Run(db[DEFAULT_FUNCTION_NAME], invoke, req)
    else Outcome(Invoke.TextReply(404, "Function Not Found"), None)
  }

  /** The function that handles a request, when one is found. */
  function Loaded(db: map<string, CloudFunction>, name: string): (r: Option<CloudFunction>)
    ensures r.Some? <==> name in db || (name != "healthz" && DEFAULT_FUNCTION_NAME in db)
    ensures name in db ==> r == Some(db[name])
    ensures name !in db && r.Some? ==> r == Some(db[DEFAULT_FUNCTION_NAME])
  {
    if name in db then Some(db[name])
    else if name != "healthz" && DEFAULT_FUNCTION_NAME in db then Some(db[DEFAULT_FUNCTION_NAME])
    else None
  }

  // ---------------------------------------------------------------------------
  // Properties

  /** A stored function named `healthz` wins; only an unknown `healthz` answers 200 `ok`. */
  lemma HealthzOnlyWhenUnknown(db: map<string, CloudFunction>, invoke: Call -> Invoke.ExecResult, req: Invoke.Request)
    ensures var o := HandleInvokeFunction(db, invoke, req);
      (o.reply == Invoke.TextReply(200, "ok") && o.ran.None?) <==> req.name !in db && req.name == "healthz"
  {
  }

  /** The requested function when stored, else `__default__`, else 404; whichever is found
      is what runs, and the context names it by its own name. */
  lemma LookupOrder(db: map<string, CloudFunction>, invoke: Call -> Invoke.ExecResult, req: Invoke.Request)
    ensures var o := HandleInvokeFunction(db, invoke, req);
      && (o.ran.Some? ==> Loaded(db, req.name).Some? && o.ran.value.func == Loaded(db, req.name).value)
      && (o.ran.Some? ==> o.ran.value.functionName == o.ran.value.func.name)
      && (o.reply == Invoke.TextReply(404, "Function Not Found") <==>
            req.name !in db && req.name != "healthz" && DEFAULT_FUNCTION_NAME !in db)
  {
  }

  /** With functions stored by name, a fallback run carries `__default__` as its name. */
  lemma FallbackNamedDefault(db: map<string, CloudFunction>, invoke: Call -> Invoke.ExecResult, req: Invoke.Request)
    requires StoredByName(db) && req.name !in db
    ensures var o := HandleInvokeFunction(db, invoke, req);
      o.ran.Some? ==> o.ran.value.functionName == DEFAULT_FUNCTION_NAME
  {
  }

  /** 405 exactly when the found function lacks the upper-cased method; no header can
      bypass it. */
  lemma MethodGate(db: map<string, CloudFunction>, invoke: Call -> Invoke.ExecResult, req: Invoke.Request)
    ensures var o := HandleInvokeFunction(db, invoke, req);
      var f := Loaded(db, req.name);
      && (o.reply == Invoke.TextReply(405, "Method Not Allowed") <==>
            f.Some? && ToUpperAscii(req.httpMethod) !in f.value.methods)
      && (o.ran.Some? <==> f.Some? && ToUpperAscii(req.httpMethod) in f.value.methods)
  {
  }

  /** After the call: an error gives 400 with the request id (never 500), a throw gives 500
      text, and otherwise the data is sent as it is (numbers included) unless the response
      has ended. */
  lemma AfterCall(db: map<string, CloudFunction>, invoke: Call -> Invoke.ExecResult, req: Invoke.Request)
    requires HandleInvokeFunction(db, invoke, req).ran.Some?
    ensures var o := HandleInvokeFunction(db, invoke, req);
      var r := invoke(o.ran.value);
      && (r.Threw? ==> o.reply == Invoke.TextReply(500, "Internal Server Error"))
      && (r.Returned? && Truthy(r.error) ==> o.reply == Invoke.Sent(Some(400), Invoke.ErrorBody(ERROR_MESSAGE, req.requestId)))
      && (r.Returned? && !Truthy(r.error) && !r.ended ==> o.reply == Invoke.Sent(None, r.data))
      && (r.Returned? && !Truthy(r.error) && r.ended ==> o.reply.NotWritten?)
  {
  }
}
