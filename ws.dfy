/** The websocket bridge: the lazily created server, and the mapping of each socket event
    to one invocation context aimed at the reserved websocket function. */
module WebSocket {
  import opened Wrappers
  import opened Js
  import opened Engine

  /** The four events a socket delivers, with what the socket library passes along. */
  datatype Event =
    | Connection(requestHeaders: map<string, string>)
    | Message(data: Value, isBinary: bool)
    | SocketError(error: Value)
    | Close(code: int, reason: Value)

  /** The arguments `handleSocketConnection` passes to `handleWebSocketEvent`: the event
      name, the event's data, and the upgrade request (its headers) for the connection only. */
  datatype EventCall = EventCall(event: string, data: Value, request: Option<map<string, string>>)

  function ListenerCall(e: Event): EventCall {
    match e
    case Connection(headers) => EventCall("WebSocket:connection", Null, Some(headers))
    case Message(data, isBinary) =>
      EventCall("WebSocket:message", Obj(map["data" := data, "isBinary" := Bool(isBinary)]), None)
    case SocketError(error) => EventCall("WebSocket:error", error, None)
    case Close(code, reason) => EventCall("WebSocket:close", Obj(map["code" := Num(code), "reason" := reason]), None)
  }

  /** The context handed to the websocket function. */
  datatype Context = Context(
    params: Value,
    methodName: string,
    requestId: string,
    socket: nat,
    functionName: string,
    headers: Option<map<string, string>>)

  /** What `handleWebSocketEvent` does: nothing but return the not-found text when no
      engine is cached for the websocket function, else one execution of it. */
  datatype Dispatch = HandlerNotFound(message: string) | Executed(context: Context)

  /** `handleWebSocketEvent(event, data, socket, request)`, with `requestId` the freshly
      generated id. */
  function HandleWebSocketEvent(cache: FunctionCache, call: EventCall, socket: nat, requestId: string): Dispatch {
    var param := Context(call.data, call.event, requestId, socket, WEBSOCKET_FUNCTION_NAME, call.request);
    if WEBSOCKET_FUNCTION_NAME !in cache then HandlerNotFound("WebSocket handler not found")
    else Executed(param)
  }

  /** One socket event as the listeners of `handleSocketConnection` forward it. */
  function OnEvent(cache: FunctionCache, e: Event, socket: nat, requestId: string): (d: Dispatch)
    ensures d.HandlerNotFound? <==> WEBSOCKET_FUNCTION_NAME !in cache
    ensures d.HandlerNotFound? ==> d.message == "WebSocket handler not found"
    ensures d.Executed? ==> d.context.functionName == WEBSOCKET_FUNCTION_NAME
    ensures d.Executed? ==> d.context.requestId == requestId && d.context.socket == socket
    ensures d.Executed? ==> (d.context.headers.Some? <==> e.Connection?)
    ensures d.Executed? && e.Connection? ==> d.context.headers == Some(e.requestHeaders)
  {
    HandleWebSocketEvent(cache, ListenerCall(e), socket, requestId)
  }

  // ---------------------------------------------------------------------------
  // Properties

  /** The context's method is the event's name and its params are the event's payload:
      null on connection, `{data, isBinary}`, the error itself, `{code, reason}`. */
  lemma ContextPerEvent(cache: FunctionCache, e: Event, socket: nat, requestId: string)
    requires WEBSOCKET_FUNCTION_NAME in cache
    ensures var c := OnEvent(cache, e, socket, requestId).context;
      match e
      case Connection(_) => c.methodName == "WebSocket:connection" && c.params == Null
      case Message(data, isBinary) =>
        c.methodName == "WebSocket:message" && c.params == Obj(map["data" := data, "isBinary" := Bool(isBinary)])
      case SocketError(error) => c.methodName == "WebSocket:error" && c.params == error
      case Close(code, reason) =>
        c.methodName == "WebSocket:close" && c.params == Obj(map["code" := Num(code), "reason" := reason])
  {
  }

  /** Different events give different methods, so the function can tell them apart. */
  lemma MethodsDistinguishEvents(cache: FunctionCache, e1: Event, e2: Event, s1: nat, s2: nat, id1: string, id2: string)
    requires WEBSOCKET_FUNCTION_NAME in cache
    requires OnEvent(cache, e1, s1, id1).context.methodName == OnEvent(cache, e2, s2, id2).context.methodName
    ensures e1.Connection? == e2.Connection? && e1.Message? == e2.Message?
    ensures e1.SocketError? == e2.SocketError? && e1.Close? == e2.Close?
  {
  }

  /** The target does not depend on the socket, the request or the event. */
  lemma TargetIndependentOfSocket(cache: FunctionCache, e1: Event, e2: Event, s1: nat, s2: nat, id1: string, id2: string)
    requires WEBSOCKET_FUNCTION_NAME in cache
    ensures OnEvent(cache, e1, s1, id1).context.functionName == OnEvent(cache, e2, s2, id2).context.functionName
  {
  }

  // ---------------------------------------------------------------------------
  // The lazily created server

  /** A websocket server, as far as the listeners registered on it. */
  class WebSocketServer {
    var listeners: seq<string>

    constructor()
      ensures listeners == []
    {
      listeners := [];
    }

    method On(event: string)
      modifies this
      ensures listeners == old(listeners) + [event]
    {
      listeners := listeners + [event];
    }
  }

  /** `WebSocketAgent`: holds the single server (the static `_server`). */
  class WebSocketAgent {
    var server: WebSocketServer?

    constructor()
      ensures server == null
    {
      server := null;
    }

    /** The `server` getter: the first use creates the server and registers the
        `connection` and `error` listeners on it; later uses return that same server. */
    method Server() returns (s: WebSocketServer)
      modifies this
      ensures server == s
      ensures old(server) != null ==> s == old(server) && s.listeners == old(s.listeners)
      ensures old(server) == null ==> fresh(s) && s.listeners == ["connection", "error"]
    {
      if server == null {
        var created := new WebSocketServer();
        server := created;
        created.On("connection");
        created.On("error");
      }
      s := server;
    }
  }

  /** Two uses of the getter give the same server, created once. */
  method ServerTwice(agent: WebSocketAgent) returns (first: WebSocketServer, second: WebSocketServer)
    modifies agent
    ensures first == second && agent.server == first
    ensures first.listeners == (if old(agent.server) == null then ["connection", "error"] else old(agent.server.listeners))
  {
    first := agent.Server();
    second := agent.Server();
  }
}
