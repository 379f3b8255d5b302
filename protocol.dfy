/**
 * The JSON-RPC protocol engine: a registry of named handlers and the dispatcher that turns one
 * decoded payload into at most one response, calling at most one handler on the way.
 */
module Protocol {

  import opened Wrappers
  import opened Json
  import opened Errors
  import opened Models

  /** What a call to a handler does: return a value, raise a `JSONRPCError`, or raise any other exception. */
  datatype Outcome =
    | Returned(value: Value)
    | Raised(error: RpcError)
    | Threw(message: string)

  /**
   * A registered handler, called with the method name and the params. Synchronous and
   * asynchronous handlers are the same thing here: the dispatcher waits for the outcome.
   */
  type Handler = (string, Value) -> Outcome

  /**
   * An incoming payload after JSON decoding: not decodable at all, or an object with its
   * `id`, `method` and `params` members (an absent `params` is `Null`).
   */
  datatype RawMessage =
    | Malformed
    | Decoded(id: Option<Id>, methodName: Option<string>, params: Value)

  /** One invocation of a handler, as the handler sees it. */
  datatype Call = Call(methodName: string, params: Value)

  /** What handling a payload produced: the response, if any, and the handler calls made. */
  datatype Handled = Handled(response: Option<Response>, calls: seq<Call>)

  const ParseErrorMessage: string := "Invalid JSON payload"
  const RequestValidationMessage: string := "Request validation error"
  const InternalErrorPrefix: string := "Internal error: "

  function MethodNotFoundMessage(methodName: string): string {
    "Method '" + methodName + "' not found"
  }

  function InternalErrorMessage(failure: string): string {
    InternalErrorPrefix + failure
  }

  /** A response carrying an error and no result. */
  function ErrorResponse(t: CodeTable, id: Option<Id>, e: RpcError): Response {
    Response(id, Null, Some(ToDict(t, e)))
  }

  /** The payload decoded into a request carrying a method (a notification when it has no id). */
  predicate IsValidEnvelope(raw: RawMessage) {
    raw.Decoded? && raw.methodName.Some?
  }

  /**
   * `_handle_raw_async`: undecodable input and envelopes without a method are answered with a
   * null id; a request for an unknown method, a handler that raises and a handler that returns
   * are answered with the request's id; a notification is never answered, but its handler, if
   * registered, is still called.
   */
  function Dispatch(t: CodeTable, methods: map<string, Handler>, raw: RawMessage): (h: Handled)
    ensures h.response.None? <==> IsValidEnvelope(raw) && raw.id.None?
    ensures h.response.Some? && h.response.value.error.None? ==>
              && IsValidEnvelope(raw) && raw.methodName.value in methods
              && methods[raw.methodName.value](raw.methodName.value, raw.params) == Returned(h.response.value.result)
    ensures h.response.Some? && h.response.value.error.Some? ==> h.response.value.result == Null
    ensures h.response.Some? ==> h.response.value.id == (if IsValidEnvelope(raw) then raw.id else None)
    ensures h.calls != [] <==> IsValidEnvelope(raw) && raw.methodName.value in methods
    ensures h.calls != [] ==> h.calls == [Call(raw.methodName.value, raw.params)]
  {
    match raw
    case Malformed =>
      Handled(Some(ErrorResponse(t, None, RpcError(ParseError, ParseErrorMessage, None))), [])
    case Decoded(id, m, p) =>
      match NewRequest(id, m, p)
      case Err(_) =>
        Handled(Some(ErrorResponse(t, None, RpcError(InvalidRequestError, RequestValidationMessage, None))), [])
      case Ok(req) =>
        if req.methodName !in methods then
          if req.IsNotification() then Handled(None, [])
          else Handled(Some(ErrorResponse(t, req.id, RpcError(MethodNotFoundError, MethodNotFoundMessage(req.methodName), None))), [])
        else
          var calls := [Call(req.methodName, req.params)];
          var outcome := methods[req.methodName](req.methodName, req.params);
          if req.IsNotification() then Handled(None, calls)
          else
            match outcome
            case Returned(v) => Handled(Some(Response(req.id, v, None)), calls)
            case Raised(e) => Handled(Some(ErrorResponse(t, req.id, e)), calls)
            case Threw(msg) =>
              Handled(Some(ErrorResponse(t, req.id, RpcError(InternalError, InternalErrorMessage(msg), None))), calls)
  }

  /** The error dictionary of a response is `{code, message}` with the given class's code. */
  predicate HasError(t: CodeTable, r: Response, kind: ErrorKind) {
    && r.error.Some?
    && "code" in r.error.value && r.error.value["code"] == Num(Code(t, kind))
    && "message" in r.error.value && r.error.value["message"].Str?
  }

  /** The error message of a response that carries one. */
  function ErrorMessage(r: Response): string
    requires r.error.Some? && "message" in r.error.value && r.error.value["message"].Str?
  {
    r.error.value["message"].s
  }

  /** A request whose handler returns `v` is answered with its own id and `result == v`. */
  lemma HandledRequestReturnsResult(t: CodeTable, methods: map<string, Handler>, id: Id, m: string, p: Value, v: Value)
    requires m in methods && methods[m](m, p) == Returned(v)
    ensures var h := Dispatch(t, methods, Decoded(Some(id), Some(m), p));
            && h.response == Some(Response(Some(id), v, None))
            && h.calls == [Call(m, p)]
            && DumpResponse(h.response.value)["id"] == IdValue(Some(id))
            && DumpResponse(h.response.value)["result"] == v
  {
  }

  /** A notification calls its handler exactly once with its params and gets no response, whatever the handler does. */
  lemma NotificationIsNotAnswered(t: CodeTable, methods: map<string, Handler>, m: string, p: Value)
    ensures var h := Dispatch(t, methods, Decoded(None, Some(m), p));
            && h.response.None?
            && h.calls == (if m in methods then [Call(m, p)] else [])
  {
  }

  /** Undecodable input is answered with a null id and a ParseError mentioning the invalid payload; no handler runs. */
  lemma MalformedGetsParseError(t: CodeTable, methods: map<string, Handler>)
    ensures var h := Dispatch(t, methods, Malformed);
            && h.response.Some? && h.response.value.id.None? && h.calls == []
            && HasError(t, h.response.value, ParseError)
            && Contains(ErrorMessage(h.response.value), "Invalid JSON payload")
  {
    ContainsMiddle("", ParseErrorMessage, "");
    assert "" + ParseErrorMessage + "" == ParseErrorMessage;
  }

  /**
   * A decodable payload without a method is answered with a null id even when it carried one,
   * and an InvalidRequestError mentioning request validation; no handler runs.
   */
  lemma MissingMethodGetsInvalidRequest(t: CodeTable, methods: map<string, Handler>, id: Option<Id>, p: Value)
    ensures var h := Dispatch(t, methods, Decoded(id, None, p));
            && h.response.Some? && h.response.value.id.None? && h.calls == []
            && HasError(t, h.response.value, InvalidRequestError)
            && Contains(ErrorMessage(h.response.value), "Request validation error")
  {
    ContainsMiddle("", RequestValidationMessage, "");
    assert "" + RequestValidationMessage + "" == RequestValidationMessage;
  }

  /** A request for an unregistered method keeps its id and gets a MethodNotFoundError naming the method. */
  lemma UnknownMethodGetsMethodNotFound(t: CodeTable, methods: map<string, Handler>, id: Id, m: string, p: Value)
    requires m !in methods
    ensures var h := Dispatch(t, methods, Decoded(Some(id), Some(m), p));
            && h.response.Some? && h.response.value.id == Some(id) && h.calls == []
            && HasError(t, h.response.value, MethodNotFoundError)
            && Contains(ErrorMessage(h.response.value), "not found")
            && Contains(ErrorMessage(h.response.value), m)
  {
    ContainsMiddle("Method '" + m + "' ", "not found", "");
    assert "Method '" + m + "' " + "not found" + "" == MethodNotFoundMessage(m);
    ContainsMiddle("Method '", m, "' not found");
    assert "Method '" + m + "' not found" == MethodNotFoundMessage(m);
  }

  /**
   * A request whose handler raises an ordinary exception keeps its id and gets an InternalError
   * carrying the failure's message; the exception does not escape.
   */
  lemma FailingHandlerGetsInternalError(t: CodeTable, methods: map<string, Handler>, id: Id, m: string, p: Value, msg: string)
    requires m in methods && methods[m](m, p) == Threw(msg)
    ensures var h := Dispatch(t, methods, Decoded(Some(id), Some(m), p));
            && h.response.Some? && h.response.value.id == Some(id) && h.calls == [Call(m, p)]
            && HasError(t, h.response.value, InternalError)
            && h.response.value.result == Null
            && Contains(ErrorMessage(h.response.value), "Internal error")
            && Contains(ErrorMessage(h.response.value), msg)
  {
    ContainsMiddle("", "Internal error", ": " + msg);
    assert "" + "Internal error" + (": " + msg) == InternalErrorMessage(msg);
    ContainsMiddle(InternalErrorPrefix, msg, "");
    assert InternalErrorPrefix + msg + "" == InternalErrorMessage(msg);
  }

  /** A handler that raises a domain error has that error, with its class code and message, sent back under the request's id. */
  lemma RaisedDomainErrorPassesThrough(t: CodeTable, methods: map<string, Handler>, id: Id, m: string, p: Value,
                                       k: A2AErrorKind, msg: string)
    requires m in methods && methods[m](m, p) == Raised(RpcError(Domain(k), msg, None))
    ensures var h := Dispatch(t, methods, Decoded(Some(id), Some(m), p));
            && h.response.Some? && h.response.value.id == Some(id)
            && HasError(t, h.response.value, Domain(k))
            && ErrorMessage(h.response.value) == msg
  {
  }

  /**
   * The sample request `{"jsonrpc": "2.0", "id": 123, "method": "tasks/get", "params": {"id": "task-123"}}`,
   * sent to a registry without a `tasks/get` handler, gets the sample error response: id 123,
   * code -32601 and a message saying the method was not found.
   */
  lemma TasksGetNotRegistered(t: CodeTable, methods: map<string, Handler>)
    requires ValidTable(t) && "tasks/get" !in methods
    ensures var h := Dispatch(t, methods, Decoded(Some(NumId(123)), Some("tasks/get"), Obj(map["id" := Str("task-123")])));
            && h.response.Some?
            && DumpResponse(h.response.value)["jsonrpc"] == Str("2.0")
            && DumpResponse(h.response.value)["id"] == Num(123)
            && DumpResponse(h.response.value)["result"] == Null
            && h.response.value.error.Some?
            && h.response.value.error.value["code"] == Num(-32601)
            && Contains(ErrorMessage(h.response.value), "not found")
  {
    UnknownMethodGetsMethodNotFound(t, methods, NumId(123), "tasks/get", Obj(map["id" := Str("task-123")]));
  }

  /** Registering a name again replaces the handler: every payload is handled as if only the second handler had been registered. */
  lemma ReRegistrationOverwrites(t: CodeTable, methods: map<string, Handler>, m: string, h1: Handler, h2: Handler,
                                 raw: RawMessage)
    ensures Dispatch(t, methods[m := h1][m := h2], raw) == Dispatch(t, methods[m := h2], raw)
  {
    assert methods[m := h1][m := h2] == methods[m := h2];
  }

  /**
   * `create_request`: the request dictionary with the given method, params and id.
   * Generating an id when none is given is not part of this model.
   */
  function CreateRequest(methodName: string, params: Value, id: Id): (d: map<string, Value>)
    ensures "jsonrpc" in d && d["jsonrpc"] == Str("2.0")
    ensures "id" in d && d["id"] == IdValue(Some(id))
    ensures "method" in d && d["method"] == Str(methodName)
    ensures params != Null ==> "params" in d && d["params"] == params
    ensures params == Null ==> "params" !in d
    ensures d.Keys <= {"jsonrpc", "id", "method", "params"}
  {
    DumpRequest(Request(Some(id), methodName, params))
  }

  /** `create_notification`: the same dictionary as a request, with no `id` key. */
  function CreateNotification(methodName: string, params: Value): (d: map<string, Value>)
    ensures "id" !in d
    ensures forall id: Id :: d == CreateRequest(methodName, params, id) - {"id"}
  {
    var d := DumpRequest(Request(None, methodName, params));
    forall id: Id ensures d == CreateRequest(methodName, params, id) - {"id"} {
      NotificationDumpDropsId(id, methodName, params);
    }
    d
  }

  /** The method registry (`_methods`), which `register` and the `method` decorator update in place. */
  class JsonRpcProtocol {
    /** The registered handlers by method name (`_methods`). */
    var methods: map<string, Handler>

    constructor ()
      ensures methods == map[]
    {
      methods := map[];
    }

    /** `register(name, handler)`: binds `name` to `handler`, replacing any earlier binding. */
    method Register(name: string, handler: Handler)
      modifies this
      ensures methods == old(methods)[name := handler]
      ensures name in methods && methods[name] == handler
    {
      methods := methods[name := handler];
    }

    /** `@method(name)`: registers the decorated function under `name` and hands it back unchanged. */
    method Method(name: string, handler: Handler) returns (decorated: Handler)
      modifies this
      ensures methods == old(methods)[name := handler]
      ensures name in methods && methods[name] == handler && decorated == handler
    {
      Register(name, handler);
      decorated := handler;
    }
  }
}
