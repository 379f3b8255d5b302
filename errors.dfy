/**
 * The error taxonomy: the base JSON-RPC error kinds the dispatcher raises and the seven
 * A2A domain error kinds, each bound to one class-level code, and the `{code, message}`
 * shape every such error serialises to.
 */
module Errors {

  import opened Wrappers
  import opened Json

  /** The seven A2A domain error classes. */
  datatype A2AErrorKind =
    | TaskNotFound
    | TaskNotCancelable
    | PushNotificationsNotSupported
    | UnsupportedOperation
    | ContentTypeNotSupported
    | InvalidAgentResponse
    | AuthenticatedExtendedCardNotConfigured

  /** The members of the `A2AErrorCode` enumeration the classes refer to. */
  datatype A2AErrorCode =
    | TASK_NOT_FOUND
    | TASK_NOT_CANCELABLE
    | PUSH_NOTIFICATIONS_NOT_SUPPORTED
    | UNSUPPORTED_OPERATION
    | CONTENT_TYPE_NOT_SUPPORTED
    | INVALID_AGENT_RESPONSE
    | AUTHENTICATED_EXTENDED_CARD_NOT_CONFIGURED

  /** The class-level `CODE` of each domain error class. */
  function CodeFor(k: A2AErrorKind): A2AErrorCode {
    match k
    case TaskNotFound => TASK_NOT_FOUND
    case TaskNotCancelable => TASK_NOT_CANCELABLE
    case PushNotificationsNotSupported => PUSH_NOTIFICATIONS_NOT_SUPPORTED
    case UnsupportedOperation => UNSUPPORTED_OPERATION
    case ContentTypeNotSupported => CONTENT_TYPE_NOT_SUPPORTED
    case InvalidAgentResponse => INVALID_AGENT_RESPONSE
    case AuthenticatedExtendedCardNotConfigured => AUTHENTICATED_EXTENDED_CARD_NOT_CONFIGURED
  }

  /** The inverse of the class table: the one domain error class bound to a code member. */
  function KindFor(c: A2AErrorCode): (k: A2AErrorKind)
    ensures CodeFor(k) == c
  {
    match c
    case TASK_NOT_FOUND => TaskNotFound
    case TASK_NOT_CANCELABLE => TaskNotCancelable
    case PUSH_NOTIFICATIONS_NOT_SUPPORTED => PushNotificationsNotSupported
    case UNSUPPORTED_OPERATION => UnsupportedOperation
    case CONTENT_TYPE_NOT_SUPPORTED => ContentTypeNotSupported
    case INVALID_AGENT_RESPONSE => InvalidAgentResponse
    case AUTHENTICATED_EXTENDED_CARD_NOT_CONFIGURED => AuthenticatedExtendedCardNotConfigured
  }

  /** No two domain error classes share a code member, and every member belongs to a class. */
  lemma CodeForBijective(k1: A2AErrorKind, k2: A2AErrorKind)
    ensures CodeFor(k1) == CodeFor(k2) ==> k1 == k2
    ensures KindFor(CodeFor(k1)) == k1
  {
  }

  /**
   * The part of the test suite's own copy of the class table that it declares:
   * four of the seven classes.
   */
  function TestSuiteCodeFor(k: A2AErrorKind): Option<A2AErrorCode> {
    match k
    case TaskNotFound => Some(TASK_NOT_FOUND)
    case TaskNotCancelable => Some(TASK_NOT_CANCELABLE)
    case PushNotificationsNotSupported => Some(PUSH_NOTIFICATIONS_NOT_SUPPORTED)
    case UnsupportedOperation => Some(UNSUPPORTED_OPERATION)
    case _ => None
  }

  /** Where the test suite's copy binds a class, it binds it to the same member as the source. */
  lemma TestSuiteTableAgrees(k: A2AErrorKind)
    ensures TestSuiteCodeFor(k).Some? ==> TestSuiteCodeFor(k) == Some(CodeFor(k))
    ensures TestSuiteCodeFor(k).Some? <==> k in {TaskNotFound, TaskNotCancelable, PushNotificationsNotSupported, UnsupportedOperation}
  {
  }

  /** Every error class of the protocol: the four base JSON-RPC classes the dispatcher uses and the domain classes. */
  datatype ErrorKind =
    | ParseError
    | InvalidRequestError
    | MethodNotFoundError
    | InternalError
    | Domain(kind: A2AErrorKind)

  /**
   * The integers behind the codes. Only three of them are fixed by what this model covers;
   * the rest are parameters, constrained by `ValidTable` to be pairwise distinct.
   */
  datatype CodeTable = CodeTable(
    parse: int,
    invalidRequest: int,
    methodNotFound: int,
    internal: int,
    taskNotFound: int,
    taskNotCancelable: int,
    pushNotificationsNotSupported: int,
    unsupportedOperation: int,
    contentTypeNotSupported: int,
    invalidAgentResponse: int,
    authenticatedExtendedCardNotConfigured: int)

  /** The integer value of an `A2AErrorCode` member. */
  function A2AValue(t: CodeTable, c: A2AErrorCode): int {
    match c
    case TASK_NOT_FOUND => t.taskNotFound
    case TASK_NOT_CANCELABLE => t.taskNotCancelable
    case PUSH_NOTIFICATIONS_NOT_SUPPORTED => t.pushNotificationsNotSupported
    case UNSUPPORTED_OPERATION => t.unsupportedOperation
    case CONTENT_TYPE_NOT_SUPPORTED => t.contentTypeNotSupported
    case INVALID_AGENT_RESPONSE => t.invalidAgentResponse
    case AUTHENTICATED_EXTENDED_CARD_NOT_CONFIGURED => t.authenticatedExtendedCardNotConfigured
  }

  /** The integer `CODE` of an error class. */
  function Code(t: CodeTable, k: ErrorKind): int {
    match k
    case ParseError => t.parse
    case InvalidRequestError => t.invalidRequest
    case MethodNotFoundError => t.methodNotFound
    case InternalError => t.internal
    case Domain(a) => A2AValue(t, CodeFor(a))
  }

  /** All eleven code values, in declaration order. */
  function AllCodes(t: CodeTable): seq<int> {
    [t.parse, t.invalidRequest, t.methodNotFound, t.internal,
     t.taskNotFound, t.taskNotCancelable, t.pushNotificationsNotSupported, t.unsupportedOperation,
     t.contentTypeNotSupported, t.invalidAgentResponse, t.authenticatedExtendedCardNotConfigured]
  }

  /**
   * A code table the code base could have: every class owns its own integer, and the three
   * values the tests pin down are the ones they expect (section 5.1 of the JSON-RPC 2.0
   * Specification fixes -32600 and -32601).
   */
  predicate ValidTable(t: CodeTable) {
    && (forall i, j :: 0 <= i < j < |AllCodes(t)| ==> AllCodes(t)[i] != AllCodes(t)[j])
    && t.invalidRequest == -32600
    && t.methodNotFound == -32601
    && t.pushNotificationsNotSupported == -32003
  }

  /** The position of each class's code in `AllCodes`. */
  function Position(k: ErrorKind): (p: nat)
    ensures p < 11
  {
    match k
    case ParseError => 0
    case InvalidRequestError => 1
    case MethodNotFoundError => 2
    case InternalError => 3
    case Domain(TaskNotFound) => 4
    case Domain(TaskNotCancelable) => 5
    case Domain(PushNotificationsNotSupported) => 6
    case Domain(UnsupportedOperation) => 7
    case Domain(ContentTypeNotSupported) => 8
    case Domain(InvalidAgentResponse) => 9
    case Domain(AuthenticatedExtendedCardNotConfigured) => 10
  }

  /** Under a valid table no two error classes share an integer code. */
  lemma CodeInjective(t: CodeTable, k1: ErrorKind, k2: ErrorKind)
    requires ValidTable(t)
    ensures Code(t, k1) == Code(t, k2) ==> k1 == k2
  {
    var codes := AllCodes(t);
    assert codes[Position(k1)] == Code(t, k1);
    assert codes[Position(k2)] == Code(t, k2);
    if Position(k1) < Position(k2) {
      assert codes[Position(k1)] != codes[Position(k2)];
    } else if Position(k2) < Position(k1) {
      assert codes[Position(k2)] != codes[Position(k1)];
    }
  }

  /** The class owning an integer code, if any: the numeric inverse of `Code`. */
  function KindForCode(t: CodeTable, n: int): (r: Option<ErrorKind>)
    ensures r.Some? ==> Code(t, r.value) == n
    ensures r.None? ==> n !in AllCodes(t)
  {
    if n == t.parse then Some(ParseError)
    else if n == t.invalidRequest then Some(InvalidRequestError)
    else if n == t.methodNotFound then Some(MethodNotFoundError)
    else if n == t.internal then Some(InternalError)
    else if n == t.taskNotFound then Some(Domain(TaskNotFound))
    else if n == t.taskNotCancelable then Some(Domain(TaskNotCancelable))
    else if n == t.pushNotificationsNotSupported then Some(Domain(PushNotificationsNotSupported))
    else if n == t.unsupportedOperation then Some(Domain(UnsupportedOperation))
    else if n == t.contentTypeNotSupported then Some(Domain(ContentTypeNotSupported))
    else if n == t.invalidAgentResponse then Some(Domain(InvalidAgentResponse))
    else if n == t.authenticatedExtendedCardNotConfigured then Some(Domain(AuthenticatedExtendedCardNotConfigured))
    else None
  }

  /** Every class's code maps back to exactly that class. */
  lemma KindForCodeRoundTrip(t: CodeTable, k: ErrorKind)
    requires ValidTable(t)
    ensures KindForCode(t, Code(t, k)) == Some(k)
  {
    var r := KindForCode(t, Code(t, k));
    CodeInjective(t, r.value, k);
  }

  /** An instance of a `JSONRPCError` subclass: its class, the caller's message and optional data. */
  datatype RpcError = RpcError(kind: ErrorKind, message: string, data: Option<Value>)

  /** `to_dict()`: the `{code, message}` map, with `data` only when some was given. */
  function ToDict(t: CodeTable, e: RpcError): (d: map<string, Value>)
    ensures d.Keys == {"code", "message"} + (if e.data.Some? then {"data"} else {})
    ensures d["code"] == Num(Code(t, e.kind)) && d["message"] == Str(e.message)
    ensures e.data.Some? ==> d["data"] == e.data.value
  {
    var base := map["code" := Num(Code(t, e.kind)), "message" := Str(e.message)];
    if e.data.Some? then base["data" := e.data.value] else base
  }

  /**
   * A domain error serialises through the same shape as every other error, and its code is
   * the class constant: two instances of one class with different messages and data carry the
   * same code, and instances of different classes carry different codes.
   */
  lemma DomainCodeIsClassConstant(t: CodeTable, k1: A2AErrorKind, k2: A2AErrorKind,
                                  m1: string, m2: string, d1: Option<Value>, d2: Option<Value>)
    requires ValidTable(t)
    ensures var e1, e2 := ToDict(t, RpcError(Domain(k1), m1, d1)), ToDict(t, RpcError(Domain(k2), m2, d2));
            e1["code"] == e2["code"] <==> k1 == k2
  {
    CodeInjective(t, Domain(k1), Domain(k2));
  }

  /** `PushNotificationsNotSupportedError(msg).to_dict()` carries code -32003 and the message. */
  lemma PushNotificationsNotSupportedToDict(t: CodeTable, msg: string)
    requires ValidTable(t)
    ensures var d := ToDict(t, RpcError(Domain(PushNotificationsNotSupported), msg, None));
            d == map["code" := Num(-32003), "message" := Str(msg)]
  {
  }
}
