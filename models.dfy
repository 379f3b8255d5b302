/**
 * The envelope (Request, Response) and the domain value objects (task states and parameters,
 * message parts, push-notification configuration, agent skill and card). Each object is a
 * value; construction from keyword arguments either yields it, with the declared defaults
 * filled in, or fails with the set of fields that did not validate.
 */
module Models {

  import opened Wrappers
  import opened Json

  /** A free-form `metadata` dictionary. */
  type Metadata = map<string, Value>

  /** A construction-time validation failure, naming the fields that are missing or malformed. */
  datatype ValidationError = ValidationError(fields: set<string>)

  /** A required keyword argument: its name and whether the caller gave it. */
  datatype Required = Required(name: string, given: bool)

  /** The names of the required arguments that were not given. */
  function Missing(req: seq<Required>): (m: set<string>)
    ensures forall k :: 0 <= k < |req| && !req[k].given ==> req[k].name in m
    ensures forall n :: n in m ==> exists k :: 0 <= k < |req| && req[k].name == n && !req[k].given
  {
    set k | 0 <= k < |req| && !req[k].given :: req[k].name
  }

  /** No two required arguments share a name. */
  predicate DistinctNames(req: seq<Required>) {
    forall i, j :: 0 <= i < j < |req| ==> req[i].name != req[j].name
  }

  /** Every required argument was given. */
  predicate AllGiven(req: seq<Required>) {
    forall k :: 0 <= k < |req| ==> req[k].given
  }

  /** Nothing is reported missing exactly when everything was given. */
  lemma MissingEmpty(req: seq<Required>)
    ensures Missing(req) == {} <==> AllGiven(req)
  {
    if !AllGiven(req) {
      var k :| 0 <= k < |req| && !req[k].given;
      assert req[k].name in Missing(req);
    }
  }

  /** With distinct names, an argument is reported missing exactly when it was not given. */
  lemma MissingExactly(req: seq<Required>)
    requires DistinctNames(req)
    ensures forall k :: 0 <= k < |req| ==> (req[k].name in Missing(req) <==> !req[k].given)
  {
    forall k | 0 <= k < |req| && req[k].name in Missing(req)
      ensures !req[k].given
    {
      var j :| 0 <= j < |req| && req[j].name == req[k].name && !req[j].given;
      assert j == k;
    }
  }

  /** The only JSON-RPC version the envelope speaks. */
  const JsonRpcVersion: string := "2.0"

  // ---------------------------------------------------------------- Request

  /** A JSON-RPC request; with no `id` it is a notification. */
  datatype Request = Request(id: Option<Id>, methodName: string, params: Value) {
    function JsonRpc(): string { JsonRpcVersion }
    predicate IsNotification() { id.None? }
  }

  /** `Request(id=..., method=..., params=...)`: `method` is required, `id` and `params` default to None. */
  function NewRequest(id: Option<Id>, methodName: Option<string>, params: Value): (r: Result<Request, ValidationError>)
    ensures r.Ok? <==> methodName.Some?
    ensures r.Ok? ==> r.value.JsonRpc() == "2.0" && r.value.id == id
                      && r.value.methodName == methodName.value && r.value.params == params
    ensures r.Err? ==> r.error.fields == {"method"}
  {
    if methodName.None? then Err(ValidationError({"method"}))
    else Ok(Request(id, methodName.value, params))
  }

  /** `model_dump(exclude_none=True)`: the wire dictionary, without the fields that are None. */
  function DumpRequest(r: Request): (d: map<string, Value>)
    ensures d.Keys == {"jsonrpc", "method"} + (if r.id.Some? then {"id"} else {})
                      + (if r.params != Null then {"params"} else {})
    ensures forall k :: k in d ==> d[k] != Null
    ensures d["jsonrpc"] == Str("2.0") && d["method"] == Str(r.methodName)
    ensures "id" in d ==> d["id"] == IdValue(r.id)
    ensures "params" in d ==> d["params"] == r.params
  {
    var d := map["jsonrpc" := Str(r.JsonRpc()), "method" := Str(r.methodName)];
    var d := if r.id.Some? then d["id" := IdValue(r.id)] else d;
    if r.params != Null then d["params" := r.params] else d
  }

  /**
   * The notification shape: a request and the notification with the same method and params
   * dump to the same dictionary except that the notification has no `id` key.
   */
  lemma NotificationDumpDropsId(id: Id, methodName: string, params: Value)
    ensures "id" !in DumpRequest(Request(None, methodName, params))
    ensures DumpRequest(Request(None, methodName, params)) == DumpRequest(Request(Some(id), methodName, params)) - {"id"}
  {
    var n, q := DumpRequest(Request(None, methodName, params)), DumpRequest(Request(Some(id), methodName, params));
    assert n.Keys == q.Keys - {"id"};
  }

  // ---------------------------------------------------------------- Response

  /** A JSON-RPC response; `result` is any value (None is `Null`), `error` an optional error dictionary. */
  datatype Response = Response(id: Option<Id>, result: Value, error: Option<map<string, Value>>) {
    function JsonRpc(): string { JsonRpcVersion }
  }

  /**
   * `Response(id=..., result=..., error=...)`: the `id` keyword is required (though it may be
   * None); `result` and `error` default to None and are set independently.
   * `id` is `None` when the keyword is omitted and `Some(None)` when it is given as None.
   */
  function NewResponse(id: Option<Option<Id>>, result: Value, error: Option<map<string, Value>>)
    : (r: Result<Response, ValidationError>)
    ensures r.Ok? <==> id.Some?
    ensures r.Ok? ==> r.value.JsonRpc() == "2.0" && r.value.id == id.value
                      && r.value.result == result && r.value.error == error
    ensures r.Err? ==> r.error.fields == {"id"}
  {
    if id.None? then Err(ValidationError({"id"}))
    else Ok(Response(id.value, result, error))
  }

  /** `model_dump()`: every field, None ones as null. */
  function DumpResponse(r: Response): (d: map<string, Value>)
    ensures d.Keys == {"jsonrpc", "id", "result", "error"}
    ensures d["jsonrpc"] == Str("2.0") && d["id"] == IdValue(r.id) && d["result"] == r.result
    ensures d["error"] == if r.error.Some? then Obj(r.error.value) else Null
  {
    map["jsonrpc" := Str(r.JsonRpc()), "id" := IdValue(r.id), "result" := r.result,
        "error" := if r.error.Some? then Obj(r.error.value) else Null]
  }

  /** The full dump loses nothing: two responses with the same dump are the same response. */
  lemma DumpResponseInjective(r1: Response, r2: Response)
    requires DumpResponse(r1) == DumpResponse(r2)
    ensures r1 == r2
  {
    var d1, d2 := DumpResponse(r1), DumpResponse(r2);
    assert d1["id"] == d2["id"] && d1["result"] == d2["result"] && d1["error"] == d2["error"];
    match r1.id
    case None =>
    case Some(StrId(s)) => assert d2["id"] == Str(s);
    case Some(NumId(n)) => assert d2["id"] == Num(n);
  }

  // ---------------------------------------------------------------- Tasks

  /** The lifecycle states of a task. */
  datatype TaskState =
    | Submitted | Working | InputRequired | Completed | Canceled
    | Failed | Rejected | AuthRequired | Unknown

  /** The enumeration value each state has on the wire. */
  function StateWire(s: TaskState): string {
    match s
    case Submitted => "submitted"
    case Working => "working"
    case InputRequired => "input-required"
    case Completed => "completed"
    case Canceled => "canceled"
    case Failed => "failed"
    case Rejected => "rejected"
    case AuthRequired => "auth-required"
    case Unknown => "unknown"
  }

  /** `TaskState(value)`: the state whose wire string is `w`, if any. */
  function StateFromWire(w: string): (r: Option<TaskState>)
    ensures r.Some? ==> StateWire(r.value) == w
  {
    match w
    case "submitted" => Some(Submitted)
    case "working" => Some(Working)
    case "input-required" => Some(InputRequired)
    case "completed" => Some(Completed)
    case "canceled" => Some(Canceled)
    case "failed" => Some(Failed)
    case "rejected" => Some(Rejected)
    case "auth-required" => Some(AuthRequired)
    case "unknown" => Some(Unknown)
    case _ => None
  }

  /** The nine states have nine distinct wire strings, and each wire string reads back as its state. */
  lemma StateWireRoundTrip(s: TaskState, t: TaskState)
    ensures StateFromWire(StateWire(s)) == Some(s)
    ensures StateWire(s) == StateWire(t) ==> s == t
  {
    assert StateFromWire(StateWire(t)) == Some(t);
  }

  /** The author of a message. */
  datatype Role = User | Agent

  /** A message: its author and its ordered parts. */
  datatype Message = Message(role: Role, parts: seq<Part>, metadata: Option<Metadata>)

  /** The status of a task: its state, an optional message and an optional ISO 8601 timestamp. */
  datatype TaskStatus = TaskStatus(state: TaskState, message: Option<Message>, timestamp: Option<string>)

  /** `TaskStatus(state=..., ...)`: `state` is required, `message` and `timestamp` default to None. */
  function NewTaskStatus(state: Option<TaskState>, message: Option<Message>, timestamp: Option<string>)
    : (r: Result<TaskStatus, ValidationError>)
    ensures r.Ok? <==> state.Some?
    ensures r.Ok? ==> r.value.state == state.value && r.value.message == message && r.value.timestamp == timestamp
    ensures r.Err? ==> r.error.fields == {"state"}
  {
    if state.None? then Err(ValidationError({"state"}))
    else Ok(TaskStatus(state.value, message, timestamp))
  }

  /** Parameters naming one task. */
  datatype TaskIdParams = TaskIdParams(id: string, metadata: Option<Metadata>)

  /** `TaskIdParams(id=..., metadata=...)`: `id` is required, `metadata` defaults to None. */
  function NewTaskIdParams(id: Option<string>, metadata: Option<Metadata>): (r: Result<TaskIdParams, ValidationError>)
    ensures r.Ok? <==> id.Some?
    ensures r.Ok? ==> r.value.id == id.value && r.value.metadata == metadata
    ensures r.Err? ==> r.error.fields == {"id"}
  {
    if id.None? then Err(ValidationError({"id"}))
    else Ok(TaskIdParams(id.value, metadata))
  }

  /** Parameters of a task query. */
  datatype TaskQueryParams = TaskQueryParams(id: string, historyLength: Option<int>, metadata: Option<Metadata>)

  /** `TaskQueryParams(id=..., ...)`: `id` is required, `historyLength` and `metadata` default to None. */
  function NewTaskQueryParams(id: Option<string>, historyLength: Option<int>, metadata: Option<Metadata>)
    : (r: Result<TaskQueryParams, ValidationError>)
    ensures r.Ok? <==> id.Some?
    ensures r.Ok? ==> r.value.id == id.value && r.value.historyLength == historyLength && r.value.metadata == metadata
    ensures r.Err? ==> r.error.fields == {"id"}
  {
    if id.None? then Err(ValidationError({"id"}))
    else Ok(TaskQueryParams(id.value, historyLength, metadata))
  }

  // ---------------------------------------------------------------- Push notifications

  /** How a push-notification receiver authenticates the sender. */
  datatype AuthenticationInfo = AuthenticationInfo(schemes: seq<string>, credentials: Option<string>)

  /** Where and how to deliver push notifications for a task. */
  datatype PushNotificationConfig =
    PushNotificationConfig(id: Option<string>, url: string, token: Option<string>, authentication: Option<AuthenticationInfo>)

  /** `PushNotificationConfig(url=..., ...)`: `url` is required; `id`, `token` and `authentication` default to None. */
  function NewPushNotificationConfig(id: Option<string>, url: Option<string>, token: Option<string>,
                                     authentication: Option<AuthenticationInfo>)
    : (r: Result<PushNotificationConfig, ValidationError>)
    ensures r.Ok? <==> url.Some?
    ensures r.Ok? ==> r.value.url == url.value && r.value.id == id && r.value.token == token
                      && r.value.authentication == authentication
    ensures r.Err? ==> r.error.fields == {"url"}
  {
    if url.None? then Err(ValidationError({"url"}))
    else Ok(PushNotificationConfig(id, url.value, token, authentication))
  }

  /** A push-notification configuration bound to a task. */
  datatype TaskPushNotificationConfig = TaskPushNotificationConfig(taskId: string, pushNotificationConfig: PushNotificationConfig)

  /** The required arguments of `TaskPushNotificationConfig`. */
  function TaskPushRequired(taskId: Option<string>, config: Option<PushNotificationConfig>): (req: seq<Required>)
    ensures DistinctNames(req)
    ensures AllGiven(req) <==> taskId.Some? && config.Some?
  {
    var req := [Required("taskId", taskId.Some?), Required("pushNotificationConfig", config.Some?)];
    assert req[0].given == taskId.Some? && req[1].given == config.Some?;
    req
  }

  /** `TaskPushNotificationConfig(taskId=..., pushNotificationConfig=...)`: both fields are required. */
  function NewTaskPushNotificationConfig(taskId: Option<string>, config: Option<PushNotificationConfig>)
    : (r: Result<TaskPushNotificationConfig, ValidationError>)
    ensures r.Ok? <==> taskId.Some? && config.Some?
    ensures r.Ok? ==> r.value.taskId == taskId.value && r.value.pushNotificationConfig == config.value
    ensures var req := TaskPushRequired(taskId, config);
            r.Err? ==> && r.error.fields == Missing(req)
                       && forall k :: 0 <= k < |req| ==> (req[k].name in r.error.fields <==> !req[k].given)
  {
    var req := TaskPushRequired(taskId, config);
    MissingEmpty(req);
    MissingExactly(req);
    if !AllGiven(req) then Err(ValidationError(Missing(req)))
    else Ok(TaskPushNotificationConfig(taskId.value, config.value))
  }

  // ---------------------------------------------------------------- Parts

  /** The content of a file part: inline base64 `bytes`, a `uri`, or both, with optional name and MIME type. */
  datatype FileContent = FileContent(name: Option<string>, mimeType: Option<string>, bytes: Option<string>, uri: Option<string>)

  /** One unit of message or artifact content, tagged text, file or data. */
  datatype Part =
    | TextPart(text: string, metadata: Option<Metadata>)
    | FilePart(file: FileContent, metadata: Option<Metadata>)
    | DataPart(data: map<string, Value>, metadata: Option<Metadata>)

  /** The `kind` tag a part carries on the wire. */
  function Kind(p: Part): string {
    match p
    case TextPart(_, _) => "text"
    case FilePart(_, _) => "file"
    case DataPart(_, _) => "data"
  }

  /** Each part carries exactly one tag, and the tag tells which variant it is. */
  lemma KindDeterminesVariant(p: Part)
    ensures Kind(p) == "text" <==> p.TextPart?
    ensures Kind(p) == "file" <==> p.FilePart?
    ensures Kind(p) == "data" <==> p.DataPart?
  {
  }

  /** The `kind` field failed: it is missing or is not the part's literal tag. */
  function BadTag(kind: Option<string>, tag: string): set<string> {
    if kind != Some(tag) then {"kind"} else {}
  }

  /** `TextPart(kind=..., text=..., metadata=...)`: `kind` must be "text" and `text` is required. */
  function NewTextPart(kind: Option<string>, text: Option<string>, metadata: Option<Metadata>)
    : (r: Result<Part, ValidationError>)
    ensures r.Ok? <==> kind == Some("text") && text.Some?
    ensures r.Ok? ==> r.value == TextPart(text.value, metadata) && Kind(r.value) == kind.value
    ensures r.Err? ==> ("kind" in r.error.fields <==> kind != Some("text"))
                       && ("text" in r.error.fields <==> text.None?)
                       && r.error.fields <= {"kind", "text"}
  {
    var bad := BadTag(kind, "text") + (if text.None? then {"text"} else {});
    if bad != {} then Err(ValidationError(bad))
    else Ok(TextPart(text.value, metadata))
  }

  /** A file payload must carry inline bytes or a URI; both together are not rejected. */
  predicate ValidFileContent(f: FileContent) {
    f.bytes.Some? || f.uri.Some?
  }

  /** `FilePart(kind=..., file=..., metadata=...)`: `kind` must be "file" and `file` must be a valid payload. */
  function NewFilePart(kind: Option<string>, file: Option<FileContent>, metadata: Option<Metadata>)
    : (r: Result<Part, ValidationError>)
    ensures r.Ok? <==> kind == Some("file") && file.Some? && ValidFileContent(file.value)
    ensures r.Ok? ==> r.value == FilePart(file.value, metadata) && Kind(r.value) == kind.value
    ensures r.Err? ==> ("kind" in r.error.fields <==> kind != Some("file"))
                       && ("file" in r.error.fields <==> file.None? || !ValidFileContent(file.value))
                       && r.error.fields <= {"kind", "file"}
  {
    var badFile := if file.None? || !ValidFileContent(file.value) then {"file"} else {};
    var bad := BadTag(kind, "file") + badFile;
    if bad != {} then Err(ValidationError(bad))
    else Ok(FilePart(file.value, metadata))
  }

  /** `DataPart(kind=..., data=..., metadata=...)`: `kind` must be "data" and `data` is required. */
  function NewDataPart(kind: Option<string>, data: Option<map<string, Value>>, metadata: Option<Metadata>)
    : (r: Result<Part, ValidationError>)
    ensures r.Ok? <==> kind == Some("data") && data.Some?
    ensures r.Ok? ==> r.value == DataPart(data.value, metadata) && Kind(r.value) == kind.value
    ensures r.Err? ==> ("kind" in r.error.fields <==> kind != Some("data"))
                       && ("data" in r.error.fields <==> data.None?)
                       && r.error.fields <= {"kind", "data"}
  {
    var bad := BadTag(kind, "data") + (if data.None? then {"data"} else {});
    if bad != {} then Err(ValidationError(bad))
    else Ok(DataPart(data.value, metadata))
  }

  // ---------------------------------------------------------------- Agent description

  /** A security requirement: scheme name to the scopes it needs. */
  type SecurityRequirement = map<string, seq<string>>

  /** One capability an agent advertises. */
  datatype AgentSkill = AgentSkill(
    id: string, name: string, description: string, tags: seq<string>,
    examples: Option<seq<string>>, inputModes: Option<seq<string>>, outputModes: Option<seq<string>>,
    security: Option<seq<SecurityRequirement>>)

  /** The required arguments of `AgentSkill`. */
  function SkillRequired(id: Option<string>, name: Option<string>, description: Option<string>, tags: Option<seq<string>>)
    : (req: seq<Required>)
    ensures DistinctNames(req)
    ensures AllGiven(req) <==> id.Some? && name.Some? && description.Some? && tags.Some?
  {
    var req := [Required("id", id.Some?), Required("name", name.Some?), Required("description", description.Some?),
                Required("tags", tags.Some?)];
    assert req[0].given == id.Some? && req[1].given == name.Some? && req[2].given == description.Some?
           && req[3].given == tags.Some?;
    req
  }

  /** `AgentSkill(...)`: `id`, `name`, `description` and `tags` are required; the rest default to None. */
  function NewAgentSkill(id: Option<string>, name: Option<string>, description: Option<string>, tags: Option<seq<string>>,
                         examples: Option<seq<string>>, inputModes: Option<seq<string>>, outputModes: Option<seq<string>>,
                         security: Option<seq<SecurityRequirement>>)
    : (r: Result<AgentSkill, ValidationError>)
    ensures r.Ok? <==> id.Some? && name.Some? && description.Some? && tags.Some?
    ensures r.Ok? ==> && r.value.id == id.value && r.value.name == name.value
                      && r.value.description == description.value && r.value.tags == tags.value
                      && r.value.examples == examples && r.value.inputModes == inputModes
                      && r.value.outputModes == outputModes && r.value.security == security
    ensures var req := SkillRequired(id, name, description, tags);
            r.Err? ==> && r.error.fields == Missing(req)
                       && forall k :: 0 <= k < |req| ==> (req[k].name in r.error.fields <==> !req[k].given)
  {
    var req := SkillRequired(id, name, description, tags);
    MissingEmpty(req);
    MissingExactly(req);
    if !AllGiven(req) then Err(ValidationError(Missing(req)))
    else Ok(AgentSkill(id.value, name.value, description.value, tags.value, examples, inputModes, outputModes, security))
  }

  /** Optional features an agent supports; every field defaults to None. */
  datatype AgentCapabilities = AgentCapabilities(
    streaming: Option<bool>, pushNotifications: Option<bool>, stateTransitionHistory: Option<bool>,
    extensions: Option<seq<Value>>)

  /** The organisation that provides an agent. */
  datatype AgentProvider = AgentProvider(organization: string, url: string)

  /** The transport an agent card names when none is given. */
  const DefaultTransport: string := "JSONRPC"

  /** The self-description an agent publishes. */
  datatype AgentCard = AgentCard(
    name: string, description: string, url: string, version: string, protocolVersion: string,
    capabilities: AgentCapabilities, skills: seq<AgentSkill>,
    defaultInputModes: seq<string>, defaultOutputModes: seq<string>,
    provider: Option<AgentProvider>, documentationUrl: Option<string>, iconUrl: Option<string>,
    preferredTransport: string)

  /** The required arguments of `AgentCard`. */
  function CardRequired(name: Option<string>, description: Option<string>, url: Option<string>,
                        version: Option<string>, protocolVersion: Option<string>,
                        capabilities: Option<AgentCapabilities>, skills: Option<seq<AgentSkill>>,
                        defaultInputModes: Option<seq<string>>, defaultOutputModes: Option<seq<string>>)
    : (req: seq<Required>)
    ensures DistinctNames(req)
    ensures AllGiven(req) <==> (&& name.Some? && description.Some? && url.Some? && version.Some?
                                && protocolVersion.Some? && capabilities.Some? && skills.Some?
                                && defaultInputModes.Some? && defaultOutputModes.Some?)
  {
    var req := [Required("name", name.Some?), Required("description", description.Some?), Required("url", url.Some?),
                Required("version", version.Some?), Required("protocolVersion", protocolVersion.Some?),
                Required("capabilities", capabilities.Some?), Required("skills", skills.Some?),
                Required("defaultInputModes", defaultInputModes.Some?),
                Required("defaultOutputModes", defaultOutputModes.Some?)];
    assert && req[0].given == name.Some? && req[1].given == description.Some? && req[2].given == url.Some?
           && req[3].given == version.Some? && req[4].given == protocolVersion.Some?
           && req[5].given == capabilities.Some? && req[6].given == skills.Some?
           && req[7].given == defaultInputModes.Some? && req[8].given == defaultOutputModes.Some?;
    req
  }

  /**
   * `AgentCard(...)`: the nine descriptive fields are required; `provider`, `documentationUrl`
   * and `iconUrl` default to None and `preferredTransport` to "JSONRPC".
   */
  function NewAgentCard(name: Option<string>, description: Option<string>, url: Option<string>,
                        version: Option<string>, protocolVersion: Option<string>,
                        capabilities: Option<AgentCapabilities>, skills: Option<seq<AgentSkill>>,
                        defaultInputModes: Option<seq<string>>, defaultOutputModes: Option<seq<string>>,
                        provider: Option<AgentProvider>, documentationUrl: Option<string>, iconUrl: Option<string>,
                        preferredTransport: Option<string>)
    : (r: Result<AgentCard, ValidationError>)
    ensures r.Ok? <==> && name.Some? && description.Some? && url.Some? && version.Some?
                       && protocolVersion.Some? && capabilities.Some? && skills.Some?
                       && defaultInputModes.Some? && defaultOutputModes.Some?
    ensures r.Ok? ==> && r.value.name == name.value && r.value.description == description.value
                      && r.value.url == url.value && r.value.version == version.value
                      && r.value.protocolVersion == protocolVersion.value
                      && r.value.capabilities == capabilities.value && r.value.skills == skills.value
                      && r.value.defaultInputModes == defaultInputModes.value
                      && r.value.defaultOutputModes == defaultOutputModes.value
                      && r.value.provider == provider && r.value.documentationUrl == documentationUrl
                      && r.value.iconUrl == iconUrl
                      && r.value.preferredTransport == (if preferredTransport.Some? then preferredTransport.value else "JSONRPC")
    ensures var req := CardRequired(name, description, url, version, protocolVersion, capabilities, skills,
                                    defaultInputModes, defaultOutputModes);
            r.Err? ==> && r.error.fields == Missing(req)
                       && forall k :: 0 <= k < |req| ==> (req[k].name in r.error.fields <==> !req[k].given)
  {
    var req := CardRequired(name, description, url, version, protocolVersion, capabilities, skills,
                            defaultInputModes, defaultOutputModes);
    MissingEmpty(req);
    MissingExactly(req);
    if !AllGiven(req) then Err(ValidationError(Missing(req)))
    else
      var transport := if preferredTransport.Some? then preferredTransport.value else DefaultTransport;
      Ok(AgentCard(name.value, description.value, url.value, version.value, protocolVersion.value,
                   capabilities.value, skills.value, defaultInputModes.value, defaultOutputModes.value,
                   provider, documentationUrl, iconUrl, transport))
  }
}
