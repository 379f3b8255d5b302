# A2A JSON-RPC engine — a Dafny model

This project models the core of `a2a-json-rpc`, a JSON-RPC 2.0 engine for the agent-to-agent
(A2A) task protocol, and proves properties about that model. It covers four parts.

- **Error taxonomy** (`errors.dfy`). Seven A2A domain error classes, each bound to one
  class-level `A2AErrorCode` member. The four base JSON-RPC error classes the dispatcher raises
  (parse, invalid request, method not found, internal) sit beside them. Every error serialises
  through `to_dict()` to `{code, message[, data]}`. The integers behind the codes live in a
  `CodeTable` parameter. `ValidTable` requires those integers to be pairwise distinct. It also
  fixes three values.
  - -32003 is the code the push-notification error serialises to
    (tests/protocol_formats/test_push_notifications.py:138).
  - -32600 (invalid request) and -32601 (method not found) are the values section 5.1 of the
    JSON-RPC 2.0 Specification assigns. They appear in the code base only inside hand-written
    response dictionaries (tests/test_models.py:102, tests/conftest.py:100 and 171).
- **Envelope and value objects** (`models.dfy`).
  - `Request` and `Response`, with their defaults and required fields.
  - The `exclude_none` dump that turns a request without an id into a notification.
  - `TaskState` and its wire strings.
  - Task parameters, push-notification configuration, the three tagged message parts,
    `AgentSkill` and `AgentCard`.

  Each constructor is a function from keyword arguments to `Result<T, ValidationError>`. An
  absent argument is `None`. The error names exactly the fields that failed.
- **Dispatcher** (`protocol.dfy`).
  - `JsonRpcProtocol` is a class holding the handler registry (`methods`). `register` and the
    `method` decorator update it in place.
  - `Dispatch` is a function of the decoded payload and the registry. It classifies the payload
    as one of:
    - malformed JSON;
    - missing method;
    - unknown method;
    - handler raising a protocol error;
    - handler raising any other exception;
    - success;
    - notification.
  - It returns at most one response, together with the trace of handler calls. The outcome
    lemmas are stated about `Dispatch`.
  - `create_request` and `create_notification` build the outgoing dictionaries.
- **Streamed updates** (`streaming.dfy`). A streaming call answers with a sequence of
  responses carrying status updates and artifact chunks.
  - `Accepts` is a state machine with one phase (`Streaming` or `Closed`) per artifact index.
  - `FollowsRules` states the same rules about each position and the history before it.
    - The first chunk of an index does not append, and later ones do.
    - Nothing follows an index's last chunk.
    - A final status ends the stream.
  - `AcceptsIffRules` proves the two descriptions agree. The per-index guarantees are derived
    from it.
  - Both concrete streams of the format tests are checked: send-subscribe, and resubscribe
    starting with index 0 already streaming.

`json.dfy` holds the decoded JSON value type, request ids and a substring test. `wrappers.dfy`
holds `Option` and `Result`.

The engine's own logic files are not part of this model: `protocol.py`, `models.py`,
`spec.py`, `json_rpc_errors.py` and `a2a_error_codes.py`. The dispatcher and the value objects
are modelled from the contracts their tests fix. Where a test leaves a behaviour open, the
model chooses as follows.

- A notification for an unregistered method gets no response, as section 4.1 of the JSON-RPC
  2.0 Specification requires for every notification.
- A handler that raises a `JSONRPCError` subclass has that error sent back with its own code.
- Any other exception becomes an `InternalError` whose message is `"Internal error: "` followed
  by the exception's text.
- Error message texts are fixed only as far as the tests inspect them:
  - `"Invalid JSON payload"`;
  - `"Request validation error"`;
  - `"not found"` together with the method name;
  - `"Internal error"` together with the exception's text.

## Model

| member | source | states |
|---|---|---|
| Errors.KindFor | src/a2a_json_rpc/a2a_errors.py:11-43 | every `A2AErrorCode` member belongs to exactly one domain error class: `CodeFor(KindFor(c)) == c` |
| Errors.CodeForBijective | src/a2a_json_rpc/a2a_errors.py:13-43 | no two of the seven classes reference the same code member, and `KindFor` inverts `CodeFor` |
| Errors.TestSuiteTableAgrees | tests/test_a2a_errors.py:11-27 | the test suite's copy of the table binds exactly TaskNotFound, TaskNotCancelable, PushNotificationsNotSupported and UnsupportedOperation, each to the same member as the source |
| Errors.CodeInjective | src/a2a_json_rpc/a2a_errors.py:11-43 | under a valid code table, no two error classes (base or domain) share an integer code |
| Errors.KindForCode | src/a2a_json_rpc/a2a_errors.py:11-43 | the class owning an integer code: a found class has exactly that code; no class found means the integer is no class's code |
| Errors.KindForCodeRoundTrip | src/a2a_json_rpc/a2a_errors.py:11-43 | each class's code maps back to that class |
| Errors.ToDict | tests/protocol_formats/test_push_notifications.py:131-140 | `to_dict()` has keys `code` and `message`, plus `data` exactly when data was given; `code` is the class code and `message` the caller's text |
| Errors.DomainCodeIsClassConstant | src/a2a_json_rpc/a2a_errors.py:11-43 | two domain error instances serialise to the same code iff they belong to the same class, whatever their messages and data |
| Errors.PushNotificationsNotSupportedToDict | tests/protocol_formats/test_push_notifications.py:131-140 | `PushNotificationsNotSupportedError(msg).to_dict()` is exactly `{code: -32003, message: msg}` |
| Models.NewRequest | tests/test_models.py:35-58 | a request builds iff `method` is given; `jsonrpc` is "2.0", and `id` and `params` are as given (None by default); otherwise the error names just `method` |
| Models.DumpRequest | tests/test_models.py:60-85 | the `exclude_none` dump has `jsonrpc` and `method`, has `id` iff the id is not None and `params` iff the params are not None, carries the given values and holds no null |
| Models.NotificationDumpDropsId | tests/test_models.py:74-85 | a notification dumps to the same dictionary as the request with an id, minus the `id` key |
| Models.NewResponse | tests/test_models.py:87-111 | a response builds iff the `id` keyword is given; `result` and `error` are kept independently as given; otherwise the error names just `id` |
| Models.DumpResponse | tests/test_models.py:113-124 | the full dump always has exactly `jsonrpc`, `id`, `result` and `error`, with null for None |
| Models.DumpResponseInjective | tests/test_models.py:113-124 | the full dump loses nothing: equal dumps come from equal responses |
| Models.StateFromWire | tests/test_models.py:130-140 | reading a wire string gives a state whose wire string it is |
| Models.StateWireRoundTrip | tests/test_models.py:130-140 | the nine states have distinct wire strings, and each reads back as its state |
| Models.NewTaskStatus | tests/test_models.py:142-157 | `state` is required; `message` and `timestamp` are kept as given, None by default |
| Models.NewTaskIdParams | tests/test_models.py:159-173 | builds iff `id` is given; `metadata` defaults to None; otherwise the error names `id` |
| Models.NewTaskQueryParams | tests/test_models.py:175-189 | builds iff `id` is given; `historyLength` and `metadata` default to None |
| Models.NewPushNotificationConfig | tests/test_models.py:195-200 | builds iff `url` is given; `token`, `authentication` and `id` default to None |
| Models.NewTaskPushNotificationConfig | tests/test_models.py:205-217 | builds iff both `taskId` and `pushNotificationConfig` are given; on failure the error names exactly the missing ones |
| Models.KindDeterminesVariant | tests/test_models.py:223-290 | the `kind` tag of a part is "text", "file" or "data" exactly for the matching variant |
| Models.NewTextPart | tests/test_models.py:223-241 | builds iff `kind` is "text" and `text` is given, with metadata defaulting to None; on failure `kind` is reported iff it is wrong and `text` iff it is missing |
| Models.NewFilePart | tests/test_models.py:243-274 | builds iff `kind` is "file" and a file with bytes or a URI is given; on failure `kind` and `file` are each reported iff they failed |
| Models.NewDataPart | tests/test_models.py:276-290 | builds iff `kind` is "data" and `data` is given; on failure `kind` and `data` are each reported iff they failed |
| Models.NewAgentSkill | tests/test_models.py:350-392 | builds iff `id`, `name`, `description` and `tags` are all given; optional fields default to None; on failure exactly the missing required fields are reported |
| Models.NewAgentCard | tests/test_models.py:394-447 | builds iff all nine required fields are given; `provider`, `documentationUrl` and `iconUrl` default to None and `preferredTransport` to "JSONRPC"; on failure exactly the missing required fields are reported |
| Protocol.Dispatch | tests/test_protocol.py:56-143 | no response iff the payload is a valid notification; an answered error carries no result; a success response carries exactly what the registered handler returned; the id is echoed for valid envelopes and null otherwise; a handler is called iff the envelope is valid and its method registered, and then exactly once with the request's params |
| Protocol.HandledRequestReturnsResult | tests/test_protocol.py:56-68 | a request whose handler returns `v` is answered with its own id and `result == v`, after one call with its params |
| Protocol.NotificationIsNotAnswered | tests/test_protocol.py:70-83 | a notification gets no response and calls its registered handler exactly once with its params |
| Protocol.MalformedGetsParseError | tests/test_protocol.py:85-94 | undecodable input gets a null id, the ParseError code and a message containing "Invalid JSON payload"; no handler runs |
| Protocol.MissingMethodGetsInvalidRequest | tests/test_protocol.py:96-105 | a payload without `method` gets a null id even when it had one, the InvalidRequestError code and a message containing "Request validation error" |
| Protocol.UnknownMethodGetsMethodNotFound | tests/test_protocol.py:107-116 | an unregistered method keeps the request's id and gets the MethodNotFoundError code and a message containing "not found" and the method name |
| Protocol.FailingHandlerGetsInternalError | tests/test_protocol.py:118-131 | a handler that raises leaves the id intact and gets the InternalError code, no result, and a message containing "Internal error" and the exception's text |
| Protocol.RaisedDomainErrorPassesThrough | src/a2a_json_rpc/a2a_errors.py:11-43 | a domain error raised by a handler reaches the caller with its class code and message under the request's id; the error classes are defined at the cited lines, while passing them through is this model's dispatcher choice (see above), which the tests do not fix |
| Protocol.TasksGetNotRegistered | tests/conftest.py:137-174 | the sample `tasks/get` request (id 123), sent to a registry without that method, is answered with `jsonrpc` "2.0", id 123, error code -32601, a message containing "not found", and `result: null` in the full dump |
| Protocol.ReRegistrationOverwrites | tests/test_protocol.py:22-38 | after registering a name twice, every payload is handled exactly as if only the second handler had been registered |
| Protocol.CreateRequest | tests/test_protocol.py:40-46 | the request dictionary has `jsonrpc` "2.0" and the given id, method and params, and no other keys; it has no `params` key when params are None |
| Protocol.CreateNotification | tests/test_protocol.py:48-54 | the notification dictionary has no `id` key and equals the request dictionary for any id minus `id` |
| Protocol.JsonRpcProtocol.constructor | tests/test_protocol.py:13-16 | a new protocol has an empty registry |
| Protocol.JsonRpcProtocol.Register | tests/test_protocol.py:22-29 | the registry becomes the old one with `name` bound to exactly `handler` |
| Protocol.JsonRpcProtocol.Method | tests/test_protocol.py:31-38 | the decorator registers the function under `name` and returns that same function |
| Streaming.ChunkStepIffRule | tests/protocol_formats/test_streaming_formats.py:162-181 | the state machine accepts a chunk iff the chunk carries both flags, appends exactly when its index was started, and its index is not closed |
| Streaming.AcceptsIffRules | tests/protocol_formats/test_streaming_formats.py:151-189 | the per-index state machine accepts a stream iff every chunk obeys the chunk rule against its history and only the last event is a final status |
| Streaming.ChunksCarryFlags | tests/protocol_formats/test_streaming_formats.py:162-170 | every chunk of an accepted stream carries `append` and `lastChunk` |
| Streaming.FirstChunkDoesNotAppend | tests/protocol_formats/test_streaming_formats.py:172-173 | the first chunk of an index not started before the stream has `append == false` |
| Streaming.LaterChunksAppend | tests/protocol_formats/test_streaming_formats.py:175-181 | every chunk after the first of its index has `append == true` |
| Streaming.EarlierChunkIsNotLast | tests/protocol_formats/test_streaming_formats.py:175-177 | a chunk followed by another chunk of its index has `lastChunk == false` |
| Streaming.NothingAfterLastChunk | tests/protocol_formats/test_streaming_formats.py:179-181 | no chunk of an index follows the one marked `lastChunk` |
| Streaming.LastChunkIsMarked | tests/protocol_formats/test_streaming_formats.py:179-181 | in a complete stream, the last chunk of each index has `lastChunk == true` |
| Streaming.ResumedIndexAppends | tests/protocol_formats/test_streaming_formats.py:214-249 | in a resubscribe stream, chunks of an index already under way append |
| Streaming.FinalStatusEndsStream | tests/protocol_formats/test_streaming_formats.py:183-189 | a status with `final == true` is the last event; every earlier status is not final |
| Streaming.SendSubscribeEventsComplete | tests/protocol_formats/test_streaming_formats.py:68-189 | the test's event order (working status, three chunks of index 0, final completed status) is a complete stream from a fresh start |
| Streaming.SendSubscribeAsWrittenSwitchesTask | tests/protocol_formats/test_streaming_formats.py:121-149 | as written, the last two results name task `1` rather than the subscribed task, so the stream is about no single task |
| Streaming.SendSubscribeStreamIsValid | tests/protocol_formats/test_streaming_formats.py:68-189 | with one task id throughout, every response has `jsonrpc` "2.0" and request id 1, and the stream is valid and complete |
| Streaming.ResubscribeStreamIsValid | tests/protocol_formats/test_streaming_formats.py:214-249 | the resubscribe stream is valid when index 0 is already streaming, and is rejected from a fresh start |

## Left out

- JSON text parsing and Pydantic's validation machinery are foreign library code. Raw input is the already-decoded `RawMessage`, and each constructor is an explicit `Result`-returning function.
- Asynchronous handlers are not modelled apart from synchronous ones. A handler is a function to an `Outcome`, and awaiting it is invisible in the result.
- The integer values of the base codes and of most A2A codes are parameters of `CodeTable`. Only -32600, -32601 and -32003 are fixed. `a2a_error_codes.py` and `json_rpc_errors.py` are not part of this model.
- Whether an explicit `"id": null` makes a request or a notification is not modelled. An absent id and a null id are both `None`.
- The `jsonrpc` member of an incoming payload is not inspected, and a non-string `method` is not modelled. `RawMessage` carries the method only as an optional string.
- Request ids are strings or integers. Fractional ids are not modelled, and JSON numbers in general are integers only.
- `Protocol.CreateRequest` takes the id as an argument. Generating a fresh id when none is given (uuid) is not modelled.
- Error message texts are fixed only to the extent shown above. The exact wording of `protocol.py` is not part of this model.
- Pydantic's `exclude_none` also drops None members nested inside `params`. `Models.DumpRequest` keeps `params` as given.
- `Models.NewAgentSkill` does not require `tags` to be non-empty.
- `Models.NewAgentCard` covers the fields the tests use. `securitySchemes`, `security`, `additionalInterfaces`, `signatures` and similar optional card fields are left out.
- `Message` and `Artifact` construction are left out because their tests are skipped. `Message` and `Artifact` exist only as values, so the `Artifact` defaults (index 0, append and lastChunk None) are not modelled.
- `AgentCapabilities` has no builder. All of its fields are optional and default to None, so construction cannot fail.
- `Streaming.Complete` does not require the final status to be `completed`. The test stream ends completed, but a failed or canceled final status ends a stream just as well.
- The streaming model checks the order of events and responses. The parts inside a chunk and the status timestamps are carried but not checked.
- The format-only tests that check keys of hand-written dictionaries are not modelled. These are the task, conversation, agent card and push-notification format tests, except the `to_dict` check.
- Timestamps, UUID generation, logging, transport, push-notification delivery and task persistence are not modelled, since none of them is logic of this engine.

## Findings

| source | as written | input that shows it | evidently intended | confidence | as-written member | corrected member |
|---|---|---|---|---|---|---|
| tests/protocol_formats/test_streaming_formats.py:125 | the fourth and fifth streamed results of the send-subscribe sequence carry `"id": 1`, while the first three carry the subscribed task's id | the send-subscribe sequence of the streaming format test | every result of one stream names the subscribed task | not executed; high that the literal `1` is a slip, since the request id is 1 | Streaming.SendSubscribeAsWrittenSwitchesTask | Streaming.SendSubscribeStreamIsValid |
