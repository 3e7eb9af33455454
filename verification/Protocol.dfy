/** The request handler and the versioned snapshot state of the server (src/protocol.rs). A line
    comes in already parsed; a snapshot read is a parameter. */
module Protocol {
  import opened Wrappers
  import opened Model
  import opened Deltas

  // ---------------------------------------------------------------- messages

  datatype Json =
    | Null | Bool(b: bool) | Number(n: int) | String(s: string) | Array(elements: seq<Json>) | Object(members: map<string, Json>)

  const PARSE_ERROR := -32700
  const INVALID_REQUEST := -32600
  const INVALID_PARAMS := -32602
  const METHOD_NOT_FOUND := -32601
  const INTERNAL_ERROR := -32603

  datatype ErrorObject = ErrorObject(code: int, message: string, data: Option<string>)

  datatype SnapshotParams = SnapshotParams(version: nat, snapshot: RepositorySnapshot)

  datatype DeltaParams = DeltaParams(previousVersion: nat, version: nat, delta: SnapshotDelta, patch: SnapshotPatch)

  datatype Payload =
    | CapabilitiesPayload
    | SnapshotPayload(snapshot: RepositorySnapshot)
    | BaselinePayload(baseline: SnapshotParams)
    | SubscribedPayload(subscribed: bool)

  datatype NotificationParams = SnapshotNote(baseline: SnapshotParams) | DeltaNote(delta: DeltaParams) | GoodbyeNote(reason: string)

  datatype ServerMessage =
    | Response(result: Option<Payload>, error: Option<ErrorObject>, id: Json)
    | Notification(name: string, params: NotificationParams)

  function SuccessResponse(id: Json, result: Payload): ServerMessage {
    Response(Some(result), None, id)
  }

  function ErrorResponse(id: Json, error: ErrorObject): ServerMessage {
    Response(None, Some(error), id)
  }

  function SnapshotNotification(params: SnapshotParams): ServerMessage {
    Notification("gitseer/snapshot", SnapshotNote(params))
  }

  function DeltaNotification(params: DeltaParams): ServerMessage {
    Notification("gitseer/delta", DeltaNote(params))
  }

  // ---------------------------------------------------------------- the state as a value

  datatype Process = Process(subscribed: bool, latest: Option<RepositorySnapshot>, version: nat)

  function RecordBaseline(p: Process, snapshot: RepositorySnapshot): (Process, SnapshotParams) {
    (p.(latest := Some(snapshot), version := p.version + 1), SnapshotParams(p.version + 1, snapshot))
  }

  function RecordUpdate(p: Process, snapshot: RepositorySnapshot): (Process, Option<DeltaParams>) {
    if p.latest.None? then (RecordBaseline(p, snapshot).0, None)
    else
      var delta := SnapshotDeltaOf(p.latest.value, snapshot);
      if !delta.HasChanges() then (p.(latest := Some(snapshot)), None)
      else
        (p.(latest := Some(snapshot), version := p.version + 1),
         Some(DeltaParams(p.version, p.version + 1, delta, FromDelta(snapshot, delta))))
  }

  /** `snapshot_update_messages` */
  function Update(p: Process, snapshot: RepositorySnapshot): (Process, seq<ServerMessage>) {
    if p.latest.None? then
      var (next, params) := RecordBaseline(p, snapshot);
      (next, [SnapshotNotification(params)])
    else
      var (next, delta) := RecordUpdate(p, snapshot);
      (next, if delta.Some? then [DeltaNotification(delta.value)] else [])
  }

  // ---------------------------------------------------------------- requests

  datatype Request = Request(name: string, params: Option<Json>, id: Option<Json>)

  predicate ValidRequestId(id: Json) { id.Null? || id.String? || id.Number? }

  function Member(o: map<string, Json>, key: string): Option<Json> {
    if key in o then Some(o[key]) else None
  }

  function InvalidRequest(id: Json, detail: string): seq<ServerMessage> {
    [ErrorResponse(id, ErrorObject(INVALID_REQUEST, "invalid request", Some(detail)))]
  }

  predicate HasVersion(o: map<string, Json>) { Member(o, "jsonrpc") == Some(String("2.0")) }

  predicate HasMethod(o: map<string, Json>) { Member(o, "method").Some? && o["method"].String? }

  predicate HasBadId(o: map<string, Json>) { "id" in o && !ValidRequestId(o["id"]) }

  predicate HasBadParams(o: map<string, Json>) {
    "params" in o && !o["params"].Null? && !o["params"].Object? && !o["params"].Array?
  }

  /** An optional member into an `Option<Value>`: absent and null are both `None`. */
  function OptionalValue(o: map<string, Json>, key: string): Option<Json> {
    if key in o && !o[key].Null? then Some(o[key]) else None
  }

  /** `serde_json::from_value::<JsonRpcRequest>` */
  function DeserializeRequest(o: map<string, Json>): Result<Request, string> {
    if Member(o, "jsonrpc").None? then Err("missing field `jsonrpc`")
    else if !o["jsonrpc"].String? then Err("jsonrpc: expected a string")
    else if Member(o, "method").None? then Err("missing field `method`")
    else if !o["method"].String? then Err("method: expected a string")
    else Ok(Request(o["method"].s, OptionalValue(o, "params"), OptionalValue(o, "id")))
  }

  const BAD_PARAMS := ErrorObject(INVALID_PARAMS, "invalid snapshot params", Some("type mismatch"))

  /** `snapshot_options`: the one field may be given by name or by position. */
  function SnapshotOptionsOf(params: Option<Json>): Result<SnapshotOptions, ErrorObject> {
    if params.None? then Ok(DEFAULT_OPTIONS)
    else
      match params.value
      case Null => Ok(DEFAULT_OPTIONS)
      case Object(members) =>
        if "includeIgnored" !in members then Ok(SnapshotOptions(false))
        else if members["includeIgnored"].Bool? then Ok(SnapshotOptions(members["includeIgnored"].b))
        else Err(BAD_PARAMS)
      case Array(elements) =>
        if elements == [] then Ok(SnapshotOptions(false))
        else if |elements| == 1 && elements[0].Bool? then Ok(SnapshotOptions(elements[0].b))
        else Err(BAD_PARAMS)
      case _ => Err(BAD_PARAMS)
  }

  function ReadFailure(error: SnapshotError): ErrorObject {
    ErrorObject(INTERNAL_ERROR, "repository snapshot failed",
                Some(match error case NotRepository(_) => "path is not inside a Git repository" case Git(message) => message))
  }

  function ResponseMessages(messages: seq<ServerMessage>, isNotification: bool): seq<ServerMessage> {
    if !isNotification then messages
    else if messages == [] then []
    else (if messages[0].Notification? then [messages[0]] else []) + ResponseMessages(messages[1..], true)
  }

  type Reader = SnapshotOptions -> Result<RepositorySnapshot, SnapshotError>

  datatype Method = Initialize | GetSnapshotMethod | RefreshMethod | SubscribeMethod | UnsubscribeMethod | MultiRepository | UnknownMethod

  function MethodOf(name: string): Method {
    if name == "initialize" then Initialize
    else if name == "gitseer/getSnapshot" then GetSnapshotMethod
    else if name == "gitseer/refresh" then RefreshMethod
    else if name == "gitseer/subscribe" then SubscribeMethod
    else if name == "gitseer/unsubscribe" then UnsubscribeMethod
    else if name == "OpenRepository" || name == "CloseRepository" then MultiRepository
    else UnknownMethod
  }

  function GetSnapshot(id: Json, params: Option<Json>, read: Reader): ServerMessage {
    var options := SnapshotOptionsOf(params);
    if options.Err? then ErrorResponse(id, options.error)
    else
      var snapshot := read(options.value);
      if snapshot.Ok? then SuccessResponse(id, SnapshotPayload(snapshot.value))
      else ErrorResponse(id, ReadFailure(snapshot.error))
  }

  function RefreshNow(p: Process, id: Json, params: Option<Json>, read: Reader): (Process, seq<ServerMessage>) {
    var options := SnapshotOptionsOf(params);
    if options.Err? then (p, [ErrorResponse(id, options.error)])
    else
      var snapshot := read(options.value);
      if snapshot.Err? then (p, [ErrorResponse(id, ReadFailure(snapshot.error))])
      else
        var (next, params) := RecordBaseline(p, snapshot.value);
        (next, [SuccessResponse(id, BaselinePayload(params))])
  }

  function Subscribe(p: Process, id: Json, read: Reader): (Process, seq<ServerMessage>) {
    var asked := p.(subscribed := true);
    var response := SuccessResponse(id, SubscribedPayload(true));
    var snapshot := read(DEFAULT_OPTIONS);
    if snapshot.Err? then (asked, [response])
    else
      var (next, params) := RecordBaseline(asked, snapshot.value);
      (next, [response, SnapshotNotification(params)])
  }

  /** The method dispatch: the new state, the response, and the notifications after it. */
  function Dispatch(p: Process, request: Request, read: Reader): (Process, seq<ServerMessage>) {
    var id := request.id.UnwrapOr(Null);
    match MethodOf(request.name)
    case Initialize => (p, [SuccessResponse(id, CapabilitiesPayload)])
    case GetSnapshotMethod => (p, [GetSnapshot(id, request.params, read)])
    case RefreshMethod => RefreshNow(p, id, request.params, read)
    case SubscribeMethod => Subscribe(p, id, read)
    case UnsubscribeMethod => (p.(subscribed := false), [SuccessResponse(id, SubscribedPayload(false))])
    case MultiRepository =>
      (p, [ErrorResponse(id, ErrorObject(METHOD_NOT_FOUND, "multi-repository service mode is not supported", None))])
    case UnknownMethod => (p, [ErrorResponse(id, ErrorObject(METHOD_NOT_FOUND, "method not found", None))])
  }

  /** `handle_request` on what the line parsed to. */
  function Handle(p: Process, line: Result<Json, string>, read: Reader): (Process, seq<ServerMessage>) {
    if line.Err? then (p, [ErrorResponse(Null, ErrorObject(PARSE_ERROR, "parse error", Some(line.error)))])
    else if !line.value.Object? then (p, InvalidRequest(Null, "JSON-RPC requests must be objects"))
    else
      var o := line.value.members;
      var responseId := if "id" in o && ValidRequestId(o["id"]) then o["id"] else Null;
      if !HasVersion(o) then (p, InvalidRequest(responseId, "jsonrpc must be exactly \"2.0\""))
      else if !HasMethod(o) then (p, InvalidRequest(responseId, "method must be a string"))
      else if HasBadId(o) then (p, InvalidRequest(Null, "id must be a string, number, or null"))
      else if HasBadParams(o) then (p, InvalidRequest(responseId, "params must be an object, array, or null"))
      else
        var request := DeserializeRequest(o);
        if request.Err? then (p, InvalidRequest(responseId, request.error))
        else
          var (next, messages) := Dispatch(p, request.value, read);
          (next, ResponseMessages(messages, "id" !in o))
  }

  // ---------------------------------------------------------------- the state in place

  class ProcessState {
    var subscribed: bool
    var latestSnapshot: Option<RepositorySnapshot>
    var latestVersion: nat

    function Value(): Process
      reads this
    {
      Process(subscribed, latestSnapshot, latestVersion)
    }

    constructor ()
      ensures Value() == Process(false, None, 0)
    {
      subscribed, latestSnapshot, latestVersion := false, None, 0;
    }

    method NextVersion() returns (version: nat)
      modifies this`latestVersion
      ensures version == latestVersion == old(latestVersion) + 1
    {
      latestVersion := latestVersion + 1;
      version := latestVersion;
    }

    method RecordBaselineInPlace(snapshot: RepositorySnapshot) returns (params: SnapshotParams)
      modifies this
      ensures (Value(), params) == RecordBaseline(old(Value()), snapshot)
    {
      var version := NextVersion();
      latestSnapshot := Some(snapshot);
      params := SnapshotParams(version, latestSnapshot.value);
    }

    method RecordUpdateInPlace(snapshot: RepositorySnapshot) returns (params: Option<DeltaParams>)
      modifies this
      ensures (Value(), params) == RecordUpdate(old(Value()), snapshot)
    {
      if latestSnapshot.None? {
        var _ := RecordBaselineInPlace(snapshot);
        return None;
      }
      var delta := SnapshotDeltaOf(latestSnapshot.value, snapshot);
      if !delta.HasChanges() {
        latestSnapshot := Some(snapshot);
        return None;
      }
      var previousVersion := latestVersion;
      var version := NextVersion();
      var patch := FromDelta(snapshot, delta);
      latestSnapshot := Some(snapshot);
      params := Some(DeltaParams(previousVersion, version, delta, patch));
      assert Value() == old(Value()).(latest := Some(snapshot), version := version);
    }

    method SnapshotUpdateMessages(snapshot: RepositorySnapshot) returns (messages: seq<ServerMessage>)
      modifies this
      ensures (Value(), messages) == Update(old(Value()), snapshot)
    {
      if latestSnapshot.None? {
        var params := RecordBaselineInPlace(snapshot);
        return [SnapshotNotification(params)];
      }
      var delta := RecordUpdateInPlace(snapshot);
      messages := if delta.Some? then [DeltaNotification(delta.value)] else [];
    }

    method DispatchInPlace(request: Request, read: Reader) returns (messages: seq<ServerMessage>)
      modifies this
      ensures (Value(), messages) == Dispatch(old(Value()), request, read)
    {
      var id := request.id.UnwrapOr(Null);
      match MethodOf(request.name) {
        case Initialize =>
          return [SuccessResponse(id, CapabilitiesPayload)];
        case GetSnapshotMethod =>
          var options := SnapshotOptionsOf(request.params);
          if options.Err? {
            return [ErrorResponse(id, options.error)];
          }
          var snapshot := read(options.value);
          if snapshot.Err? {
            return [ErrorResponse(id, ReadFailure(snapshot.error))];
          }
          return [SuccessResponse(id, SnapshotPayload(snapshot.value))];
        case RefreshMethod =>
          var options := SnapshotOptionsOf(request.params);
          if options.Err? {
            return [ErrorResponse(id, options.error)];
          }
          var snapshot := read(options.value);
          if snapshot.Err? {
            return [ErrorResponse(id, ReadFailure(snapshot.error))];
          }
          var params := RecordBaselineInPlace(snapshot.value);
          return [SuccessResponse(id, BaselinePayload(params))];
        case SubscribeMethod =>
          subscribed := true;
          messages := [SuccessResponse(id, SubscribedPayload(true))];
          var snapshot := read(DEFAULT_OPTIONS);
          if snapshot.Ok? {
            var params := RecordBaselineInPlace(snapshot.value);
            messages := [messages[0], SnapshotNotification(params)];
          }
        case UnsubscribeMethod =>
          subscribed := false;
          return [SuccessResponse(id, SubscribedPayload(false))];
        case MultiRepository =>
          return [ErrorResponse(id, ErrorObject(METHOD_NOT_FOUND, "multi-repository service mode is not supported", None))];
        case UnknownMethod =>
          return [ErrorResponse(id, ErrorObject(METHOD_NOT_FOUND, "method not found", None))];
      }
    }

    method HandleRequest(line: Result<Json, string>, read: Reader) returns (messages: seq<ServerMessage>)
      modifies this
      ensures (Value(), messages) == Handle(old(Value()), line, read)
    {
      if line.Err? {
        return [ErrorResponse(Null, ErrorObject(PARSE_ERROR, "parse error", Some(line.error)))];
      }
      if !line.value.Object? {
        return InvalidRequest(Null, "JSON-RPC requests must be objects");
      }
      var o := line.value.members;
      var isNotification := "id" !in o;
      var responseId := if "id" in o && ValidRequestId(o["id"]) then o["id"] else Null;
      if !HasVersion(o) {
        return InvalidRequest(responseId, "jsonrpc must be exactly \"2.0\"");
      }
      if !HasMethod(o) {
        return InvalidRequest(responseId, "method must be a string");
      }
      if HasBadId(o) {
        return InvalidRequest(Null, "id must be a string, number, or null");
      }
      if HasBadParams(o) {
        return InvalidRequest(responseId, "params must be an object, array, or null");
      }
      var request := DeserializeRequest(o);
      if request.Err? {
        return InvalidRequest(responseId, request.error);
      }
      messages := DispatchInPlace(request.value, read);
      messages := ResponseMessages(messages, isNotification);
    }
  }

  // ---------------------------------------------------------------- request discipline

  /** A line that is a JSON-RPC 2.0 request object as sections 4 and 4.2 of the JSON-RPC 2.0
      Specification ask for. */
  ghost predicate WellFormedRequest(line: Result<Json, string>) {
    line.Ok? && line.value.Object? &&
    var o := line.value.members;
    HasVersion(o) && HasMethod(o) && !HasBadId(o) && !HasBadParams(o)
  }

  /** After the checks the request always deserializes: the handler's last error branch is dead. */
  lemma DeserializationNeverFails(line: Result<Json, string>)
    requires WellFormedRequest(line)
    ensures DeserializeRequest(line.value.members).Ok?
  {
  }

  ghost function Responses(messages: seq<ServerMessage>): nat {
    if messages == [] then 0 else (if messages[0].Response? then 1 else 0) + Responses(messages[1..])
  }

  ghost predicate ExactlyOneOutcome(message: ServerMessage) {
    message.Response? ==> (message.result.Some? <==> message.error.None?)
  }

  /** One response with the id, then at most one notification. */
  ghost predicate Answers(messages: seq<ServerMessage>, id: Json) {
    && 1 <= |messages| <= 2
    && messages[0].Response? && messages[0].id == id && ExactlyOneOutcome(messages[0])
    && (|messages| == 2 ==> messages[1].Notification?)
  }

  lemma PartsAnswer(p: Process, id: Json, params: Option<Json>, read: Reader)
    ensures Answers([GetSnapshot(id, params, read)], id)
    ensures Answers(RefreshNow(p, id, params, read).1, id)
    ensures Answers(Subscribe(p, id, read).1, id)
  {
  }

  lemma DispatchAnswers(p: Process, request: Request, read: Reader)
    ensures Answers(Dispatch(p, request, read).1, request.id.UnwrapOr(Null))
  {
    var id := request.id.UnwrapOr(Null);
    match MethodOf(request.name)
    case GetSnapshotMethod => PartsAnswer(p, id, request.params, read);
    case RefreshMethod => PartsAnswer(p, id, request.params, read);
    case SubscribeMethod => PartsAnswer(p, id, request.params, read);
    case _ =>
      var messages := Dispatch(p, request, read).1;
      assert |messages| == 1 && messages[0].Response?;
  }

  lemma DispatchVersion(p: Process, request: Request, read: Reader)
    ensures p.version <= Dispatch(p, request, read).0.version <= p.version + 1
  {
  }

  lemma AnswersHaveOneResponse(messages: seq<ServerMessage>, id: Json)
    requires Answers(messages, id)
    ensures Responses(messages) == 1
    ensures forall m :: m in messages ==> ExactlyOneOutcome(m)
  {
    assert Responses(messages) == 1 + Responses(messages[1..]);
    if |messages| == 2 {
      assert messages[1..] == [messages[1]] && messages[1..][1..] == [];
    } else {
      assert messages[1..] == [];
    }
  }

  /** Suppressing the response of an answer leaves the rest. */
  lemma SuppressedAnswer(messages: seq<ServerMessage>, id: Json)
    requires Answers(messages, id)
    ensures ResponseMessages(messages, true) == messages[1..]
  {
    assert ResponseMessages(messages, true) == [] + ResponseMessages(messages[1..], true);
    if |messages| == 2 {
      assert messages[1..] == [messages[1]] && messages[1..][1..] == [];
      assert ResponseMessages(messages[1..], true) == [messages[1]] + ResponseMessages([], true);
    } else {
      assert messages[1..] == [];
    }
  }

  /** A malformed line gets one error response and changes nothing. */
  lemma MalformedLine(p: Process, line: Result<Json, string>, read: Reader)
    requires !WellFormedRequest(line)
    ensures var (next, messages) := Handle(p, line, read);
      next == p && |messages| == 1 && messages[0].Response? && messages[0].error.Some? && messages[0].result.None?
  {
  }

  /** Every line is answered by at most one response, which comes first and carries either a
      result or an error. A malformed line gets one error response and changes nothing; a
      well-formed request with an id gets one response with that id; without an id it gets
      none. */
  lemma RequestDiscipline(p: Process, line: Result<Json, string>, read: Reader)
    ensures var (next, messages) := Handle(p, line, read);
      && (forall i :: 0 < i < |messages| ==> messages[i].Notification?)
      && (forall m :: m in messages ==> ExactlyOneOutcome(m))
      && (!WellFormedRequest(line) ==> next == p && |messages| == 1 && messages[0].Response? && messages[0].error.Some?)
      && (WellFormedRequest(line) && "id" in line.value.members ==>
            Responses(messages) == 1 && messages[0].Response? && messages[0].id == line.value.members["id"])
      && (WellFormedRequest(line) && "id" !in line.value.members ==> Responses(messages) == 0)
      && p.version <= next.version <= p.version + 1
  {
    if WellFormedRequest(line) {
      var o := line.value.members;
      var request := DeserializeRequest(o).value;
      var messages := Dispatch(p, request, read).1;
      DispatchAnswers(p, request, read);
      DispatchVersion(p, request, read);
      AnswersHaveOneResponse(messages, request.id.UnwrapOr(Null));
      NotificationsStay(messages);
      assert Handle(p, line, read).1 == ResponseMessages(messages, "id" !in o);
    } else {
      MalformedLine(p, line, read);
    }
  }

  /** Without an id the responses are dropped and the notifications stay, in order. */
  lemma {:induction false} NotificationsStay(messages: seq<ServerMessage>)
    ensures var kept := ResponseMessages(messages, true);
      Responses(kept) == 0 && forall m :: m in kept <==> m in messages && m.Notification?
  {
    if messages != [] {
      NotificationsStay(messages[1..]);
      assert messages == [messages[0]] + messages[1..];
      var rest := ResponseMessages(messages[1..], true);
      if messages[0].Notification? {
        assert ([messages[0]] + rest)[1..] == rest;
      } else {
        assert [] + rest == rest;
      }
    }
  }
}
