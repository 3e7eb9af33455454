/** What the server of src/protocol.rs answers to a line, by the members of the request, and what
    it sends when the snapshot changes. */
module ProtocolAnswers {
  import opened Wrappers
  import opened Model
  import opened Paths
  import opened Deltas
  import opened Protocol

  // ---------------------------------------------------------------- which lines are requests

  predicate IsId(id: Json) { id.Null? || id.String? || id.Number? }

  /** A JSON-RPC 2.0 request object, member by member. */
  ghost predicate ValidLine(line: Result<Json, string>) {
    line.Ok? && line.value.Object? &&
    var o := line.value.members;
    && "jsonrpc" in o && o["jsonrpc"] == String("2.0")
    && "method" in o && o["method"].String?
    && ("id" in o ==> IsId(o["id"]))
    && ("params" in o ==> o["params"].Null? || o["params"].Object? || o["params"].Array?)
  }

  lemma ValidLines(line: Result<Json, string>)
    ensures WellFormedRequest(line) <==> ValidLine(line)
  {
  }

  /** A line that is none is answered by one error, -32700 if it does not parse and -32600 if it
      does, with the id of the line if that is one; and it changes nothing. */
  lemma InvalidAnswers(p: Process, line: Result<Json, string>, read: Reader)
    requires !ValidLine(line)
    ensures Handle(p, line, read).0 == p && |Handle(p, line, read).1| == 1
    ensures var answer := Handle(p, line, read).1[0];
      && answer.Response? && answer.result.None? && answer.error.Some?
      && answer.error.value.code == (if line.Err? then -32700 else -32600)
      && answer.id == if line.Ok? && line.value.Object? && "id" in line.value.members && IsId(line.value.members["id"])
                      then line.value.members["id"] else Null
  {
  }

  ghost function Detail(line: Result<Json, string>): string
    requires !ValidLine(line)
  {
    if line.Err? then line.error
    else if !line.value.Object? then "JSON-RPC requests must be objects"
    else
      var o := line.value.members;
      if !("jsonrpc" in o && o["jsonrpc"] == String("2.0")) then "jsonrpc must be exactly \"2.0\""
      else if !("method" in o && o["method"].String?) then "method must be a string"
      else if "id" in o && !IsId(o["id"]) then "id must be a string, number, or null"
      else "params must be an object, array, or null"
  }

  /** The first thing that is wrong with the line is the detail of the error. */
  lemma InvalidDetails(p: Process, line: Result<Json, string>, read: Reader)
    requires !ValidLine(line)
    ensures |Handle(p, line, read).1| == 1
    ensures var answer := Handle(p, line, read).1[0];
      answer.Response? && answer.error.Some? && answer.error.value.data == Some(Detail(line))
  {
  }

  // ---------------------------------------------------------------- requests by method

  /** The answer to a request, which is none if it has no id. */
  ghost function Reply(o: map<string, Json>, result: Option<Payload>, error: Option<ErrorObject>): seq<ServerMessage> {
    if "id" in o then [Response(result, error, o["id"])] else []
  }

  /** The params ask for ignored paths or not: by name, by position, or not at all. */
  ghost predicate AsksFor(o: map<string, Json>, includeIgnored: bool) {
    if "params" !in o || o["params"].Null? then !includeIgnored
    else if o["params"].Object? then
      var members := o["params"].members;
      if "includeIgnored" in members then members["includeIgnored"] == Bool(includeIgnored) else !includeIgnored
    else
      o["params"].Array? &&
      (if o["params"].elements == [] then !includeIgnored else o["params"].elements == [Bool(includeIgnored)])
  }

  lemma OptionsAnswers(o: map<string, Json>)
    ensures var options := SnapshotOptionsOf(OptionalValue(o, "params"));
      && (forall b: bool :: options == Ok(SnapshotOptions(b)) <==> AsksFor(o, b))
      && (options.Err? ==> options.error.code == -32602)
  {
  }

  /** What a valid line is handled as. */
  lemma ValidIsDispatched(p: Process, line: Result<Json, string>, read: Reader)
    requires ValidLine(line)
    ensures var o := line.value.members;
      var request := Request(o["method"].s, OptionalValue(o, "params"), OptionalValue(o, "id"));
      Handle(p, line, read) == (Dispatch(p, request, read).0, ResponseMessages(Dispatch(p, request, read).1, "id" !in o))
  {
  }

  lemma Answered(o: map<string, Json>, result: Option<Payload>, error: Option<ErrorObject>, more: seq<ServerMessage>)
    requires |more| <= 1 && forall m :: m in more ==> m.Notification?
    ensures var id := OptionalValue(o, "id").UnwrapOr(Null);
      ResponseMessages([Response(result, error, id)] + more, "id" !in o) == Reply(o, result, error) + more
  {
    var id := OptionalValue(o, "id").UnwrapOr(Null);
    var messages := [Response(result, error, id)] + more;
    assert messages[1..] == more;
    if "id" !in o {
      assert ResponseMessages(messages, true) == [] + ResponseMessages(more, true);
      if more != [] {
        assert more[1..] == [] && ResponseMessages(more, true) == [more[0]] + ResponseMessages([], true);
      }
      assert ResponseMessages(more, true) == more;
    }
  }

  /** Subscribing: the process is subscribed whatever the read answers, and the snapshot read with
      default options becomes the new baseline, sent as a notification. */
  lemma SubscribeAnswers(p: Process, line: Result<Json, string>, read: Reader)
    requires ValidLine(line) && line.value.members["method"] == String("gitseer/subscribe")
    ensures var (next, messages) := Handle(p, line, read);
      var reply := Reply(line.value.members, Some(SubscribedPayload(true)), None);
      && next.subscribed
      && match read(SnapshotOptions(false))
         case Ok(snapshot) =>
           && next == Process(true, Some(snapshot), p.version + 1)
           && messages == reply + [Notification("gitseer/snapshot", SnapshotNote(SnapshotParams(p.version + 1, snapshot)))]
         case Err(_) => next == Process(true, p.latest, p.version) && messages == reply
  {
    var o := line.value.members;
    ValidIsDispatched(p, line, read);
    var result := Some(SubscribedPayload(true));
    Answered(o, result, None, []);
    assert [Response(result, None, OptionalValue(o, "id").UnwrapOr(Null))] + [] == [Response(result, None, OptionalValue(o, "id").UnwrapOr(Null))];
    assert Reply(o, result, None) + [] == Reply(o, result, None);
    if read(SnapshotOptions(false)).Ok? {
      Answered(o, result, None,
               [Notification("gitseer/snapshot", SnapshotNote(SnapshotParams(p.version + 1, read(SnapshotOptions(false)).value)))]);
    }
  }

  lemma AnsweredAlone(o: map<string, Json>, result: Option<Payload>, error: Option<ErrorObject>)
    ensures ResponseMessages([Response(result, error, OptionalValue(o, "id").UnwrapOr(Null))], "id" !in o) == Reply(o, result, error)
  {
    var response := Response(result, error, OptionalValue(o, "id").UnwrapOr(Null));
    Answered(o, result, error, []);
    assert [response] + [] == [response] && Reply(o, result, error) + [] == Reply(o, result, error);
  }

  lemma UnsubscribeAnswers(p: Process, line: Result<Json, string>, read: Reader)
    requires ValidLine(line) && line.value.members["method"] == String("gitseer/unsubscribe")
    ensures Handle(p, line, read)
              == (Process(false, p.latest, p.version), Reply(line.value.members, Some(SubscribedPayload(false)), None))
  {
    ValidIsDispatched(p, line, read);
    AnsweredAlone(line.value.members, Some(SubscribedPayload(false)), None);
  }

  lemma InitializeAnswers(p: Process, line: Result<Json, string>, read: Reader)
    requires ValidLine(line) && line.value.members["method"] == String("initialize")
    ensures Handle(p, line, read) == (p, Reply(line.value.members, Some(CapabilitiesPayload), None))
  {
    ValidIsDispatched(p, line, read);
    AnsweredAlone(line.value.members, Some(CapabilitiesPayload), None);
  }

  /** A snapshot is read with the options that the params give, -32602 if they give none, -32603
      if the read fails; the process does not change. */
  lemma GetSnapshotAnswers(p: Process, line: Result<Json, string>, read: Reader, includeIgnored: bool)
    requires ValidLine(line) && line.value.members["method"] == String("gitseer/getSnapshot")
    ensures Handle(p, line, read).0 == p
    ensures AsksFor(line.value.members, includeIgnored) ==>
      match read(SnapshotOptions(includeIgnored))
      case Ok(snapshot) => Handle(p, line, read).1 == Reply(line.value.members, Some(SnapshotPayload(snapshot)), None)
      case Err(error) => Handle(p, line, read).1 == Reply(line.value.members, None, Some(ReadFailure(error)))
    ensures !AsksFor(line.value.members, true) && !AsksFor(line.value.members, false) ==>
      exists error: ErrorObject :: error.code == -32602 && Handle(p, line, read).1 == Reply(line.value.members, None, Some(error))
  {
    var o := line.value.members;
    ValidIsDispatched(p, line, read);
    OptionsAnswers(o);
    var options := SnapshotOptionsOf(OptionalValue(o, "params"));
    if options.Err? {
      AnsweredAlone(o, None, Some(options.error));
    } else if read(options.value).Ok? {
      AnsweredAlone(o, Some(SnapshotPayload(read(options.value).value)), None);
    } else {
      AnsweredAlone(o, None, Some(ReadFailure(read(options.value).error)));
    }
    assert options.Ok? ==> options == Ok(SnapshotOptions(options.value.includeIgnored));
  }

  /** A refresh does the same, and the snapshot becomes the new baseline. */
  lemma RefreshAnswers(p: Process, line: Result<Json, string>, read: Reader, includeIgnored: bool)
    requires ValidLine(line) && line.value.members["method"] == String("gitseer/refresh")
    ensures AsksFor(line.value.members, includeIgnored) ==>
      match read(SnapshotOptions(includeIgnored))
      case Ok(snapshot) =>
        Handle(p, line, read) ==
          (Process(p.subscribed, Some(snapshot), p.version + 1),
           Reply(line.value.members, Some(BaselinePayload(SnapshotParams(p.version + 1, snapshot))), None))
      case Err(error) => Handle(p, line, read) == (p, Reply(line.value.members, None, Some(ReadFailure(error))))
    ensures !AsksFor(line.value.members, true) && !AsksFor(line.value.members, false) ==>
      Handle(p, line, read).0 == p &&
      exists error: ErrorObject :: error.code == -32602 && Handle(p, line, read).1 == Reply(line.value.members, None, Some(error))
  {
    var o := line.value.members;
    ValidIsDispatched(p, line, read);
    OptionsAnswers(o);
    var options := SnapshotOptionsOf(OptionalValue(o, "params"));
    if options.Err? {
      AnsweredAlone(o, None, Some(options.error));
    } else if read(options.value).Ok? {
      AnsweredAlone(o, Some(BaselinePayload(SnapshotParams(p.version + 1, read(options.value).value))), None);
    } else {
      AnsweredAlone(o, None, Some(ReadFailure(read(options.value).error)));
    }
    assert options.Ok? ==> options == Ok(SnapshotOptions(options.value.includeIgnored));
  }

  lemma FailedReads(error: SnapshotError)
    ensures ReadFailure(error).code == -32603 && ReadFailure(error).message == "repository snapshot failed"
    ensures error.Git? ==> ReadFailure(error).data == Some(error.message)
    ensures error.NotRepository? ==> ReadFailure(error).data == Some("path is not inside a Git repository")
  {
  }

  /** The server has five methods. Every other is refused with -32601. */
  lemma OtherMethodAnswers(p: Process, line: Result<Json, string>, read: Reader)
    requires ValidLine(line)
    requires line.value.members["method"].s !in
      {"initialize", "gitseer/getSnapshot", "gitseer/refresh", "gitseer/subscribe", "gitseer/unsubscribe"}
    ensures Handle(p, line, read).0 == p
    ensures exists error: ErrorObject ::
      && error.code == -32601 && Handle(p, line, read).1 == Reply(line.value.members, None, Some(error))
      && error.message == if line.value.members["method"].s in {"OpenRepository", "CloseRepository"}
                          then "multi-repository service mode is not supported" else "method not found"
  {
    var o := line.value.members;
    ValidIsDispatched(p, line, read);
    AnsweredAlone(o, None, Some(ErrorObject(METHOD_NOT_FOUND, "method not found", None)));
    AnsweredAlone(o, None, Some(ErrorObject(METHOD_NOT_FOUND, "multi-repository service mode is not supported", None)));
  }

  /** Only the two methods by that name subscribe and unsubscribe. */
  lemma SubscriptionFlag(p: Process, line: Result<Json, string>, read: Reader)
    ensures Handle(p, line, read).0.subscribed <==>
      if ValidLine(line) && line.value.members["method"] == String("gitseer/subscribe") then true
      else if ValidLine(line) && line.value.members["method"] == String("gitseer/unsubscribe") then false
      else p.subscribed
  {
    if !ValidLine(line) {
      InvalidAnswers(p, line, read);
    } else {
      var name := line.value.members["method"].s;
      if name == "gitseer/subscribe" {
        SubscribeAnswers(p, line, read);
      } else if name == "gitseer/unsubscribe" {
        UnsubscribeAnswers(p, line, read);
      } else {
        OtherMethodsKeepFlag(p, line, read);
      }
    }
  }

  lemma OtherMethodsKeepFlag(p: Process, line: Result<Json, string>, read: Reader)
    requires ValidLine(line) && line.value.members["method"].s !in {"gitseer/subscribe", "gitseer/unsubscribe"}
    ensures Handle(p, line, read).0.subscribed == p.subscribed
  {
    ValidIsDispatched(p, line, read);
  }

  // ---------------------------------------------------------------- updates

  /** Without a baseline a new snapshot is sent in full. */
  lemma FirstUpdate(p: Process, snapshot: RepositorySnapshot)
    requires p.latest.None?
    ensures Update(p, snapshot) ==
      (Process(p.subscribed, Some(snapshot), p.version + 1),
       [Notification("gitseer/snapshot", SnapshotNote(SnapshotParams(p.version + 1, snapshot)))])
  {
  }

  ghost predicate TellsChanges(d: DeltaParams, a: RepositorySnapshot, b: RepositorySnapshot) {
    var delta := d.delta;
    && delta.repositoryId == b.identity.id
    && (delta.identityChanged <==> a.identity != b.identity)
    && (delta.headChanged <==> a.head != b.head || a.headCommit != b.headCommit)
    && (delta.upstreamChanged <==> a.upstream != b.upstream)
    && (delta.operationChanged <==> a.operation != b.operation)
    && delta.paths == PathDeltaOf(a.paths, b.paths)
    && (delta.remotesChanged <==> a.remotes != b.remotes)
    && (delta.branchesChanged <==> a.branches != b.branches)
    && (delta.tagsChanged <==> a.tags != b.tags)
    && (delta.stashesChanged <==> a.stashes != b.stashes)
    && (delta.worktreesChanged <==> a.worktrees != b.worktrees)
    && (delta.submodulesChanged <==> a.submodules != b.submodules)
  }

  /** The patch carries what changed, and nothing else. */
  ghost predicate CarriesChanges(patch: SnapshotPatch, a: RepositorySnapshot, b: RepositorySnapshot) {
    && patch.identity == (if a.identity != b.identity then Some(b.identity) else None)
    && patch.head == (if a.head != b.head || a.headCommit != b.headCommit then Some(b.head) else None)
    && patch.headCommit == (if a.head != b.head || a.headCommit != b.headCommit then Some(b.headCommit) else None)
    && patch.upstream == (if a.upstream != b.upstream then Some(b.upstream) else None)
    && patch.paths == (if PathDeltaOf(a.paths, b.paths).HasChanges() then Some(b.paths) else None)
    && patch.operation == (if a.operation != b.operation then Some(b.operation) else None)
    && patch.remotes == (if a.remotes != b.remotes then Some(b.remotes) else None)
    && patch.branches == (if a.branches != b.branches then Some(b.branches) else None)
    && patch.tags == (if a.tags != b.tags then Some(b.tags) else None)
    && patch.stashes == (if a.stashes != b.stashes then Some(b.stashes) else None)
    && patch.worktrees == (if a.worktrees != b.worktrees then Some(b.worktrees) else None)
    && patch.submodules == (if a.submodules != b.submodules then Some(b.submodules) else None)
  }

  /** With one, an update is silent or sends one delta to the next version, whose flags tell every
      change and whose patch carries it. */
  lemma LaterUpdate(p: Process, snapshot: RepositorySnapshot)
    requires p.latest.Some?
    ensures var (next, messages) := Update(p, snapshot);
      && next.latest == Some(snapshot) && next.subscribed == p.subscribed
      && (messages == [] ==> next.version == p.version)
      && (messages != [] ==>
            && |messages| == 1 && messages[0].Notification? && messages[0].name == "gitseer/delta" && messages[0].params.DeltaNote?
            && var d := messages[0].params.delta;
               && d.previousVersion == p.version && d.version == next.version == p.version + 1
               && TellsChanges(d, p.latest.value, snapshot) && CarriesChanges(d.patch, p.latest.value, snapshot))
  {
    var delta := SnapshotDeltaOf(p.latest.value, snapshot);
    if delta.HasChanges() {
      var d := DeltaParams(p.version, p.version + 1, delta, FromDelta(snapshot, delta));
      assert Update(p, snapshot) == (p.(latest := Some(snapshot), version := d.version), [DeltaNotification(d)]);
      DeltaTells(p.latest.value, snapshot, d);
    }
  }

  lemma DeltaTells(a: RepositorySnapshot, b: RepositorySnapshot, d: DeltaParams)
    requires d.delta == SnapshotDeltaOf(a, b) && d.patch == FromDelta(b, d.delta)
    ensures TellsChanges(d, a, b) && CarriesChanges(d.patch, a, b)
  {
  }
}
