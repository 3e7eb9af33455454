/** A client that keeps a copy of the snapshot by applying deltas, over a channel that may lose,
    repeat and reorder messages: the stream contract of README.md for the server of
    src/protocol.rs and the patch application of src/protocol/tests/mod.rs. */
module Replica {
  import opened Wrappers
  import opened Model
  import opened Paths
  import opened Deltas
  import opened Protocol

  /** What makes the server send: a line on stdin, or a refreshed snapshot. */
  datatype Action = Line(line: Result<Json, string>, read: Reader) | Refreshed(snapshot: RepositorySnapshot)

  ghost function Serve(p: Process, action: Action): (Process, seq<ServerMessage>) {
    match action
    case Line(line, read) => Handle(p, line, read)
    case Refreshed(snapshot) => Update(p, snapshot)
  }

  /** Every snapshot the action may record has a well-formed path state. */
  ghost predicate Sound(action: Action) {
    match action
    case Line(_, read) => forall options :: read(options).Ok? ==> WellFormed(read(options).value.paths)
    case Refreshed(snapshot) => WellFormed(snapshot.paths)
  }

  // ---------------------------------------------------------------- the client

  datatype Copy = Copy(version: nat, snapshot: RepositorySnapshot)

  /** A full snapshot with its version, from a notification or from a refresh response. */
  function BaselineIn(m: ServerMessage): Option<SnapshotParams> {
    match m
    case Response(result, _, _) =>
      if result.Some? && result.value.BaselinePayload? then Some(result.value.baseline) else None
    case Notification(_, params) => if params.SnapshotNote? then Some(params.baseline) else None
  }

  function DeltaIn(m: ServerMessage): Option<DeltaParams> {
    if m.Notification? && m.params.DeltaNote? then Some(m.params.delta) else None
  }

  /** Newer full snapshots replace the copy; a delta is applied only to the version it is
      against. */
  function Receive(client: Option<Copy>, m: ServerMessage): Option<Copy> {
    var baseline := BaselineIn(m);
    var delta := DeltaIn(m);
    if baseline.Some? then
      if client.None? || client.value.version < baseline.value.version
      then Some(Copy(baseline.value.version, baseline.value.snapshot)) else client
    else if delta.Some? && client.Some? && client.value.version == delta.value.previousVersion then
      Some(Copy(delta.value.version, ApplyPatch(client.value.snapshot, delta.value.patch)))
    else client
  }

  function ReceiveAll(client: Option<Copy>, messages: seq<ServerMessage>): Option<Copy>
    decreases |messages|
  {
    if messages == [] then client else ReceiveAll(Receive(client, messages[0]), messages[1..])
  }

  // ---------------------------------------------------------------- runs

  /** `sent` is everything ever sent, any of it deliverable at any time and any number of times;
      `history` is the snapshot with which each version was first assigned. */
  datatype System = System(server: Process, sent: set<ServerMessage>, client: Option<Copy>, history: map<nat, RepositorySnapshot>)

  datatype Event = Act(action: Action) | Deliver(message: ServerMessage)

  ghost predicate Possible(s: System, e: Event) {
    match e
    case Act(action) => Sound(action)
    case Deliver(message) => message in s.sent
  }

  /** The server moves on and sends. */
  ghost function Advance(s: System, server: Process, messages: seq<ServerMessage>): System {
    System(server, s.sent + (set m | m in messages), s.client,
           if server.version != s.server.version && server.latest.Some?
           then s.history[server.version := server.latest.value] else s.history)
  }

  ghost function Next(s: System, e: Event): System {
    match e
    case Act(action) => Advance(s, Serve(s.server, action).0, Serve(s.server, action).1)
    case Deliver(message) => s.(client := Receive(s.client, message))
  }

  ghost predicate PossibleRun(s: System, events: seq<Event>)
    decreases |events|
  {
    events == [] || (Possible(s, events[0]) && PossibleRun(Next(s, events[0]), events[1..]))
  }

  ghost function After(s: System, events: seq<Event>): System
    decreases |events|
  {
    if events == [] then s else After(Next(s, events[0]), events[1..])
  }

  ghost const START := System(Process(false, None, 0), {}, None, map[])

  // ---------------------------------------------------------------- the invariant

  /** Whoever holds `a` up to conflict stages holds `b` up to conflict stages after the patch. */
  ghost predicate Carries(a: RepositorySnapshot, b: RepositorySnapshot, patch: SnapshotPatch) {
    forall copy :: SameButConflicts(copy, a) ==> SameButConflicts(ApplyPatch(copy, patch), b)
  }

  /** The message means what the history says about its versions. */
  ghost predicate Truthful(history: map<nat, RepositorySnapshot>, m: ServerMessage) {
    && (BaselineIn(m).Some? ==>
          var b := BaselineIn(m).value;
          b.version in history && history[b.version] == b.snapshot)
    && (DeltaIn(m).Some? ==>
          var d := DeltaIn(m).value;
          && d.version == d.previousVersion + 1 && d.previousVersion in history && d.version in history
          && Carries(history[d.previousVersion], history[d.version], d.patch))
  }

  ghost predicate ServerInv(p: Process, history: map<nat, RepositorySnapshot>) {
    && (forall v :: v in history <==> 1 <= v <= p.version)
    && (forall v :: v in history ==> WellFormed(history[v].paths))
    && (p.latest.None? <==> p.version == 0)
    && (p.latest.Some? ==> WellFormed(p.latest.value.paths) && SameButConflicts(p.latest.value, history[p.version]))
  }

  ghost predicate Inv(s: System) {
    && ServerInv(s.server, s.history)
    && (forall m :: m in s.sent ==> Truthful(s.history, m))
    && (s.client.Some? ==>
          s.client.value.version in s.history
          && SameButConflicts(s.client.value.snapshot, s.history[s.client.value.version]))
  }

  /** What an action does to the state: nothing that a client must see, a new baseline, or a
      delta against the last snapshot. */
  ghost predicate KeepsVersion(p: Process, next: Process, messages: seq<ServerMessage>) {
    && next.version == p.version && next.latest.Some? == p.latest.Some?
    && (p.latest.Some? ==>
          || next.latest == p.latest
          || (WellFormed(next.latest.value.paths) && SameButConflicts(p.latest.value, next.latest.value)))
    && forall m :: m in messages ==> BaselineIn(m).None? && DeltaIn(m).None?
  }

  ghost predicate NewBaseline(p: Process, next: Process, messages: seq<ServerMessage>) {
    && next.version == p.version + 1 && next.latest.Some? && WellFormed(next.latest.value.paths)
    && forall m :: m in messages ==>
         DeltaIn(m).None? && (BaselineIn(m).Some? ==> BaselineIn(m).value == SnapshotParams(next.version, next.latest.value))
  }

  ghost predicate NewDelta(p: Process, next: Process, messages: seq<ServerMessage>) {
    && next.version == p.version + 1 && p.latest.Some? && next.latest.Some? && WellFormed(next.latest.value.paths)
    && |messages| == 1 && BaselineIn(messages[0]).None? && DeltaIn(messages[0]).Some?
    && var d := DeltaIn(messages[0]).value;
       d.previousVersion == p.version && d.version == next.version && Carries(p.latest.value, next.latest.value, d.patch)
  }

  /** `snapshot_update_messages` is silent, or sends the baseline, or sends one delta. */
  lemma UpdateCases(p: Process, snapshot: RepositorySnapshot)
    requires WellFormed(snapshot.paths) && (p.latest.Some? ==> WellFormed(p.latest.value.paths))
    ensures var (next, messages) := Update(p, snapshot);
      && next.latest == Some(snapshot)
      && (p.latest.None? ==> NewBaseline(p, next, messages)
                             && messages == [SnapshotNotification(SnapshotParams(next.version, snapshot))])
      && (p.latest.Some? ==> (KeepsVersion(p, next, messages) && messages == []) || NewDelta(p, next, messages))
  {
    if p.latest.Some? {
      if SnapshotDeltaOf(p.latest.value, snapshot).HasChanges() {
        UpdateSends(p, snapshot);
      } else {
        UpdateIsSilent(p, snapshot);
      }
    }
  }

  lemma UpdateIsSilent(p: Process, snapshot: RepositorySnapshot)
    requires WellFormed(snapshot.paths) && p.latest.Some? && WellFormed(p.latest.value.paths)
    requires !SnapshotDeltaOf(p.latest.value, snapshot).HasChanges()
    ensures Update(p, snapshot) == (p.(latest := Some(snapshot)), [])
    ensures KeepsVersion(p, p.(latest := Some(snapshot)), [])
  {
    DeltaCases(p.latest.value, snapshot);
  }

  lemma DeltaIsNew(p: Process, snapshot: RepositorySnapshot, d: DeltaParams)
    requires p.latest.Some? && WellFormed(snapshot.paths)
    requires d.previousVersion == p.version && d.version == p.version + 1 && Carries(p.latest.value, snapshot, d.patch)
    ensures NewDelta(p, p.(latest := Some(snapshot), version := d.version), [DeltaNotification(d)])
  {
  }

  lemma UpdateSends(p: Process, snapshot: RepositorySnapshot)
    requires WellFormed(snapshot.paths) && p.latest.Some? && WellFormed(p.latest.value.paths)
    requires SnapshotDeltaOf(p.latest.value, snapshot).HasChanges()
    ensures Update(p, snapshot).0.latest == Some(snapshot)
    ensures NewDelta(p, Update(p, snapshot).0, Update(p, snapshot).1)
  {
    var delta := SnapshotDeltaOf(p.latest.value, snapshot);
    var d := DeltaParams(p.version, p.version + 1, delta, FromDelta(snapshot, delta));
    assert Update(p, snapshot) == (p.(latest := Some(snapshot), version := d.version), [DeltaNotification(d)]);
    DeltaCases(p.latest.value, snapshot);
    DeltaIsNew(p, snapshot, d);
  }

  lemma DeltaCases(a: RepositorySnapshot, b: RepositorySnapshot)
    requires WellFormed(a.paths) && WellFormed(b.paths)
    ensures !SnapshotDeltaOf(a, b).HasChanges() ==> SameButConflicts(a, b)
    ensures Carries(a, b, FromDelta(b, SnapshotDeltaOf(a, b)))
  {
    DeltaBlindness(a, b);
    forall copy | SameButConflicts(copy, a) ensures SameButConflicts(ApplyPatch(copy, FromDelta(b, SnapshotDeltaOf(a, b))), b) {
      PatchOnEquivalent(copy, a, b);
    }
  }

  lemma PartsCases(p: Process, id: Json, params: Option<Json>, read: Reader)
    requires forall options :: read(options).Ok? ==> WellFormed(read(options).value.paths)
    ensures var (next, messages) := RefreshNow(p, id, params, read);
      KeepsVersion(p, next, messages) || NewBaseline(p, next, messages)
    ensures var (next, messages) := Subscribe(p, id, read);
      KeepsVersion(p, next, messages) || NewBaseline(p, next, messages)
  {
  }

  lemma DispatchCases(p: Process, request: Request, read: Reader)
    requires forall options :: read(options).Ok? ==> WellFormed(read(options).value.paths)
    ensures var (next, messages) := Dispatch(p, request, read);
      KeepsVersion(p, next, messages) || NewBaseline(p, next, messages)
  {
    var id := request.id.UnwrapOr(Null);
    match MethodOf(request.name)
    case RefreshMethod => PartsCases(p, id, request.params, read);
    case SubscribeMethod => PartsCases(p, id, request.params, read);
    case _ =>
      var (next, messages) := Dispatch(p, request, read);
      assert |messages| == 1 && BaselineIn(messages[0]).None? && DeltaIn(messages[0]).None?;
  }

  lemma HandleCases(p: Process, line: Result<Json, string>, read: Reader)
    requires Sound(Line(line, read))
    ensures var (next, messages) := Handle(p, line, read);
      KeepsVersion(p, next, messages) || NewBaseline(p, next, messages)
  {
    if WellFormedRequest(line) {
      var o := line.value.members;
      var request := DeserializeRequest(o).value;
      DispatchCases(p, request, read);
      NotificationsStay(Dispatch(p, request, read).1);
    }
  }

  lemma ServeCases(p: Process, action: Action)
    requires Sound(action) && (p.latest.Some? ==> WellFormed(p.latest.value.paths))
    ensures var (next, messages) := Serve(p, action);
      KeepsVersion(p, next, messages) || NewBaseline(p, next, messages) || NewDelta(p, next, messages)
  {
    match action
    case Line(line, read) => HandleCases(p, line, read);
    case Refreshed(snapshot) => UpdateCases(p, snapshot);
  }

  /** Truth about old versions stays when a new version is recorded. */
  lemma OldMessagesStayTrue(s: System, version: nat, snapshot: RepositorySnapshot)
    requires Inv(s) && version == s.server.version + 1
    ensures forall m :: m in s.sent ==> Truthful(s.history[version := snapshot], m)
  {
  }

  lemma SilenceKeepsInv(s: System, next: Process, messages: seq<ServerMessage>)
    requires Inv(s) && KeepsVersion(s.server, next, messages)
    ensures Inv(Advance(s, next, messages))
  {
  }

  lemma BaselineKeepsInv(s: System, next: Process, messages: seq<ServerMessage>)
    requires Inv(s) && NewBaseline(s.server, next, messages)
    ensures Inv(Advance(s, next, messages))
  {
    OldMessagesStayTrue(s, next.version, next.latest.value);
    SameButConflictsIsEquivalence(next.latest.value, next.latest.value, next.latest.value);
  }

  lemma CarriesFromEquivalent(first: RepositorySnapshot, a: RepositorySnapshot, b: RepositorySnapshot, patch: SnapshotPatch)
    requires SameButConflicts(a, first) && Carries(a, b, patch)
    ensures Carries(first, b, patch)
  {
  }

  lemma DeltaKeepsInv(s: System, next: Process, messages: seq<ServerMessage>)
    requires Inv(s) && NewDelta(s.server, next, messages)
    ensures Inv(Advance(s, next, messages))
  {
    var a, b, first := s.server.latest.value, next.latest.value, s.history[s.server.version];
    var d := DeltaIn(messages[0]).value;
    OldMessagesStayTrue(s, next.version, b);
    SameButConflictsIsEquivalence(b, b, b);
    CarriesFromEquivalent(first, a, b, d.patch);
    assert Truthful(s.history[next.version := b], messages[0]);
  }

  lemma ActKeepsInv(s: System, action: Action)
    requires Inv(s) && Sound(action)
    ensures Inv(Next(s, Act(action)))
  {
    var (next, messages) := Serve(s.server, action);
    ServeCases(s.server, action);
    if KeepsVersion(s.server, next, messages) {
      SilenceKeepsInv(s, next, messages);
    } else if NewBaseline(s.server, next, messages) {
      BaselineKeepsInv(s, next, messages);
    } else {
      DeltaKeepsInv(s, next, messages);
    }
  }

  lemma DeliverKeepsInv(s: System, m: ServerMessage)
    requires Inv(s) && m in s.sent
    ensures Inv(Next(s, Deliver(m)))
  {
  }

  lemma {:induction false} RunKeepsInv(s: System, events: seq<Event>)
    requires Inv(s) && PossibleRun(s, events)
    ensures Inv(After(s, events))
    decreases |events|
  {
    if events != [] {
      match events[0] {
        case Act(action) => ActKeepsInv(s, action);
        case Deliver(m) => DeliverKeepsInv(s, m);
      }
      RunKeepsInv(Next(s, events[0]), events[1..]);
    }
  }

  // ---------------------------------------------------------------- replication

  /** On every run, whatever the channel loses, repeats or reorders, and whether or not responses
      were suppressed: the copy of a client that has the server's version is the server's
      snapshot up to conflict stages, and no client is ever ahead. */
  lemma ClientHoldsItsVersion(events: seq<Event>)
    requires PossibleRun(START, events)
    ensures var s := After(START, events);
      s.client.Some? ==>
        && 1 <= s.client.value.version <= s.server.version && s.client.value.version in s.history
        && SameButConflicts(s.client.value.snapshot, s.history[s.client.value.version])
        && (s.client.value.version == s.server.version ==>
              s.server.latest.Some? && SameButConflicts(s.client.value.snapshot, s.server.latest.value))
  {
    RunKeepsInv(START, events);
    var s := After(START, events);
    if s.client.Some? && s.client.value.version == s.server.version {
      SameButConflictsIsEquivalence(s.server.latest.value, s.history[s.server.version], s.client.value.snapshot);
      SameButConflictsIsEquivalence(s.client.value.snapshot, s.history[s.server.version], s.server.latest.value);
    }
  }

  lemma AdvanceStays(s: System, next: Process, messages: seq<ServerMessage>)
    requires ServerInv(s.server, s.history) && s.server.version <= next.version <= s.server.version + 1
    ensures forall v :: v in s.history ==>
              v in Advance(s, next, messages).history && Advance(s, next, messages).history[v] == s.history[v]
  {
  }

  lemma HistoryStays(s: System, e: Event)
    requires Inv(s) && Possible(s, e)
    ensures forall v :: v in s.history ==> v in Next(s, e).history && Next(s, e).history[v] == s.history[v]
    ensures s.client.Some? ==> Next(s, e).client.Some? && s.client.value.version <= Next(s, e).client.value.version
  {
    match e
    case Act(action) =>
      ServeCases(s.server, action);
      AdvanceStays(s, Serve(s.server, action).0, Serve(s.server, action).1);
    case Deliver(m) => assert Truthful(s.history, m);
  }

  /** Versions name snapshots for good, and a client never goes back to an older one. */
  lemma {:induction false} VersionsAreMonotonic(s: System, events: seq<Event>)
    requires Inv(s) && PossibleRun(s, events)
    ensures var last := After(s, events);
      && s.server.version <= last.server.version
      && (forall v :: v in s.history ==> v in last.history && last.history[v] == s.history[v])
      && (s.client.Some? ==> last.client.Some? && s.client.value.version <= last.client.value.version)
    decreases |events|
  {
    if events != [] {
      HistoryStays(s, events[0]);
      if events[0].Act? { ServeCases(s.server, events[0].action); }
      RunKeepsInv(s, [events[0]]) by { assert [events[0]][1..] == []; }
      assert After(s, [events[0]]) == Next(s, events[0]) by { assert [events[0]][1..] == []; }
      VersionsAreMonotonic(Next(s, events[0]), events[1..]);
    }
  }

  /** A client tells from the versions alone what a delta is to it: the next step, which it
      takes to the right snapshot; something it already has; or a sign that it missed one. */
  lemma DeltaTellsWhatItIs(events: seq<Event>, m: ServerMessage)
    requires PossibleRun(START, events)
    requires m in After(START, events).sent && DeltaIn(m).Some? && After(START, events).client.Some?
    ensures var s := After(START, events);
      var own, d, received := s.client.value, DeltaIn(m).value, Receive(s.client, m);
      && (d.previousVersion == own.version ==>
            received.Some? && received.value.version == d.version && d.version in s.history
            && SameButConflicts(received.value.snapshot, s.history[d.version]))
      && (d.previousVersion < own.version ==> received == s.client && d.version <= own.version)
      && (d.previousVersion > own.version ==> received == s.client && own.version < s.server.version)
  {
    RunKeepsInv(START, events);
    var s := After(START, events);
    assert Truthful(s.history, m);
  }

  /** Whatever a client missed, the response to a refresh with an id puts it in step again. */
  lemma {:induction false} RefreshRecovers(p: Process, client: Option<Copy>, line: Result<Json, string>, read: Reader)
    requires client.Some? ==> client.value.version <= p.version
    requires WellFormedRequest(line) && "id" in line.value.members
    requires var request := DeserializeRequest(line.value.members).value;
      MethodOf(request.name) == RefreshMethod && SnapshotOptionsOf(request.params).Ok?
      && read(SnapshotOptionsOf(request.params).value).Ok?
    ensures InStep(Handle(p, line, read).0, ReceiveAll(client, Handle(p, line, read).1))
  {
    var request := DeserializeRequest(line.value.members).value;
    var (next, messages) := RefreshNow(p, request.id.UnwrapOr(Null), request.params, read);
    OneResponse(client, messages);
    SameButConflictsIsEquivalence(next.latest.value, next.latest.value, next.latest.value);
  }

  // ---------------------------------------------------------------- a channel that loses nothing

  ghost predicate InStep(p: Process, client: Option<Copy>) {
    if client.None? then p.latest.None?
    else
      p.latest.Some? && client.value.version == p.version && SameButConflicts(client.value.snapshot, p.latest.value)
  }

  /** A refresh sent without an id: the version advances and the response is suppressed. */
  ghost predicate SuppressedRefresh(action: Action) {
    action.Line? && WellFormedRequest(action.line) && "id" !in action.line.value.members &&
    var request := DeserializeRequest(action.line.value.members).value;
    MethodOf(request.name) == RefreshMethod && SnapshotOptionsOf(request.params).Ok?
    && action.read(SnapshotOptionsOf(request.params).value).Ok?
  }

  /** A client that receives every message in order stays in step across an action exactly when
      the action is not a refresh without an id; after one of those it can tell, because the
      next delta is not against its version. */
  lemma InStepExact(p: Process, client: Option<Copy>, action: Action)
    requires InStep(p, client) && Sound(action)
    requires p.latest.Some? ==> WellFormed(p.latest.value.paths)
    ensures var (next, messages) := Serve(p, action);
      InStep(next, ReceiveAll(client, messages)) <==> !SuppressedRefresh(action)
  {
    match action
    case Refreshed(snapshot) => UpdateInStep(p, client, snapshot);
    case Line(line, read) => LineInStep(p, client, line, read);
  }

  lemma UpdateInStep(p: Process, client: Option<Copy>, snapshot: RepositorySnapshot)
    requires InStep(p, client) && WellFormed(snapshot.paths)
    requires p.latest.Some? ==> WellFormed(p.latest.value.paths)
    ensures InStep(Update(p, snapshot).0, ReceiveAll(client, Update(p, snapshot).1))
  {
    var (next, messages) := Update(p, snapshot);
    UpdateCases(p, snapshot);
    if messages != [] {
      assert ReceiveAll(client, messages) == Receive(client, messages[0]) by { assert messages[1..] == []; }
    }
    SameButConflictsIsEquivalence(snapshot, snapshot, snapshot);
    if p.latest.Some? {
      SameButConflictsIsEquivalence(client.value.snapshot, p.latest.value, snapshot);
    }
  }

  lemma LineInStep(p: Process, client: Option<Copy>, line: Result<Json, string>, read: Reader)
    requires InStep(p, client)
    ensures var (next, messages) := Handle(p, line, read);
      InStep(next, ReceiveAll(client, messages)) <==> !SuppressedRefresh(Line(line, read))
  {
    var (next, messages) := Handle(p, line, read);
    if WellFormedRequest(line) {
      var o := line.value.members;
      var request := DeserializeRequest(o).value;
      DispatchInStep(p, client, request, read, "id" !in o);
    } else {
      MalformedLine(p, line, read);
      assert messages[1..] == [];
    }
  }

  lemma DispatchInStep(p: Process, client: Option<Copy>, request: Request, read: Reader, isNotification: bool)
    requires InStep(p, client)
    ensures var (next, messages) := Dispatch(p, request, read);
      InStep(next, ReceiveAll(client, ResponseMessages(messages, isNotification))) <==>
        !(isNotification && MethodOf(request.name) == RefreshMethod && SnapshotOptionsOf(request.params).Ok?
          && read(SnapshotOptionsOf(request.params).value).Ok?)
  {
    var id := request.id.UnwrapOr(Null);
    match MethodOf(request.name)
    case RefreshMethod => RefreshInStep(p, client, id, request.params, read, isNotification);
    case SubscribeMethod => SubscribeInStep(p, client, id, read, isNotification);
    case _ =>
      var (next, messages) := Dispatch(p, request, read);
      assert |messages| == 1 && messages[0].Response? && BaselineIn(messages[0]).None?;
      OneResponse(client, messages);
  }

  lemma OneResponse(client: Option<Copy>, messages: seq<ServerMessage>)
    requires |messages| == 1 && messages[0].Response?
    ensures ReceiveAll(client, messages) == Receive(client, messages[0])
    ensures ResponseMessages(messages, true) == [] && ResponseMessages(messages, false) == messages
    ensures BaselineIn(messages[0]).None? ==> Receive(client, messages[0]) == client
  {
  }

  /** The response with a new baseline brings the client along; without it the client is behind. */
  lemma BaselineInStep(p: Process, client: Option<Copy>, snapshot: RepositorySnapshot, id: Json)
    requires InStep(p, client)
    ensures var (next, params) := RecordBaseline(p, snapshot);
      InStep(next, Receive(client, SuccessResponse(id, BaselinePayload(params)))) && !InStep(next, client)
  {
    SameButConflictsIsEquivalence(snapshot, snapshot, snapshot);
  }

  lemma RefreshInStep(p: Process, client: Option<Copy>, id: Json, params: Option<Json>, read: Reader, isNotification: bool)
    requires InStep(p, client)
    ensures var (next, messages) := RefreshNow(p, id, params, read);
      InStep(next, ReceiveAll(client, ResponseMessages(messages, isNotification))) <==>
        !(isNotification && SnapshotOptionsOf(params).Ok? && read(SnapshotOptionsOf(params).value).Ok?)
  {
    var (next, messages) := RefreshNow(p, id, params, read);
    OneResponse(client, messages);
    var options := SnapshotOptionsOf(params);
    if options.Ok? && read(options.value).Ok? { BaselineInStep(p, client, read(options.value).value, id); }
  }

  lemma SubscribeInStep(p: Process, client: Option<Copy>, id: Json, read: Reader, isNotification: bool)
    requires InStep(p, client)
    ensures var (next, messages) := Subscribe(p, id, read);
      InStep(next, ReceiveAll(client, ResponseMessages(messages, isNotification)))
  {
    var (next, messages) := Subscribe(p, id, read);
    PartsAnswer(p, id, None, read);
    SuppressedAnswer(messages, id);
    ReceiveTwo(client, messages);
    if next.latest.Some? {
      SameButConflictsIsEquivalence(next.latest.value, next.latest.value, next.latest.value);
    }
  }

  lemma ReceiveTwo(client: Option<Copy>, messages: seq<ServerMessage>)
    requires 1 <= |messages| <= 2
    ensures ReceiveAll(client, messages) ==
      if |messages| == 1 then Receive(client, messages[0]) else Receive(Receive(client, messages[0]), messages[1])
    ensures ReceiveAll(client, messages[1..]) == if |messages| == 1 then client else Receive(client, messages[1])
  {
    assert ReceiveAll(client, messages) == ReceiveAll(Receive(client, messages[0]), messages[1..]);
    if |messages| == 2 {
      assert messages[1..] == [messages[1]] && messages[1..][1..] == [];
      var first := Receive(client, messages[0]);
      assert ReceiveAll(first, messages[1..]) == ReceiveAll(Receive(first, messages[1]), []);
      assert ReceiveAll(client, messages[1..]) == ReceiveAll(Receive(client, messages[1]), []);
    } else {
      assert messages[1..] == [];
    }
  }
}
