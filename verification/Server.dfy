/** The server loop (src/main.rs): which of its four modes it is in, and what it does with the
    input that the mode's `select!` picks next. */
module Server {
  import opened Wrappers
  import opened Model
  import opened Repository
  import opened Protocol
  import opened Replica

  /** What a loop iteration picks. Reads of the repository are carried along. */
  datatype Input =
    | ReadLine(line: Option<Result<Json, string>>, reader: Reader)
    | WatchEventTaken(first: RefreshPlan, debounced: RefreshPlan, refresh: Result<SnapshotRefresh, SnapshotError>)
    | WatcherStopped
    | WatcherStarted(ok: bool, full: Result<RepositorySnapshot, SnapshotError>)
    | Tick(full: Result<RepositorySnapshot, SnapshotError>)

  datatype Loop = Loop(process: Process, watcher: bool, pending: bool, polling: bool, running: bool)

  const INITIAL := Loop(Process(false, None, 0), false, false, false, true)

  predicate Selectable(l: Loop, input: Input) {
    match input
    case ReadLine(_, _) => true
    case WatchEventTaken(_, _, _) => l.watcher
    case WatcherStopped => l.watcher
    case WatcherStarted(_, _) => !l.watcher && l.pending
    case Tick(_) => !l.watcher && (l.pending || l.polling)
  }

  function Goodbye(reason: string): ServerMessage {
    Notification("gitseer/goodbye", GoodbyeNote(reason))
  }

  /** `start_watcher_if_needed` */
  function StartIfNeeded(l: Loop): Loop {
    if !l.process.subscribed || l.pending then l else l.(pending := true)
  }

  /** `refresh_subscribed`: a failed read ends the server. */
  function RefreshSubscribed(l: Loop, full: Result<RepositorySnapshot, SnapshotError>): (Loop, seq<ServerMessage>) {
    if !l.process.subscribed then (l, [])
    else if full.Err? then (l.(running := false), [])
    else
      var (process, messages) := Update(l.process, full.value);
      (l.(process := process), messages)
  }

  /** A line, and what its mode does after answering it. */
  function TakeLine(l: Loop, line: Option<Result<Json, string>>, read: Reader): (Loop, seq<ServerMessage>) {
    if line.None? then (l.(running := false), [Goodbye("stdin closed")])
    else
      var (process, messages) := Handle(l.process, line.value, read);
      var answered := l.(process := process);
      (if l.watcher || l.pending then answered
       else if l.polling then StartIfNeeded(answered.(polling := process.subscribed))
       else StartIfNeeded(answered),
       messages)
  }

  function Iterate(l: Loop, input: Input): (Loop, seq<ServerMessage>) {
    match input
    case ReadLine(line, read) => TakeLine(l, line, read)
    case WatcherStopped => (l.(running := false), [Goodbye("watcher stopped")])
    case WatchEventTaken(first, debounced, refresh) =>
      if !l.process.subscribed || !first.ShouldRefresh() || !debounced.ShouldRefresh() then (l, [])
      else if refresh.Err? then (l.(running := false), [])
      else
        var (process, messages) := Update(l.process, refresh.value.snapshot);
        (l.(process := process), messages)
    case WatcherStarted(ok, full) =>
      RefreshSubscribed(if ok then l.(pending := false, watcher := true) else l.(pending := false, polling := true), full)
    case Tick(full) => RefreshSubscribed(l, full)
  }

  ghost predicate ValidScript(l: Loop, script: seq<Input>)
    decreases |script|
  {
    script == [] || !l.running || (Selectable(l, script[0]) && ValidScript(Iterate(l, script[0]).0, script[1..]))
  }

  function RunLoop(l: Loop, script: seq<Input>): (Loop, seq<ServerMessage>)
    decreases |script|
  {
    if script == [] || !l.running then (l, [])
    else
      var (next, messages) := Iterate(l, script[0]);
      var (last, rest) := RunLoop(next, script[1..]);
      (last, messages + rest)
  }

  // ---------------------------------------------------------------- the loop over mutable variables

  /** `serve`, for a finite script of what its `select!`s pick. */
  method ServeScript(state: ProcessState, script: seq<Input>) returns (out: seq<ServerMessage>, ghost last: Loop)
    requires state.Value() == INITIAL.process
    requires ValidScript(INITIAL, script)
    modifies state
    ensures (last, out) == RunLoop(INITIAL, script)
    ensures state.Value() == last.process
  {
    var watcher, pending, polling := false, false, false;
    var running := true;
    out := [];
    last := INITIAL;
    var i := 0;
    assert script[0..] == script && out + RunLoop(INITIAL, script).1 == RunLoop(INITIAL, script).1;
    while i < |script| && running
      invariant i <= |script|
      invariant last == Loop(state.Value(), watcher, pending, polling, running)
      invariant ValidScript(last, script[i..])
      invariant RunLoop(last, script[i..]).0 == RunLoop(INITIAL, script).0
      invariant out + RunLoop(last, script[i..]).1 == RunLoop(INITIAL, script).1
      decreases |script| - i
    {
      UnrollLoop(last, script, i);
      var messages;
      watcher, pending, polling, running, messages := IterateInPlace(state, watcher, pending, polling, script[i]);
      last := Loop(state.Value(), watcher, pending, polling, running);
      Reassociate(out, messages, RunLoop(last, script[i + 1..]).1);
      out := out + messages;
      i := i + 1;
    }
    assert RunLoop(last, script[i..]) == (last, []);
    assert out + [] == out;
  }

  lemma UnrollLoop(l: Loop, script: seq<Input>, i: nat)
    requires i < |script| && l.running && ValidScript(l, script[i..])
    ensures Selectable(l, script[i])
    ensures ValidScript(Iterate(l, script[i]).0, script[i + 1..])
    ensures RunLoop(l, script[i..]) ==
      (RunLoop(Iterate(l, script[i]).0, script[i + 1..]).0,
       Iterate(l, script[i]).1 + RunLoop(Iterate(l, script[i]).0, script[i + 1..]).1)
  {
  }

  lemma Reassociate<T>(a: seq<T>, b: seq<T>, c: seq<T>)
    ensures a + (b + c) == a + b + c
  {
  }

  method IterateInPlace(state: ProcessState, wasWatcher: bool, wasPending: bool, wasPolling: bool, input: Input)
    returns (watcher: bool, pending: bool, polling: bool, running: bool, messages: seq<ServerMessage>)
    modifies state
    ensures (Loop(state.Value(), watcher, pending, polling, running), messages)
            == Iterate(Loop(old(state.Value()), wasWatcher, wasPending, wasPolling, true), input)
  {
    watcher, pending, polling, running, messages := wasWatcher, wasPending, wasPolling, true, [];
    match input {
      case ReadLine(line, read) =>
        if line.None? {
          messages := [Goodbye("stdin closed")];
          running := false;
        } else {
          messages := state.HandleRequest(line.value, read);
          if !watcher && !pending {
            if polling { polling := state.subscribed; }
            if state.subscribed { pending := true; }
          }
        }
      case WatcherStopped =>
        messages := [Goodbye("watcher stopped")];
        running := false;
      case WatchEventTaken(first, debounced, refresh) =>
        if state.subscribed && first.ShouldRefresh() && debounced.ShouldRefresh() {
          if refresh.Err? {
            running := false;
          } else {
            messages := state.SnapshotUpdateMessages(refresh.value.snapshot);
          }
        }
      case WatcherStarted(ok, full) =>
        pending := false;
        if ok { watcher := true; } else { polling := true; }
        running, messages := RefreshIfSubscribed(state, full, running);
      case Tick(full) =>
        running, messages := RefreshIfSubscribed(state, full, running);
    }
  }

  method RefreshIfSubscribed(state: ProcessState, full: Result<RepositorySnapshot, SnapshotError>, wasRunning: bool)
    returns (running: bool, messages: seq<ServerMessage>)
    modifies state
    ensures forall watcher, pending, polling ::
      (Loop(state.Value(), watcher, pending, polling, running), messages)
        == RefreshSubscribed(Loop(old(state.Value()), watcher, pending, polling, wasRunning), full)
  {
    running, messages := wasRunning, [];
    if !state.subscribed {
      return;
    }
    if full.Err? {
      running := false;
      return;
    }
    messages := state.SnapshotUpdateMessages(full.value);
  }

  // ---------------------------------------------------------------- coverage of subscribers

  /** A subscriber is served by a watcher, or by one being started, or by polling; and a watcher
      is never started while one is active. */
  ghost predicate SubscriberCovered(l: Loop) {
    && (l.process.subscribed ==> l.watcher || l.pending || l.polling)
    && (l.watcher ==> !l.pending)
  }

  lemma IterationKeepsCoverage(l: Loop, input: Input)
    requires SubscriberCovered(l) && Selectable(l, input)
    ensures SubscriberCovered(Iterate(l, input).0)
  {
  }

  /** At every loop head of every run a subscriber is covered. */
  lemma {:induction false} SubscriberAlwaysCovered(l: Loop, script: seq<Input>)
    requires SubscriberCovered(l) && ValidScript(l, script)
    ensures SubscriberCovered(RunLoop(l, script).0)
    decreases |script|
  {
    if script != [] && l.running {
      IterationKeepsCoverage(l, script[0]);
      SubscriberAlwaysCovered(Iterate(l, script[0]).0, script[1..]);
    }
  }

  /** Once a watcher is active it stays active as long as the server runs. */
  lemma {:induction false} WatcherStays(l: Loop, script: seq<Input>)
    requires l.watcher && ValidScript(l, script)
    ensures RunLoop(l, script).0.watcher
    decreases |script|
  {
    if script != [] && l.running {
      assert Iterate(l, script[0]).0.watcher;
      WatcherStays(Iterate(l, script[0]).0, script[1..]);
    }
  }

  /** The handoff to a started watcher, or to polling, and every tick reread everything for a
      subscriber: a server that goes on holds exactly what was read. */
  lemma HandoffReadsEverything(l: Loop, input: Input)
    requires Selectable(l, input) && (input.WatcherStarted? || input.Tick?)
    requires l.running && l.process.subscribed
    ensures var next := Iterate(l, input).0;
      && (next.running <==> input.full.Ok?)
      && (next.running ==> next.process.latest == Some(input.full.value))
      && (input.WatcherStarted? ==> !next.pending && (if input.ok then next.watcher else next.polling))
  {
  }

  // ---------------------------------------------------------------- the loop only serves

  /** The action of the stream contract that an iteration carries out, if any. */
  ghost function ActionOf(l: Loop, input: Input): Option<Action> {
    match input
    case ReadLine(line, read) => if line.Some? then Some(Action.Line(line.value, read)) else None
    case WatcherStopped => None
    case WatchEventTaken(first, debounced, refresh) =>
      if l.process.subscribed && first.ShouldRefresh() && debounced.ShouldRefresh() && refresh.Ok?
      then Some(Refreshed(refresh.value.snapshot)) else None
    case WatcherStarted(_, full) => if l.process.subscribed && full.Ok? then Some(Refreshed(full.value)) else None
    case Tick(full) => if l.process.subscribed && full.Ok? then Some(Refreshed(full.value)) else None
  }

  ghost function ActionsOf(l: Loop, script: seq<Input>): seq<Action>
    decreases |script|
  {
    if script == [] || !l.running then []
    else
      var action := ActionOf(l, script[0]);
      (if action.Some? then [action.value] else []) + ActionsOf(Iterate(l, script[0]).0, script[1..])
  }

  ghost function ServeAll(p: Process, actions: seq<Action>): (Process, seq<ServerMessage>)
    decreases |actions|
  {
    if actions == [] then (p, [])
    else
      var (next, messages) := Replica.Serve(p, actions[0]);
      var (last, rest) := ServeAll(next, actions[1..]);
      (last, messages + rest)
  }

  ghost predicate IsGoodbye(m: ServerMessage) {
    m.Notification? && m.params.GoodbyeNote?
  }

  /** One iteration carries out its action, or is silent, or says goodbye. */
  ghost predicate Serves(l: Loop, input: Input) {
    var (next, messages) := Iterate(l, input);
    match ActionOf(l, input)
    case Some(action) => (next.process, messages) == Replica.Serve(l.process, action) && next.running == l.running
    case None => next.process == l.process && (messages == [] || (!next.running && |messages| == 1 && IsGoodbye(messages[0])))
  }

  lemma LineServes(l: Loop, line: Option<Result<Json, string>>, read: Reader)
    ensures Serves(l, ReadLine(line, read))
  {
  }

  lemma WatchServes(l: Loop, first: RefreshPlan, debounced: RefreshPlan, refresh: Result<SnapshotRefresh, SnapshotError>)
    ensures Serves(l, WatchEventTaken(first, debounced, refresh))
  {
  }

  lemma RefreshServes(l: Loop, full: Result<RepositorySnapshot, SnapshotError>)
    ensures var (next, messages) := RefreshSubscribed(l, full);
      if l.process.subscribed && full.Ok?
      then (next.process, messages) == Replica.Serve(l.process, Refreshed(full.value)) && next.running == l.running
      else next.process == l.process && messages == []
  {
  }

  lemma IterationServes(l: Loop, input: Input)
    ensures Serves(l, input)
  {
    match input
    case ReadLine(line, read) => LineServes(l, line, read);
    case WatcherStopped =>
    case WatchEventTaken(first, debounced, refresh) => WatchServes(l, first, debounced, refresh);
    case WatcherStarted(ok, full) =>
      RefreshServes(if ok then l.(pending := false, watcher := true) else l.(pending := false, polling := true), full);
    case Tick(full) => RefreshServes(l, full);
  }

  /** The messages of a whole run, up to a final goodbye, are those of the stream contract for
      the actions the run carries out; so what is proved about replication holds of it. */
  lemma {:induction false} ScriptServes(l: Loop, script: seq<Input>)
    requires ValidScript(l, script)
    ensures var (last, out) := RunLoop(l, script);
      var (process, served) := ServeAll(l.process, ActionsOf(l, script));
      && last.process == process
      && Ends(out, served, last)
    decreases |script|
  {
    if script != [] && l.running {
      var (next, messages) := Iterate(l, script[0]);
      IterationServes(l, script[0]);
      ScriptServes(next, script[1..]);
      var later := ActionsOf(next, script[1..]);
      if ActionOf(l, script[0]).Some? {
        ConsAction(l.process, ActionOf(l, script[0]).value, later);
        EndsLike(messages, RunLoop(next, script[1..]).1, ServeAll(next.process, later).1, RunLoop(next, script[1..]).0);
      } else {
        assert [] + later == later;
        if messages != [] {
          assert RunLoop(next, script[1..]) == (next, []) && later == [];
          assert messages + [] == messages && messages[..|messages| - 1] == [];
        } else {
          assert [] + RunLoop(next, script[1..]).1 == RunLoop(next, script[1..]).1;
        }
      }
    }
  }

  lemma ConsAction(p: Process, action: Action, later: seq<Action>)
    ensures ServeAll(p, [action] + later) ==
      (ServeAll(Replica.Serve(p, action).0, later).0, Replica.Serve(p, action).1 + ServeAll(Replica.Serve(p, action).0, later).1)
  {
  }

  /** `out` is `served`, or `served` and a goodbye of a server that has stopped. */
  ghost predicate Ends(out: seq<ServerMessage>, served: seq<ServerMessage>, last: Loop) {
    out == served || (!last.running && |out| > 0 && out[..|out| - 1] == served && IsGoodbye(out[|out| - 1]))
  }

  lemma EndsLike(messages: seq<ServerMessage>, out: seq<ServerMessage>, served: seq<ServerMessage>, last: Loop)
    requires Ends(out, served, last)
    ensures Ends(messages + out, messages + served, last)
  {
  }
}
