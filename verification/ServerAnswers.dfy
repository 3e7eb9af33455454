/** What an iteration of the server loop (src/main.rs) does, by what its select picks. */
module ServerAnswers {
  import opened Wrappers
  import opened Model
  import opened Repository
  import opened Protocol
  import opened ProtocolAnswers
  import opened Server

  /** The end of the input ends the server with a goodbye in every mode, and so does the end of the
      watcher. */
  lemma EndAnswers(l: Loop, read: Reader)
    ensures Iterate(l, ReadLine(None, read)) == (l.(running := false), [Notification("gitseer/goodbye", GoodbyeNote("stdin closed"))])
    ensures Iterate(l, WatcherStopped) == (l.(running := false), [Notification("gitseer/goodbye", GoodbyeNote("watcher stopped"))])
  {
  }

  /** A line is handled; and unless there is a watcher or one being started, one is started then
      exactly if the process is subscribed, and polling goes on only if it is. */
  lemma LineAnswers(l: Loop, line: Result<Json, string>, read: Reader)
    ensures var (next, messages) := Iterate(l, ReadLine(Some(line), read));
      && (next.process, messages) == Handle(l.process, line, read)
      && next.running == l.running && next.watcher == l.watcher
      && if l.watcher || l.pending then next.pending == l.pending && next.polling == l.polling
         else next.pending == next.process.subscribed && next.polling == (l.polling && next.process.subscribed)
  {
  }

  /** So a valid subscription leads to a watcher, whether or not its snapshot could be read. */
  lemma SubscriptionStartsWatcher(l: Loop, line: Result<Json, string>, read: Reader)
    requires ValidLine(line) && line.value.members["method"] == String("gitseer/subscribe")
    ensures var next := Iterate(l, ReadLine(Some(line), read)).0;
      next.process.subscribed && (next.watcher || next.pending)
  {
    LineAnswers(l, line, read);
    SubscribeAnswers(l.process, line, read);
  }

  /** An event refreshes a subscriber if it, and then the debounced plan, ask for something; a
      refresh that fails ends the server. */
  lemma WatchEventAnswers(l: Loop, first: RefreshPlan, debounced: RefreshPlan, refresh: Result<SnapshotRefresh, SnapshotError>)
    ensures var (next, messages) := Iterate(l, WatchEventTaken(first, debounced, refresh));
      if l.process.subscribed && first != NoRefresh && debounced != NoRefresh then
        match refresh
        case Ok(r) => (next.process, messages) == Update(l.process, r.snapshot) && next == l.(process := next.process)
        case Err(_) => next == l.(running := false) && messages == []
      else next == l && messages == []
  {
  }

  /** What a full read does for a subscriber: an update, or the end of the server. */
  ghost predicate ReadsInFull(before: Loop, full: Result<RepositorySnapshot, SnapshotError>, next: Loop, messages: seq<ServerMessage>) {
    if !before.process.subscribed then next == before && messages == []
    else
      match full
      case Ok(snapshot) => (next.process, messages) == Update(before.process, snapshot) && next == before.(process := next.process)
      case Err(_) => next == before.(running := false) && messages == []
  }

  /** A started watcher takes over, one that could not be started leaves it to polling; either way,
      and at every tick, everything is read. */
  lemma HandoffAnswers(l: Loop, full: Result<RepositorySnapshot, SnapshotError>)
    ensures var (next, messages) := Iterate(l, WatcherStarted(true, full));
      ReadsInFull(l.(watcher := true, pending := false), full, next, messages)
    ensures var (next, messages) := Iterate(l, WatcherStarted(false, full));
      ReadsInFull(l.(polling := true, pending := false), full, next, messages)
    ensures var (next, messages) := Iterate(l, Tick(full)); ReadsInFull(l, full, next, messages)
  {
  }

  /** A subscriber is never left unserved: it is offered a tick until it has a watcher, the start of
      the watcher while one is being started, and then the watcher's events; and lines in any case. */
  lemma SubscriberIsServed(l: Loop, input: Input)
    requires SubscriberCovered(l) && l.process.subscribed
    ensures Selectable(l, input) <==>
      match input
      case ReadLine(_, _) => true
      case Tick(_) => !l.watcher
      case WatcherStarted(_, _) => l.pending
      case WatchEventTaken(_, _, _) => l.watcher
      case WatcherStopped => l.watcher
  {
  }

  lemma RunCons(l: Loop, input: Input, rest: seq<Input>)
    requires l.running
    ensures RunLoop(l, [input] + rest)
              == (RunLoop(Iterate(l, input).0, rest).0, Iterate(l, input).1 + RunLoop(Iterate(l, input).0, rest).1)
  {
    assert ([input] + rest)[1..] == rest;
  }

  lemma RunOne(l: Loop, input: Input)
    requires l.running
    ensures RunLoop(l, [input]) == Iterate(l, input)
  {
    assert [input][1..] == [];
    assert Iterate(l, input).1 + [] == Iterate(l, input).1;
  }

  lemma {:induction false} RunConcat(l: Loop, a: seq<Input>, b: seq<Input>)
    ensures var (last, out) := RunLoop(l, a);
      RunLoop(l, a + b) == (RunLoop(last, b).0, out + RunLoop(last, b).1)
    decreases |a|
  {
    if a == [] {
      assert a + b == b && [] + RunLoop(l, b).1 == RunLoop(l, b).1;
    } else if l.running {
      assert a == [a[0]] + a[1..] && a + b == [a[0]] + (a[1..] + b);
      RunCons(l, a[0], a[1..]);
      RunCons(l, a[0], a[1..] + b);
      RunConcat(Iterate(l, a[0]).0, a[1..], b);
      Reassociate(Iterate(l, a[0]).1, RunLoop(Iterate(l, a[0]).0, a[1..]).1, RunLoop(RunLoop(l, a).0, b).1);
    } else {
      assert RunLoop(l, a) == (l, []) && RunLoop(l, b) == (l, []) && RunLoop(l, a + b) == (l, []);
      assert RunLoop(l, a).1 + RunLoop(l, b).1 == [];
    }
  }

  /** Whatever a server has done, it says goodbye when its input ends. */
  lemma GoodbyeAtEnd(l: Loop, script: seq<Input>, read: Reader)
    requires RunLoop(l, script).0.running
    ensures var (last, out) := RunLoop(l, script + [ReadLine(None, read)]);
      !last.running && out == RunLoop(l, script).1 + [Notification("gitseer/goodbye", GoodbyeNote("stdin closed"))]
  {
    RunConcat(l, script, [ReadLine(None, read)]);
    RunOne(RunLoop(l, script).0, ReadLine(None, read));
    EndAnswers(RunLoop(l, script).0, read);
  }
}
