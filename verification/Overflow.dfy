/** What queue overflow costs: everything is read again, but the watch set is not brought up to
    date (src/watch.rs), so that a directory that is new when the queue is full stays unwatched. */
module Overflow {
  import opened Wrappers
  import opened Model
  import opened Repository
  import opened Classify
  import opened EventQueue
  import opened Roots
  import opened Watch
  import opened Pipeline
  import opened Convergence
  import opened PipelineRuns

  // ---------------------------------------------------------------- filling the queue

  ghost function EnqueueAll(box: Mailbox, events: seq<WatchEvent>): Mailbox
    decreases |events|
  {
    if events == [] then box else EnqueueAll(Enqueue(box, events[0]), events[1..])
  }

  /** The queue takes the first events up to its bound, and the flag tells whether there were more. */
  lemma {:induction false} EnqueueAllMeaning(box: Mailbox, events: seq<WatchEvent>)
    requires |box.queue| <= MAX_PENDING_WATCH_EVENTS
    ensures var room := MAX_PENDING_WATCH_EVENTS - |box.queue|;
      EnqueueAll(box, events) ==
        if |events| <= room then Mailbox(box.queue + events, box.overflowed)
        else Mailbox(box.queue + events[..room], true)
    decreases |events|
  {
    if events == [] {
      assert box.queue + events == box.queue;
    } else {
      EnqueueAllMeaning(Enqueue(box, events[0]), events[1..]);
      var room := MAX_PENDING_WATCH_EVENTS - |box.queue|;
      if room > 0 {
        assert box.queue + [events[0]] + events[1..] == box.queue + events;
        assert |events| > room ==> box.queue + [events[0]] + events[1..][..room - 1] == box.queue + events[..room];
      } else {
        assert box.queue + events[1..][..0] == box.queue && box.queue + events[..0] == box.queue;
        assert events[1..] == [] ==> box.queue + events[1..] == box.queue;
      }
    }
  }

  lemma {:induction false} DeliverAll(layout: Layout, s: State) returns (steps: seq<Step>)
    requires forall e :: e in s.undelivered ==> ShouldRefreshForEvent(e)
    ensures ValidRun(layout, s, steps)
    ensures Run(layout, s, steps) == s.(undelivered := [], box := EnqueueAll(s.box, s.undelivered))
    decreases |s.undelivered|
  {
    if s.undelivered == [] {
      steps := [];
    } else {
      var next := Apply(layout, s, Deliver);
      assert s.undelivered[0] in s.undelivered && forall e :: e in s.undelivered[1..] ==> e in s.undelivered;
      RunOne(layout, s, Deliver);
      var rest := DeliverAll(layout, next);
      RunConcat(layout, s, [Deliver], rest);
      steps := [Deliver] + rest;
    }
  }

  // ---------------------------------------------------------------- working the queue off

  /** Handling the event leaves the directory watched if it `tells` of it, and otherwise as it was. */
  ghost predicate Handles(layout: Layout, env: Environment, disk: Disk, e: WatchEvent, dir: Path, tells: bool) {
    forall ws: Watches {:trigger AfterEvent(ws, layout, env, disk, e)} :: ValidWatches(ws) ==>
      && ValidWatches(AfterEvent(ws, layout, env, disk, e).0)
      && (dir in AfterEvent(ws, layout, env, disk, e).0.os <==> tells || dir in ws.os)
  }

  /** `e` tells of the directory, and no other waiting event has to do with it. */
  ghost predicate OnlyTells(layout: Layout, s: State, e: WatchEvent, dir: Path) {
    && s.undelivered == [] && ValidWatches(s.watches)
    && forall other :: other in Waiting(s) ==> Handles(layout, s.env, s.disk, other, dir, other == e)
  }

  /** The directory is watched or will be. */
  ghost predicate WillWatch(s: State, e: WatchEvent, dir: Path) {
    e in Waiting(s) || dir in s.watches.os
  }

  /** From `s` to `s'` at most one waiting event is handled, and the watch set updated for it. */
  ghost predicate Moves(layout: Layout, s: State, s': State, taken: Option<WatchEvent>) {
    && s'.undelivered == s.undelivered && s'.env == s.env && s'.disk == s.disk
    && match taken
       case None => Waiting(s') == Waiting(s) && s'.watches == s.watches
       case Some(e) =>
         Waiting(s) == [e] + Waiting(s') && s'.watches == AfterEvent(s.watches, layout, s.env, s.disk, e).0
  }

  lemma TakeHandles(layout: Layout, s: State)
    requires s.phase.Idle? && s.box.queue != []
    ensures Suspends(s.watches, layout, s.env, s.disk, s.box.queue[0]) ==> Moves(layout, s, TakeEvent(layout, s), None)
    ensures !Suspends(s.watches, layout, s.env, s.disk, s.box.queue[0]) ==>
              Moves(layout, s, TakeEvent(layout, s), Some(s.box.queue[0]))
  {
    assert s.box.queue == [s.box.queue[0]] + s.box.queue[1..];
    assert [s.box.queue[0]] + s.box.queue[1..] + s.undelivered == [s.box.queue[0]] + (s.box.queue[1..] + s.undelivered);
  }

  lemma OtherStepsHandleNothing(layout: Layout, s: State, step: Step)
    requires s.undelivered == [] && Enabled(layout, s, step) && IsServerStep(step)
    requires step != Take && step != Resume && step != DrainOne
    ensures Moves(layout, s, Apply(layout, s, step), None)
  {
  }

  lemma StepHandles(layout: Layout, s: State, step: Step) returns (taken: Option<WatchEvent>)
    requires s.undelivered == [] && Enabled(layout, s, step) && IsServerStep(step)
    ensures Moves(layout, s, Apply(layout, s, step), taken)
  {
    taken := None;
    match step
    case Take =>
      TakeHandles(layout, s);
      if !Suspends(s.watches, layout, s.env, s.disk, s.box.queue[0]) { taken := Some(s.box.queue[0]); }
    case Resume => taken := Some(s.phase.event);
    case DrainOne => taken := Some(s.box.queue[0]);
    case _ => OtherStepsHandleNothing(layout, s, step);
  }

  lemma HandledOn(layout: Layout, env: Environment, disk: Disk, ws: Watches, e: WatchEvent, dir: Path, tells: bool)
    requires Handles(layout, env, disk, e, dir, tells) && ValidWatches(ws)
    ensures ValidWatches(AfterEvent(ws, layout, env, disk, e).0)
    ensures dir in AfterEvent(ws, layout, env, disk, e).0.os <==> tells || dir in ws.os
  {
  }

  lemma StepTells(layout: Layout, s: State, step: Step, e: WatchEvent, dir: Path)
    requires OnlyTells(layout, s, e, dir) && Enabled(layout, s, step) && IsServerStep(step)
    ensures var s' := Apply(layout, s, step);
      OnlyTells(layout, s', e, dir) && (WillWatch(s', e, dir) <==> WillWatch(s, e, dir))
  {
    var taken := StepHandles(layout, s, step);
    if taken.Some? {
      assert taken.value in Waiting(s);
      HandledOn(layout, s.env, s.disk, s.watches, taken.value, dir, taken.value == e);
    }
    StillOnlyTells(layout, s, Apply(layout, s, step), if taken.Some? then [taken.value] else [], e, dir);
  }

  lemma StillOnlyTells(layout: Layout, s: State, s': State, taken: seq<WatchEvent>, e: WatchEvent, dir: Path)
    requires OnlyTells(layout, s, e, dir) && s'.undelivered == [] && s'.env == s.env && s'.disk == s.disk
    requires Waiting(s) == taken + Waiting(s') && ValidWatches(s'.watches)
    requires dir in s'.watches.os <==> e in taken || dir in s.watches.os
    ensures OnlyTells(layout, s', e, dir) && (WillWatch(s', e, dir) <==> WillWatch(s, e, dir))
  {
    assert forall other :: other in Waiting(s') ==> other in Waiting(s);
  }

  /** A steady server whose events have all been delivered works them off by itself, and then the
      directory is watched exactly when it was or its event was there. */
  lemma {:induction false} WorksOff(layout: Layout, s: State, e: WatchEvent, dir: Path) returns (steps: seq<Step>)
    requires Serving(s) && Steady(s) && !s.phase.Stopped? && Inv(layout, s) && OnlyTells(layout, s, e, dir)
    ensures ValidRun(layout, s, steps)
    ensures var last := Run(layout, s, steps);
      && NothingPending(last) && last.subscribed && last.world == s.world && Inv(layout, last) && s.sound <= last.sound
      && (dir in last.watches.os <==> WillWatch(s, e, dir))
    decreases Work(s)
  {
    if NothingPending(s) {
      assert Waiting(s) == [];
      steps := [];
    } else {
      if forall step :: IsServerStep(step) ==> !Enabled(layout, s, step) {
        StuckIsQuiescent(layout, s);
        assert false;
      }
      var step :| IsServerStep(step) && Enabled(layout, s, step);
      var next := Apply(layout, s, step);
      ServerStepWorks(layout, s, step);
      StepKeepsInv(layout, s, step);
      StepKeepsSound(layout, s, step);
      StepStaysSteady(layout, s, step);
      StepTells(layout, s, step, e, dir);
      RunOne(layout, s, step);
      var rest := WorksOff(layout, next, e, dir);
      RunConcat(layout, s, [step], rest);
      steps := [step] + rest;
    }
  }

  // ---------------------------------------------------------------- the forgotten directory

  ghost function CreatedEvent(dir: Path): WatchEvent {
    Notified(Event(Create(CreateFolder), [dir], false))
  }

  /** A new directory of the worktree that can be watched. */
  ghost predicate IsNewDirectory(layout: Layout, env: Environment, disk: Disk, dir: Path) {
    && layout.worktreeRoot.Some? && layout.worktreeRoot.value <= dir && !InGitDir(layout, dir)
    && !MayChangeIgnoreRules(env, layout, dir)
    && disk.isDir(dir) && dir in disk.dirsFrom(layout.worktreeRoot.value, dir) && disk.canWatch(dir)
  }

  lemma CreationTells(layout: Layout, env: Environment, disk: Disk, dir: Path)
    requires IsNewDirectory(layout, env, disk, dir)
    ensures Handles(layout, env, disk, CreatedEvent(dir), dir, true)
  {
    forall ws: Watches | ValidWatches(ws)
      ensures var after := AfterEvent(ws, layout, env, disk, CreatedEvent(dir)).0; ValidWatches(after) && dir in after.os
    {
      CreationWatches(ws, layout, env, disk, dir);
    }
  }

  lemma CreationWatches(ws: Watches, layout: Layout, env: Environment, disk: Disk, dir: Path)
    requires ValidWatches(ws) && IsNewDirectory(layout, env, disk, dir)
    ensures var after := AfterEvent(ws, layout, env, disk, CreatedEvent(dir)).0; ValidWatches(after) && dir in after.os
  {
    var root := layout.worktreeRoot.value;
    assert !EventMayChangeIgnoreRules(env, layout, CreatedEvent(dir).event);
    assert [dir][..0] == [] && AddAllIfNeeded(ws, layout, root, disk, [dir]) == AddIfNeeded(ws, layout, root, disk, dir);
    DirectoryEventWatches(ws, layout, root, disk, dir);
  }

  lemma NothingChanges(layout: Layout, s: State, disk: Disk, events: seq<WatchEvent>)
    requires s.phase.Idle?
    ensures Apply(layout, s, Mutate(s.world, s.env, disk, events)) == s.(disk := disk, undelivered := s.undelivered + events)
  {
    StaysAllSound(layout, s, s.world, s.env, events, s.sound);
  }

  /** A directory appears after a burst of other events. When all has been dealt with the server
      goes on with a full read and nothing pending, and the directory is watched exactly when the
      burst left room in the queue for its event. */
  lemma NewDirectoryIsWatchedExactly(layout: Layout, env: Environment, before: Disk, disk: Disk, watches: Watches,
                                     t: RepositorySnapshot, burst: seq<WatchEvent>, dir: Path)
    returns (start: State, steps: seq<Step>)
    requires ValidWatches(watches) && dir !in watches.os && IsNewDirectory(layout, env, disk, dir)
    requires forall e :: e in burst ==> ShouldRefreshForEvent(e) && Handles(layout, env, disk, e, dir, false)
    ensures Init(start) && ValidRun(layout, start, steps)
    ensures var last := Run(layout, start, steps);
      && NothingPending(last) && last.subscribed && HoldsFullRead(last)
      && (dir in last.watches.os <==> |burst| < 4096)
  {
    var e := CreatedEvent(dir);
    start, steps := SubscribedTo(layout, env, before, watches, t);
    var queued := BurstArrives(layout, Subscribed(t, env, before, watches), disk, burst + [e]);
    RunConcat(layout, start, steps, queued);
    steps := steps + queued;
    var s := Run(layout, start, steps);
    CreationTells(layout, env, disk, dir);
    BurstHasNoOther(layout, env, disk, watches, burst, e, dir);
    QueuedBurst(Mailbox([], false), burst, e);
    BurstTells(layout, s, burst, e, dir);
    RunKeepsInv(layout, start, steps);
    WorldOfReads(t, HeadField);
    var rest := WorksOff(layout, s, e, dir);
    RunConcat(layout, start, steps, rest);
    steps := steps + rest;
    NothingIsStale(layout, Run(layout, start, steps));
  }

  lemma BurstArrives(layout: Layout, s: State, disk: Disk, events: seq<WatchEvent>) returns (steps: seq<Step>)
    requires NothingPending(s) && forall e :: e in events ==> ShouldRefreshForEvent(e)
    ensures ValidRun(layout, s, steps)
    ensures Run(layout, s, steps) == s.(disk := disk, box := EnqueueAll(s.box, events))
  {
    NothingChanges(layout, s, disk, events);
    var raised := PipelineRuns.Then(layout, s, [], Mutate(s.world, s.env, disk, events));
    assert s.undelivered + events == events;
    var delivered := DeliverAll(layout, Run(layout, s, raised));
    RunConcat(layout, s, raised, delivered);
    steps := raised + delivered;
  }

  lemma NothingIsStale(layout: Layout, s: State)
    requires Inv(layout, s) && NothingPending(s) && ALL_DOMAINS <= s.sound && s.world.discover.None?
    ensures HoldsFullRead(s)
  {
    QuiescentIsFresh(layout, s);
    FreshEverywhere(s);
  }

  /** What gets into the queue of such a burst. */
  lemma QueuedBurst(empty: Mailbox, burst: seq<WatchEvent>, e: WatchEvent)
    requires empty.queue == [] && e !in burst
    ensures var box := EnqueueAll(empty, burst + [e]);
      && (forall other :: other in box.queue ==> other == e || other in burst)
      && (e in box.queue <==> |burst| < MAX_PENDING_WATCH_EVENTS)
  {
    var n := MAX_PENDING_WATCH_EVENTS;
    EnqueueAllMeaning(empty, burst + [e]);
    assert [] + (burst + [e]) == burst + [e];
    if |burst| >= n {
      assert [] + (burst + [e])[..n] == burst[..n];
    }
  }

  lemma BurstHasNoOther(layout: Layout, env: Environment, disk: Disk, watches: Watches, burst: seq<WatchEvent>, e: WatchEvent, dir: Path)
    requires ValidWatches(watches) && dir !in watches.os && Handles(layout, env, disk, e, dir, true)
    requires forall other :: other in burst ==> Handles(layout, env, disk, other, dir, false)
    ensures e !in burst
  {
    HandledOn(layout, env, disk, watches, e, dir, true);
    if e in burst { HandledOn(layout, env, disk, watches, e, dir, false); }
  }

  lemma BurstTells(layout: Layout, s: State, burst: seq<WatchEvent>, e: WatchEvent, dir: Path)
    requires s.phase.Idle? && s.undelivered == [] && ValidWatches(s.watches) && dir !in s.watches.os
    requires forall other :: other in s.box.queue ==> other == e || other in burst
    requires Handles(layout, s.env, s.disk, e, dir, true) && e !in burst
    requires forall other :: other in burst ==> Handles(layout, s.env, s.disk, other, dir, false)
    ensures OnlyTells(layout, s, e, dir) && (WillWatch(s, e, dir) <==> e in s.box.queue)
  {
    assert Waiting(s) == s.box.queue;
    forall other | other in Waiting(s) ensures Handles(layout, s.env, s.disk, other, dir, other == e) {
      if other != e { assert other in burst; }
    }
  }

  /** Such a burst: the file of a fetch, written over and over. */
  lemma FetchIsInert(layout: Layout, env: Environment, disk: Disk, dir: Path)
    requires !env.isExcludesFile(layout.gitDir + ["FETCH_HEAD"])
    ensures var e := ModifiedEvent(layout.gitDir + ["FETCH_HEAD"]); ShouldRefreshForEvent(e) && Handles(layout, env, disk, e, dir, false)
  {
    var path := layout.gitDir + ["FETCH_HEAD"];
    assert StripGitDir(layout, path) == ["FETCH_HEAD"];
    FetchIsNoIgnoreRule("FETCH_HEAD");
    assert path[|path| - 1] == "FETCH_HEAD";
    assert !MayChangeIgnoreRules(env, layout, path);
    assert !EventMayChangeIgnoreRules(env, layout, ModifiedEvent(path).event);
  }

  lemma FetchIsNoIgnoreRule(text: string)
    requires text == "FETCH_HEAD"
    ensures text !in {"info/exclude", "config", "config.worktree", ".gitignore"} && Text([text]) == text
  {
    assert |text| == 10 && text[0] == 'F';
  }

  /** With 4096 of them before it the directory is forgotten: the flag is taken and everything is
      read, but nothing watches the directory. */
  lemma OverflowForgetsDirectory(layout: Layout, env: Environment, before: Disk, disk: Disk, watches: Watches,
                                 t: RepositorySnapshot, dir: Path)
    returns (start: State, steps: seq<Step>)
    requires ValidWatches(watches) && dir !in watches.os && IsNewDirectory(layout, env, disk, dir)
    requires !env.isExcludesFile(layout.gitDir + ["FETCH_HEAD"])
    ensures Init(start) && ValidRun(layout, start, steps)
    ensures var last := Run(layout, start, steps);
      NothingPending(last) && last.subscribed && HoldsFullRead(last) && dir !in last.watches.os
  {
    FetchIsInert(layout, env, disk, dir);
    var burst := seq(MAX_PENDING_WATCH_EVENTS, _ => ModifiedEvent(layout.gitDir + ["FETCH_HEAD"]));
    start, steps := NewDirectoryIsWatchedExactly(layout, env, before, disk, watches, t, burst, dir);
  }
}
