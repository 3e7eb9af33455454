/** What events do to the watch set (src/watch.rs), by their kinds and paths. */
module WatchAnswers {
  import opened Wrappers
  import opened Model
  import opened Classify
  import opened EventQueue
  import opened Roots
  import opened Watch

  /** A queue of fewer than 4096 events takes one more; a full one stays, and the flag is set. */
  lemma EnqueueAnswers(queue: seq<WatchEvent>, overflowed: bool, event: WatchEvent)
    ensures Enqueue(Mailbox(queue, overflowed), event)
              == if |queue| < 4096 then Mailbox(queue + [event], overflowed) else Mailbox(queue, true)
  {
  }

  /** A rescan, and an event on a file of ignore rules, look for the targets again; a failed
      notification changes nothing. */
  lemma ReconcilingEvents(ws: Watches, layout: Layout, env: Environment, disk: Disk, event: Event)
    ensures event.rescan || (exists path :: path in event.paths && MayChangeIgnoreRules(env, layout, path)) ==>
      AfterEvent(ws, layout, env, disk, Notified(event)) ==
        match disk.located
        case None => (ws, layout)
        case Some(found) => (Replace(ws, found.targets, disk.canWatch), found.layout)
    ensures AfterEvent(ws, layout, env, disk, Failed) == (ws, layout)
  {
  }

  /** Once an event has made the watcher look for its targets, that event and all that are drained
      after it are classified by the directories found. */
  lemma FoundDirectoriesClassify(env: Environment, disk: Disk, turn: Turn, drained: nat)
    requires turn.box.queue != [] && disk.located.Some?
    requires var e := turn.box.queue[0];
      e.Notified? && (e.event.rescan || exists path :: path in e.event.paths && MayChangeIgnoreRules(env, turn.layout, path))
    requires drained < MAX_DEBOUNCE_DRAIN_EVENTS
    ensures var after := DrainWatching(env, disk, turn, drained);
      && after.layout == disk.located.value.layout
      && (after.box, after.plan) == Drain(env, disk.located.value.layout, turn.box, turn.plan, drained)
  {
    var event := turn.box.queue[0];
    var (ws, found) := AfterEvent(turn.watches, turn.layout, env, disk, event);
    DrainWatchingDrains(env, disk,
                        Turn(ws, found, turn.box.(queue := turn.box.queue[1..]), turn.plan.Combine(PlanForEvent(env, found, event))),
                        drained + 1);
  }

  /** Any other event changes the watch set only if it is of unknown kind, creates a folder or
      something unknown, or modifies a name or something unknown; and only in a worktree. */
  lemma DiscoveringKinds(ws: Watches, layout: Layout, env: Environment, disk: Disk, event: Event)
    requires !event.rescan && forall path :: path in event.paths ==> !MayChangeIgnoreRules(env, layout, path)
    ensures AfterEvent(ws, layout, env, disk, Notified(event)) ==
      if layout.worktreeRoot.Some?
         && event.kind in {AnyEvent, Create(CreateAny), Create(CreateFolder), Modify(ModifyAny), Modify(ModifyName)}
      then (AddAllIfNeeded(ws, layout, layout.worktreeRoot.value, disk, event.paths), layout)
      else (ws, layout)
  {
  }

  /** Handling an event waits for another thread iff it is a rescan or on a file of ignore rules, or
      of one of these kinds with a path that is a directory of the worktree, not under a git directory
      and not watched when its turn comes. */
  lemma SuspendingEvents(ws: Watches, layout: Layout, env: Environment, disk: Disk, event: Event)
    ensures !Suspends(ws, layout, env, disk, Failed)
    ensures Suspends(ws, layout, env, disk, Notified(event)) <==>
      || event.rescan || (exists path :: path in event.paths && MayChangeIgnoreRules(env, layout, path))
      || (layout.worktreeRoot.Some?
          && event.kind in {AnyEvent, Create(CreateAny), Create(CreateFolder), Modify(ModifyAny), Modify(ModifyName)}
          && exists i :: 0 <= i < |event.paths| && IsAwaited(ws, layout, layout.worktreeRoot.value, disk, event.paths, i))
  {
    if layout.worktreeRoot.Some? {
      forall i | 0 <= i < |event.paths|
        ensures IsAwaited(ws, layout, layout.worktreeRoot.value, disk, event.paths, i) <==>
          Discovers(AddAllIfNeeded(ws, layout, layout.worktreeRoot.value, disk, event.paths[..i]), layout,
                    layout.worktreeRoot.value, disk, event.paths[i])
      {
      }
    }
  }

  ghost predicate IsAwaited(ws: Watches, layout: Layout, root: Path, disk: Disk, paths: seq<Path>, i: nat)
    requires i < |paths|
  {
    && root <= paths[i] && disk.isDir(paths[i]) && !(layout.gitDir <= paths[i]) && !(layout.commonDir <= paths[i])
    && paths[i] !in Pruned(AddAllIfNeeded(ws, layout, root, disk, paths[..i]), root, disk).roots
  }

  /** Paths under the git directories, paths outside the worktree and what is no directory are passed
      over. */
  lemma PassedOver(ws: Watches, layout: Layout, root: Path, disk: Disk, path: Path)
    requires layout.gitDir <= path || layout.commonDir <= path || !(root <= path) || !disk.isDir(path)
    ensures AddIfNeeded(ws, layout, root, disk, path) == ws
  {
  }

  /** A directory of the worktree that exists, is discovered from itself and can be watched. */
  ghost predicate IsThere(layout: Layout, root: Path, disk: Disk, path: Path) {
    && root <= path && !(layout.gitDir <= path) && !(layout.commonDir <= path)
    && disk.isDir(path) && disk.onDisk(path) && path in disk.dirsFrom(root, path) && disk.canWatch(path)
  }

  lemma StaysWatched(ws: Watches, layout: Layout, root: Path, disk: Disk, other: Path, path: Path)
    requires ValidWatches(ws) && path in ws.os && disk.onDisk(path)
    ensures path in AddIfNeeded(ws, layout, root, disk, other).os
  {
    if Discovers(ws, layout, root, disk, other) {
      DiscoveryMeaning(ws, layout, root, disk, other);
    } else {
      RetainMeaning(ws, p => !(root <= p && !disk.onDisk(p)));
    }
  }

  lemma AddIfNeededValid(ws: Watches, layout: Layout, root: Path, disk: Disk, path: Path)
    requires ValidWatches(ws)
    ensures ValidWatches(AddIfNeeded(ws, layout, root, disk, path))
  {
    if Discovers(ws, layout, root, disk, path) {
      DiscoveryMeaning(ws, layout, root, disk, path);
    } else {
      RetainMeaning(ws, p => !(root <= p && !disk.onDisk(p)));
    }
  }

  /** Every directory of the event that is there is watched afterwards. */
  lemma {:induction false} EveryDirectoryIsWatched(ws: Watches, layout: Layout, root: Path, disk: Disk, paths: seq<Path>, path: Path)
    requires ValidWatches(ws)
    ensures ValidWatches(AddAllIfNeeded(ws, layout, root, disk, paths))
    ensures path in paths && IsThere(layout, root, disk, path) ==> path in AddAllIfNeeded(ws, layout, root, disk, paths).os
  {
    if paths != [] {
      var init, last := paths[..|paths| - 1], paths[|paths| - 1];
      assert paths == init + [last];
      EveryDirectoryIsWatched(ws, layout, root, disk, init, path);
      var before := AddAllIfNeeded(ws, layout, root, disk, init);
      AddIfNeededValid(before, layout, root, disk, last);
      if IsThere(layout, root, disk, path) {
        if path in init {
          StaysWatched(before, layout, root, disk, last, path);
        } else if path == last {
          DirectoryEventWatches(before, layout, root, disk, path);
        }
      }
    }
  }
}
