/** The repository watcher (src/watch.rs): an event queue, an overflow flag and a watch set that
    its methods update in place. What the disk and libgit2 answer is a `Disk`. */
module Watch {
  import opened Wrappers
  import opened Ordered
  import opened Model
  import opened Classify
  import opened EventQueue
  import opened Roots

  // ---------------------------------------------------------------- the watch set as a value

  /** `roots` is the list the watcher keeps, `os` what the notify backend watches and how. */
  datatype Watches = Watches(roots: seq<Path>, os: map<Path, WatchMode>)

  /** What `snapshot_repository` says about the targets and directories, if it succeeds. */
  datatype Located = Located(targets: seq<WatchTarget>, layout: Layout)

  datatype Disk = Disk(
    located: Option<Located>, isDir: Path -> bool, onDisk: Path -> bool, canWatch: Path -> bool,
    dirsFrom: (Path, Path) -> seq<Path>)

  ghost predicate ValidWatches(ws: Watches) {
    NoDuplicatePaths(ws.roots) && Elements(ws.roots) == ws.os.Keys
  }

  function AddRoot(ws: Watches, path: Path, mode: WatchMode, canWatch: Path -> bool): Watches {
    if path in ws.roots || !canWatch(path) then ws
    else Watches(ws.roots + [path], ws.os[path := mode])
  }

  function AddTargets(ws: Watches, targets: seq<WatchTarget>, canWatch: Path -> bool): Watches {
    if targets == [] then ws
    else
      var last := targets[|targets| - 1];
      AddRoot(AddTargets(ws, targets[..|targets| - 1], canWatch), last.path, last.mode, canWatch)
  }

  function AddDirs(ws: Watches, dirs: seq<Path>, canWatch: Path -> bool): Watches {
    if dirs == [] then ws
    else AddRoot(AddDirs(ws, dirs[..|dirs| - 1], canWatch), dirs[|dirs| - 1], NonRecursive, canWatch)
  }

  /** `watched_roots.retain(keep)`, unwatching what is not kept. */
  function Retain(ws: Watches, keep: Path -> bool): Watches
    decreases |ws.roots|
  {
    if ws.roots == [] then ws
    else
      var path := ws.roots[|ws.roots| - 1];
      var rest := Retain(ws.(roots := ws.roots[..|ws.roots| - 1]), keep);
      if keep(path) then rest.(roots := rest.roots + [path]) else rest.(os := rest.os - {path})
  }

  ghost predicate DistinctTargets(targets: seq<WatchTarget>) {
    forall i, j :: 0 <= i < j < |targets| ==> targets[i].path != targets[j].path
  }

  function TargetPaths(targets: seq<WatchTarget>): set<Path> {
    set t | t in targets :: t.path
  }

  function Replace(ws: Watches, targets: seq<WatchTarget>, canWatch: Path -> bool): Watches {
    AddTargets(Retain(ws, p => p in TargetPaths(targets)), targets, canWatch)
  }

  predicate EventCanCreateDirectoryWatch(event: Event) {
    match event.kind
    case AnyEvent => true
    case Create(kind) => kind == CreateAny || kind == CreateFolder
    case Modify(kind) => kind == ModifyAny || kind == ModifyName
    case _ => false
  }

  /** `prune_stale_worktree_watch_roots` */
  function Pruned(ws: Watches, root: Path, disk: Disk): Watches {
    Retain(ws, p => !(root <= p && !disk.onDisk(p)))
  }

  function AddIfNeeded(ws: Watches, layout: Layout, root: Path, disk: Disk, path: Path): Watches {
    if InGitDir(layout, path) || !disk.isDir(path) || !(root <= path) then ws
    else
      var pruned := Pruned(ws, root, disk);
      if path in pruned.roots then pruned else AddDirs(pruned, disk.dirsFrom(root, path), disk.canWatch)
  }

  /** The path is a worktree directory whose discovery is handed to another thread. */
  predicate Discovers(ws: Watches, layout: Layout, root: Path, disk: Disk, path: Path) {
    !InGitDir(layout, path) && disk.isDir(path) && root <= path && path !in Pruned(ws, root, disk).roots
  }

  function AddAllIfNeeded(ws: Watches, layout: Layout, root: Path, disk: Disk, paths: seq<Path>): Watches {
    if paths == [] then ws
    else AddIfNeeded(AddAllIfNeeded(ws, layout, root, disk, paths[..|paths| - 1]), layout, root, disk, paths[|paths| - 1])
  }

  predicate Reconciles(env: Environment, layout: Layout, event: WatchEvent) {
    event.Notified? && (event.event.rescan || EventMayChangeIgnoreRules(env, layout, event.event))
  }

  /** `update_watches_for_event`: the watch set and the directories afterwards. */
  function AfterEvent(ws: Watches, layout: Layout, env: Environment, disk: Disk, event: WatchEvent): (Watches, Layout) {
    if Reconciles(env, layout, event) then
      if disk.located.None? then (ws, layout)
      else (Replace(ws, disk.located.value.targets, disk.canWatch), disk.located.value.layout)
    else if event.Notified? && layout.worktreeRoot.Some? && EventCanCreateDirectoryWatch(event.event) then
      (AddAllIfNeeded(ws, layout, layout.worktreeRoot.value, disk, event.event.paths), layout)
    else (ws, layout)
  }

  /** Handling the event awaits another thread, so that `next_event` can be cancelled after it has
      received the event. Every other event is handled without an await. */
  predicate Suspends(ws: Watches, layout: Layout, env: Environment, disk: Disk, event: WatchEvent) {
    Reconciles(env, layout, event)
    || (event.Notified? && layout.worktreeRoot.Some? && EventCanCreateDirectoryWatch(event.event)
        && exists i :: 0 <= i < |event.event.paths| &&
             Discovers(AddAllIfNeeded(ws, layout, layout.worktreeRoot.value, disk, event.event.paths[..i]),
                       layout, layout.worktreeRoot.value, disk, event.event.paths[i]))
  }

  datatype Turn = Turn(watches: Watches, layout: Layout, box: Mailbox, plan: RefreshPlan)

  /** The drain loop with its updates of the watch set and of the directories it classifies by. */
  function DrainWatching(env: Environment, disk: Disk, turn: Turn, drained: nat): Turn
    decreases |turn.box.queue|
  {
    if turn.box.queue == [] || drained >= MAX_DEBOUNCE_DRAIN_EVENTS then turn
    else
      var event := turn.box.queue[0];
      var (ws, layout) := AfterEvent(turn.watches, turn.layout, env, disk, event);
      DrainWatching(env, disk,
                    Turn(ws, layout, turn.box.(queue := turn.box.queue[1..]),
                         turn.plan.Combine(PlanForEvent(env, layout, event))),
                    drained + 1)
  }

  // ---------------------------------------------------------------- the watcher

  class RepositoryWatcher {
    var queue: seq<WatchEvent>
    var queueOverflowed: bool
    var watchedRoots: seq<Path>
    var osWatches: map<Path, WatchMode>
    var layout: Layout

    function Box(): Mailbox
      reads this
    {
      Mailbox(queue, queueOverflowed)
    }

    function Watched(): Watches
      reads this
    {
      Watches(watchedRoots, osWatches)
    }

    ghost predicate Valid()
      reads this
    {
      ValidWatches(Watched())
    }

    /** The watcher after all its targets could be watched. */
    constructor (located: Located)
      requires DistinctTargets(located.targets)
      ensures Box() == Mailbox([], false) && layout == located.layout
      ensures Watched() == AddTargets(Watches([], map[]), located.targets, (_: Path) => true)
      ensures Valid()
    {
      queue, queueOverflowed, layout := [], false, located.layout;
      watchedRoots, osWatches := [], map[];
      new;
      for i := 0 to |located.targets|
        invariant Box() == Mailbox([], false) && layout == located.layout
        invariant Watched() == AddTargets(Watches([], map[]), located.targets[..i], (_: Path) => true)
        invariant Elements(watchedRoots) == TargetPaths(located.targets[..i])
      {
        var target := located.targets[i];
        assert located.targets[..i + 1] == located.targets[..i] + [target];
        assert target.path in watchedRoots <==> target.path in Elements(watchedRoots);
        assert target.path !in TargetPaths(located.targets[..i]);
        SnocElements(watchedRoots, target.path);
        assert TargetPaths(located.targets[..i + 1]) == TargetPaths(located.targets[..i]) + {target.path};
        watchedRoots, osWatches := watchedRoots + [target.path], osWatches[target.path := target.mode];
      }
      assert located.targets[..|located.targets|] == located.targets;
      AddTargetsValid(Watches([], map[]), located.targets, (_: Path) => true);
    }

    method EnqueueEvent(event: WatchEvent)
      modifies this`queue, this`queueOverflowed
      ensures Box() == Enqueue(old(Box()), event)
    {
      if |queue| < MAX_PENDING_WATCH_EVENTS {
        queue := queue + [event];
      } else {
        queueOverflowed := true;
      }
    }

    method TakeQueueOverflow() returns (was: bool)
      modifies this`queueOverflowed
      ensures was == old(queueOverflowed) && !queueOverflowed
    {
      was := queueOverflowed;
      queueOverflowed := false;
    }

    /** The call as it is when no line interrupts it; `None` means that it is still waiting. */
    method NextEvent(env: Environment, disk: Disk) returns (event: Option<WatchEvent>)
      requires Valid()
      modifies this
      ensures Valid()
      ensures old(queueOverflowed) ==>
        event == Some(Failed) && Box() == old(Box()).(overflowed := false) && Watched() == old(Watched()) && layout == old(layout)
      ensures !old(queueOverflowed) && old(queue) == [] ==>
        event == None && Box() == old(Box()) && Watched() == old(Watched()) && layout == old(layout)
      ensures !old(queueOverflowed) && old(queue) != [] ==>
        event == Some(old(queue)[0]) && Box() == old(Box()).(queue := old(queue)[1..])
        && (Watched(), layout) == AfterEvent(old(Watched()), old(layout), env, disk, old(queue)[0])
    {
      var overflowed := TakeQueueOverflow();
      if overflowed {
        return Some(Failed);
      }
      if queue == [] {
        return None;
      }
      event := Some(queue[0]);
      queue := queue[1..];
      UpdateWatchesForEvent(env, disk, event.value);
    }

    method UpdateWatchesForEvent(env: Environment, disk: Disk, event: WatchEvent)
      requires Valid()
      modifies this`watchedRoots, this`osWatches, this`layout
      ensures Valid()
      ensures (Watched(), layout) == AfterEvent(old(Watched()), old(layout), env, disk, event)
    {
      if event.Failed? {
        return;
      }
      if event.event.rescan {
        ReconcileWatchTargets(disk);
        return;
      }
      var ignoreRules := EventMayChangeIgnoreRules(env, layout, event.event);
      if ignoreRules {
        ReconcileWatchTargets(disk);
        return;
      }
      AddWorktreeWatchesForEvent(disk, event.event);
    }

    method ReconcileWatchTargets(disk: Disk)
      requires Valid()
      modifies this`watchedRoots, this`osWatches, this`layout
      ensures Valid()
      ensures disk.located.None? ==> Watched() == old(Watched()) && layout == old(layout)
      ensures disk.located.Some? ==>
        Watched() == Replace(old(Watched()), disk.located.value.targets, disk.canWatch)
        && layout == disk.located.value.layout
    {
      if disk.located.None? {
        return;
      }
      layout := disk.located.value.layout;
      ReplaceWatchTargets(disk.located.value.targets, disk.canWatch);
    }

    method AddWorktreeWatchesForEvent(disk: Disk, event: Event)
      requires Valid()
      modifies this`watchedRoots, this`osWatches
      ensures Valid()
      ensures Watched() ==
        if layout.worktreeRoot.Some? && EventCanCreateDirectoryWatch(event)
        then AddAllIfNeeded(old(Watched()), layout, layout.worktreeRoot.value, disk, event.paths) else old(Watched())
    {
      if layout.worktreeRoot.None? {
        return;
      }
      var root := layout.worktreeRoot.value;
      if !EventCanCreateDirectoryWatch(event) {
        return;
      }
      for i := 0 to |event.paths|
        invariant Valid()
        invariant Watched() == AddAllIfNeeded(old(Watched()), layout, root, disk, event.paths[..i])
      {
        assert event.paths[..i + 1][..i] == event.paths[..i];
        AddWorktreeWatchIfNeeded(root, disk, event.paths[i]);
      }
      assert event.paths[..|event.paths|] == event.paths;
    }

    method AddWorktreeWatchIfNeeded(root: Path, disk: Disk, path: Path)
      requires Valid()
      modifies this`watchedRoots, this`osWatches
      ensures Valid()
      ensures Watched() == AddIfNeeded(old(Watched()), layout, root, disk, path)
    {
      if InGitDir(layout, path) {
        return;
      }
      if !disk.isDir(path) || !(root <= path) {
        return;
      }
      PruneStaleWorktreeWatchRoots(root, disk);
      if path in watchedRoots {
        return;
      }
      ghost var pruned := Watched();
      var dirs := disk.dirsFrom(root, path);
      for i := 0 to |dirs|
        invariant Valid()
        invariant Watched() == AddDirs(pruned, dirs[..i], disk.canWatch)
      {
        assert dirs[..i + 1][..i] == dirs[..i];
        WatchRoot(dirs[i], NonRecursive, disk.canWatch);
      }
      assert dirs[..|dirs|] == dirs;
    }

    method ReplaceWatchTargets(targets: seq<WatchTarget>, canWatch: Path -> bool)
      requires Valid()
      modifies this`watchedRoots, this`osWatches
      ensures Valid()
      ensures Watched() == Replace(old(Watched()), targets, canWatch)
    {
      RetainRoots(p => p in TargetPaths(targets));
      ghost var kept := Watched();
      for i := 0 to |targets|
        invariant Valid()
        invariant Watched() == AddTargets(kept, targets[..i], canWatch)
      {
        assert targets[..i + 1][..i] == targets[..i];
        WatchRoot(targets[i].path, targets[i].mode, canWatch);
      }
      assert targets[..|targets|] == targets;
    }

    method WatchRoot(path: Path, mode: WatchMode, canWatch: Path -> bool)
      requires Valid()
      modifies this`watchedRoots, this`osWatches
      ensures Valid()
      ensures Watched() == AddRoot(old(Watched()), path, mode, canWatch)
    {
      if path in watchedRoots {
        return;
      }
      if canWatch(path) {
        AddRootValid(Watched(), path, mode, canWatch);
        osWatches := osWatches[path := mode];
        watchedRoots := watchedRoots + [path];
      }
    }

    method PruneStaleWorktreeWatchRoots(root: Path, disk: Disk)
      requires Valid()
      modifies this`watchedRoots, this`osWatches
      ensures Valid()
      ensures Watched() == Pruned(old(Watched()), root, disk)
    {
      RetainRoots(p => !(root <= p && !disk.onDisk(p)));
    }

    /** Unwatches and forgets the roots that are not to be kept. */
    method RetainRoots(keep: Path -> bool)
      requires Valid()
      modifies this`watchedRoots, this`osWatches
      ensures Valid()
      ensures Watched() == Retain(old(Watched()), keep)
    {
      var current := watchedRoots;
      RetainValid(Watched(), keep);
      watchedRoots := [];
      for i := 0 to |current|
        invariant Watched() == Retain(Watches(current[..i], old(osWatches)), keep)
      {
        assert current[..i + 1][..i] == current[..i];
        if keep(current[i]) {
          watchedRoots := watchedRoots + [current[i]];
        } else {
          osWatches := osWatches - {current[i]};
        }
      }
      assert current[..|current|] == current;
    }

    /** One debounce turn over the queue as it is. */
    method DrainPendingPlan(env: Environment, disk: Disk, initial: RefreshPlan) returns (plan: RefreshPlan)
      requires Valid()
      modifies this
      ensures Valid()
      ensures old(queueOverflowed) ==>
        plan == Full && Box() == old(Box()).(overflowed := false) && Watched() == old(Watched()) && layout == old(layout)
      ensures !old(queueOverflowed) ==>
        Turn(Watched(), layout, Box(), plan) == DrainWatching(env, disk, Turn(old(Watched()), old(layout), old(Box()), initial), 0)
    {
      var overflowed := TakeQueueOverflow();
      if overflowed {
        return Full;
      }
      plan := initial;
      var drained := 0;
      while queue != []
        invariant Valid() && !queueOverflowed
        invariant drained < MAX_DEBOUNCE_DRAIN_EVENTS
        invariant DrainWatching(env, disk, Turn(Watched(), layout, Box(), plan), drained)
                  == DrainWatching(env, disk, Turn(old(Watched()), old(layout), old(Box()), initial), 0)
        decreases |queue|
      {
        var event := queue[0];
        queue := queue[1..];
        UpdateWatchesForEvent(env, disk, event);
        plan := plan.Combine(PlanForEvent(env, layout, event));
        drained := drained + 1;
        if drained >= MAX_DEBOUNCE_DRAIN_EVENTS {
          break;
        }
      }
      overflowed := TakeQueueOverflow();
      if overflowed {
        plan := Full;
      }
    }
  }

  /** `RepositoryWatcher::new`: there is no watcher when the repository cannot be read or one of
      its targets cannot be watched. */
  method StartWatcher(disk: Disk) returns (watcher: RepositoryWatcher?)
    requires disk.located.Some? ==> DistinctTargets(disk.located.value.targets)
    ensures watcher == null <==> disk.located.None? || exists t :: t in disk.located.value.targets && !disk.canWatch(t.path)
    ensures watcher != null ==>
      && fresh(watcher) && watcher.Valid()
      && watcher.Box() == Mailbox([], false) && watcher.layout == disk.located.value.layout
      && watcher.Watched() == AddTargets(Watches([], map[]), disk.located.value.targets, (_: Path) => true)
  {
    if disk.located.None? {
      return null;
    }
    var targets := disk.located.value.targets;
    for i := 0 to |targets|
      invariant forall j :: 0 <= j < i ==> disk.canWatch(targets[j].path)
    {
      if !disk.canWatch(targets[i].path) {
        return null;
      }
    }
    watcher := new RepositoryWatcher(disk.located.value);
  }

  // ---------------------------------------------------------------- properties of the watch set

  lemma AddRootValid(ws: Watches, path: Path, mode: WatchMode, canWatch: Path -> bool)
    requires ValidWatches(ws)
    ensures ValidWatches(AddRoot(ws, path, mode, canWatch))
  {
  }

  /** Adding targets watches each of them that can be watched, keeps the mode of what was
      watched already, and otherwise takes the mode of the first target with the path. */
  ghost predicate AddsTargets(ws: Watches, targets: seq<WatchTarget>, canWatch: Path -> bool, r: Watches) {
    && ValidWatches(r)
    && (forall p :: p in r.os <==> p in ws.os || (p in TargetPaths(targets) && canWatch(p)))
    && (forall p :: p in ws.os ==> r.os[p] == ws.os[p])
    && (forall p :: p in r.os && p !in ws.os ==> p in TargetPaths(targets) && r.os[p] == ModeOf(targets, p))
  }

  /** The mode of the first target with the path. */
  function ModeOf(targets: seq<WatchTarget>, p: Path): WatchMode
    requires p in TargetPaths(targets)
  {
    if targets[0].path == p then targets[0].mode
    else
      assert targets == [targets[0]] + targets[1..];
      ModeOf(targets[1..], p)
  }

  lemma {:induction false} ModeOfSnoc(targets: seq<WatchTarget>, t: WatchTarget, p: Path)
    requires p in TargetPaths(targets + [t])
    ensures ModeOf(targets + [t], p) == if p in TargetPaths(targets) then ModeOf(targets, p) else t.mode
  {
    if targets != [] && targets[0].path != p {
      assert targets == [targets[0]] + targets[1..];
      assert (targets + [t])[1..] == targets[1..] + [t];
      ModeOfSnoc(targets[1..], t, p);
    } else if targets != [] {
      assert targets[0] in targets;
    }
  }

  lemma {:induction false} AddTargetsMeaning(ws: Watches, targets: seq<WatchTarget>, canWatch: Path -> bool)
    requires ValidWatches(ws)
    ensures AddsTargets(ws, targets, canWatch, AddTargets(ws, targets, canWatch))
  {
    if targets != [] {
      var init, last := targets[..|targets| - 1], targets[|targets| - 1];
      assert targets == init + [last];
      AddTargetsMeaning(ws, init, canWatch);
      var before := AddTargets(ws, init, canWatch);
      AddRootValid(before, last.path, last.mode, canWatch);
      assert TargetPaths(targets) == TargetPaths(init) + {last.path};
      assert last.path in before.roots <==> last.path in before.os by {
        assert last.path in Elements(before.roots) <==> last.path in before.roots;
      }
      forall p | p in TargetPaths(targets) { ModeOfSnoc(init, last, p); }
    }
  }

  lemma {:induction false} AddTargetsValid(ws: Watches, targets: seq<WatchTarget>, canWatch: Path -> bool)
    requires ValidWatches(ws)
    ensures ValidWatches(AddTargets(ws, targets, canWatch))
  {
    AddTargetsMeaning(ws, targets, canWatch);
  }

  lemma {:induction false} RetainMeaning(ws: Watches, keep: Path -> bool)
    requires NoDuplicatePaths(ws.roots)
    ensures var r := Retain(ws, keep);
      && NoDuplicatePaths(r.roots)
      && (forall p :: p in r.roots <==> p in ws.roots && keep(p))
      && r.os == ws.os - (set p | p in ws.roots && !keep(p))
      && (ValidWatches(ws) ==> ValidWatches(r))
    decreases |ws.roots|
  {
    if ws.roots != [] {
      var init, path := ws.roots[..|ws.roots| - 1], ws.roots[|ws.roots| - 1];
      assert ws.roots == init + [path];
      RetainMeaning(ws.(roots := init), keep);
    }
  }

  lemma RetainValid(ws: Watches, keep: Path -> bool)
    requires ValidWatches(ws)
    ensures ValidWatches(Retain(ws, keep))
  {
    RetainMeaning(ws, keep);
  }

  /** What replacing the targets leaves watched: exactly the targets that were watched already
      or can be watched, the former in their old mode. */
  lemma ReplaceMeaning(ws: Watches, targets: seq<WatchTarget>, canWatch: Path -> bool)
    requires ValidWatches(ws)
    ensures var r := Replace(ws, targets, canWatch);
      && ValidWatches(r)
      && (forall p :: p in r.os <==> p in TargetPaths(targets) && (p in ws.os || canWatch(p)))
      && (forall p :: p in r.os ==> r.os[p] == if p in ws.os then ws.os[p] else ModeOf(targets, p))
  {
    var keep := p => p in TargetPaths(targets);
    RetainMeaning(ws, keep);
    var kept := Retain(ws, keep);
    AddTargetsMeaning(kept, targets, canWatch);
    assert forall p :: p in ws.roots <==> p in ws.os by {
      assert forall p :: p in ws.roots <==> p in Elements(ws.roots);
    }
  }

  /** Reconciling leaves the watch set of a newly started watcher exactly when every target
      watched before is watched in its new mode and could be watched anew: a path that is
      already watched is not watched again in another mode. */
  lemma ReconcileIsRestartExact(ws: Watches, targets: seq<WatchTarget>, canWatch: Path -> bool)
    requires ValidWatches(ws)
    ensures Replace(ws, targets, canWatch).os == AddTargets(Watches([], map[]), targets, canWatch).os <==>
              forall p :: p in ws.os && p in TargetPaths(targets) ==> canWatch(p) && ws.os[p] == ModeOf(targets, p)
  {
    ReplaceMeaning(ws, targets, canWatch);
    AddTargetsMeaning(Watches([], map[]), targets, canWatch);
    var replaced, restarted := Replace(ws, targets, canWatch).os, AddTargets(Watches([], map[]), targets, canWatch).os;
    if replaced == restarted {
      forall p | p in ws.os && p in TargetPaths(targets) ensures canWatch(p) && ws.os[p] == ModeOf(targets, p) {
        assert p in replaced;
        assert p in restarted;
      }
    }
  }

  /** While the repository's directories stay where they are, a turn of the watcher drains as
      the queue alone determines. */
  lemma {:induction false} DrainWatchingDrains(env: Environment, disk: Disk, turn: Turn, drained: nat)
    requires disk.located.Some? ==> disk.located.value.layout == turn.layout
    ensures var r := DrainWatching(env, disk, turn, drained);
      r.layout == turn.layout && (r.box, r.plan) == Drain(env, turn.layout, turn.box, turn.plan, drained)
    decreases |turn.box.queue|
  {
    if turn.box.queue != [] && drained < MAX_DEBOUNCE_DRAIN_EVENTS {
      var event := turn.box.queue[0];
      var (ws, layout) := AfterEvent(turn.watches, turn.layout, env, disk, event);
      DrainWatchingDrains(env, disk,
                          Turn(ws, layout, turn.box.(queue := turn.box.queue[1..]),
                               turn.plan.Combine(PlanForEvent(env, layout, event))),
                          drained + 1);
    }
  }

  /** An event that is handled without an await adds no watch: only directories that are gone
      are forgotten. What can be lost is what could have extended the watch set. */
  lemma HandledAtOnceOnlyPrunes(ws: Watches, layout: Layout, env: Environment, disk: Disk, event: WatchEvent)
    requires ValidWatches(ws) && !Suspends(ws, layout, env, disk, event)
    ensures var (after, place) := AfterEvent(ws, layout, env, disk, event);
      && place == layout && ValidWatches(after)
      && forall p :: p in after.os ==> p in ws.os && after.os[p] == ws.os[p]
  {
    if event.Notified? && layout.worktreeRoot.Some? && EventCanCreateDirectoryWatch(event.event) {
      PathsOnlyPrune(ws, layout, layout.worktreeRoot.value, disk, event.event.paths);
    }
  }

  lemma {:induction false} PathsOnlyPrune(ws: Watches, layout: Layout, root: Path, disk: Disk, paths: seq<Path>)
    requires ValidWatches(ws)
    requires forall i :: 0 <= i < |paths| ==> !Discovers(AddAllIfNeeded(ws, layout, root, disk, paths[..i]), layout, root, disk, paths[i])
    ensures var after := AddAllIfNeeded(ws, layout, root, disk, paths);
      ValidWatches(after) && forall p :: p in after.os ==> p in ws.os && after.os[p] == ws.os[p]
  {
    if paths != [] {
      var n := |paths| - 1;
      forall i | 0 <= i < n
        ensures !Discovers(AddAllIfNeeded(ws, layout, root, disk, paths[..n][..i]), layout, root, disk, paths[..n][i])
      {
        assert paths[..n][..i] == paths[..i];
      }
      PathsOnlyPrune(ws, layout, root, disk, paths[..n]);
      RetainMeaning(AddAllIfNeeded(ws, layout, root, disk, paths[..n]), p => !(root <= p && !disk.onDisk(p)));
    }
  }

  /** Not reconciling, as after an overflow, leaves the watch set that reconciling would give
      exactly when every watched path is a target and every target that can be watched is
      watched. */
  lemma ReconcileIsNeededExactly(ws: Watches, targets: seq<WatchTarget>, canWatch: Path -> bool)
    requires ValidWatches(ws)
    ensures Replace(ws, targets, canWatch).os == ws.os <==>
              && (forall p :: p in ws.os ==> p in TargetPaths(targets))
              && (forall p :: p in TargetPaths(targets) && canWatch(p) ==> p in ws.os)
  {
    ReplaceMeaning(ws, targets, canWatch);
    var r := Replace(ws, targets, canWatch).os;
    if r == ws.os {
      forall p | p in ws.os ensures p in TargetPaths(targets) { assert p in r; }
      forall p | p in TargetPaths(targets) && canWatch(p) ensures p in ws.os { assert p in r; }
    }
  }

  // ---------------------------------------------------------------- new directories

  lemma {:induction false} AddDirsMeaning(ws: Watches, dirs: seq<Path>, canWatch: Path -> bool)
    requires ValidWatches(ws)
    ensures var r := AddDirs(ws, dirs, canWatch);
      && ValidWatches(r)
      && (forall p :: p in r.os <==> p in ws.os || (p in dirs && canWatch(p)))
      && forall p :: p in r.os ==> r.os[p] == if p in ws.os then ws.os[p] else NonRecursive
  {
    if dirs != [] {
      var init, last := dirs[..|dirs| - 1], dirs[|dirs| - 1];
      assert dirs == init + [last];
      AddDirsMeaning(ws, init, canWatch);
      var before := AddDirs(ws, init, canWatch);
      AddRootValid(before, last, NonRecursive, canWatch);
      assert last in before.roots <==> last in before.os by {
        assert last in Elements(before.roots) <==> last in before.roots;
      }
    }
  }

  /** The watch set after the event of a directory that is to be discovered: what is not gone, as it
      was watched, and the directories discovered from it as far as they can be watched, each by
      itself. */
  lemma DiscoveryMeaning(ws: Watches, layout: Layout, root: Path, disk: Disk, path: Path)
    requires ValidWatches(ws) && Discovers(ws, layout, root, disk, path)
    ensures var r := AddIfNeeded(ws, layout, root, disk, path);
      && ValidWatches(r)
      && (forall p :: p in r.os <==>
            (p in ws.os && (root <= p ==> disk.onDisk(p))) || (p in disk.dirsFrom(root, path) && disk.canWatch(p)))
      && forall p :: p in r.os ==>
           r.os[p] == if p in ws.os && (root <= p ==> disk.onDisk(p)) then ws.os[p] else NonRecursive
  {
    var keep := p => !(root <= p && !disk.onDisk(p));
    RetainMeaning(ws, keep);
    assert forall p :: p in ws.roots <==> p in ws.os by {
      assert forall p :: p in ws.roots <==> p in Elements(ws.roots);
    }
    AddDirsMeaning(Pruned(ws, root, disk), disk.dirsFrom(root, path), disk.canWatch);
  }

  /** The directory itself is watched afterwards, whether it was before or not. */
  lemma DirectoryEventWatches(ws: Watches, layout: Layout, root: Path, disk: Disk, path: Path)
    requires ValidWatches(ws)
    requires !InGitDir(layout, path) && disk.isDir(path) && root <= path
    requires path in disk.dirsFrom(root, path) && disk.canWatch(path)
    ensures ValidWatches(AddIfNeeded(ws, layout, root, disk, path)) && path in AddIfNeeded(ws, layout, root, disk, path).os
  {
    if Discovers(ws, layout, root, disk, path) {
      DiscoveryMeaning(ws, layout, root, disk, path);
    } else {
      RetainMeaning(ws, p => !(root <= p && !disk.onDisk(p)));
      assert path in Elements(Pruned(ws, root, disk).roots);
    }
  }

  function Prefixed(root: Path, dirs: seq<Path>): (r: seq<Path>)
    ensures |r| == |dirs| && forall i :: 0 <= i < |r| ==> r[i] == root + dirs[i]
  {
    seq(|dirs|, i requires 0 <= i < |dirs| => root + dirs[i])
  }

  lemma InPrefixed(root: Path, dirs: seq<Path>, p: Path)
    ensures p in Prefixed(root, dirs) <==> root <= p && p[|root|..] in dirs
  {
    if p in Prefixed(root, dirs) {
      var i :| 0 <= i < |dirs| && Prefixed(root, dirs)[i] == p;
      assert p == root + dirs[i] && p[|root|..] == dirs[i];
    }
    if root <= p && p[|root|..] in dirs {
      var i :| 0 <= i < |dirs| && dirs[i] == p[|root|..];
      assert Prefixed(root, dirs)[i] == root + dirs[i] == p;
    }
  }

  /** The worktree, as the disk shows it. */
  datatype Worktree = Worktree(root: Path, tree: Node, ignored: Path -> bool, excludes: Option<Path>)

  /** The directories of the worktree that a rebuild watches. */
  function RebuiltDirs(w: Worktree): seq<Path>
    requires w.tree.Directory?
  {
    Prefixed(w.root, WatchDirs(w.ignored, [], w.tree))
  }

  ghost predicate ListsTargets(targets: seq<WatchTarget>, m: map<Path, WatchMode>) {
    DistinctTargets(targets) && forall t :: t in targets <==> t.path in m && m[t.path] == t.mode
  }

  /** The disk answers for the worktree: what is discovered from the directory, and what the
      targets of a rebuild are. Nothing but the worktree lies at or below the directory, and all
      there is can be watched. */
  ghost predicate Shows(disk: Disk, layout: Layout, w: Worktree, rel: Path, targets: seq<WatchTarget>)
    requires w.tree.Directory?
  {
    && disk.dirsFrom(w.root, w.root + rel) == Prefixed(w.root, WatchDirsFrom(w.ignored, w.tree, rel))
    && ListsTargets(targets, WatchTargets(RebuiltDirs(w), layout.gitDir, layout.commonDir, w.excludes, disk.onDisk))
    && (forall p :: p in RebuiltDirs(w) ==> disk.onDisk(p))
    && (forall p :: w.root + rel <= p ==> disk.canWatch(p) && p != layout.gitDir && p != layout.commonDir && Some(p) != w.excludes)
  }

  lemma RebuildWatches(disk: Disk, layout: Layout, w: Worktree, rel: Path, targets: seq<WatchTarget>, p: Path)
    requires w.tree.Directory? && Shows(disk, layout, w, rel, targets) && w.root + rel <= p
    ensures p in AddTargets(Watches([], map[]), targets, disk.canWatch).os <==> p[|w.root|..] in WatchDirs(w.ignored, [], w.tree)
  {
    AddTargetsMeaning(Watches([], map[]), targets, disk.canWatch);
    WatchTargetsMeaning(RebuiltDirs(w), layout.gitDir, layout.commonDir, w.excludes, disk.onDisk, p);
    InPrefixed(w.root, WatchDirs(w.ignored, [], w.tree), p);
    var m := WatchTargets(RebuiltDirs(w), layout.gitDir, layout.commonDir, w.excludes, disk.onDisk);
    if p in m { assert WatchTarget(p, m[p]) in targets; }
  }

  lemma DiscoveryWatches(ws: Watches, disk: Disk, layout: Layout, w: Worktree, rel: Path, targets: seq<WatchTarget>, p: Path)
    requires w.tree.Directory? && Shows(disk, layout, w, rel, targets) && w.root + rel <= p
    requires ValidWatches(ws) && Discovers(ws, layout, w.root, disk, w.root + rel)
    requires forall q :: q in ws.os ==> !(w.root + rel <= q)
    ensures p in AddIfNeeded(ws, layout, w.root, disk, w.root + rel).os <==> p[|w.root|..] in WatchDirsFrom(w.ignored, w.tree, rel)
  {
    DiscoveryMeaning(ws, layout, w.root, disk, w.root + rel);
    InPrefixed(w.root, WatchDirsFrom(w.ignored, w.tree, rel), p);
  }

  /** What a traversal starts with. */
  lemma StartIsDiscovered(ignored: Path -> bool, tree: Node, rel: Path)
    requires tree.Directory? && !(rel != [] && ignored(rel))
    ensures rel in WatchDirsFrom(ignored, tree, rel)
  {
    assert WatchDirsFrom(ignored, tree, rel)[0] == rel;
  }

  /** Where a rebuild would not stop short of the directory, both watch the same paths below it. */
  lemma AgreesBelow(ws: Watches, disk: Disk, layout: Layout, w: Worktree, rel: Path, targets: seq<WatchTarget>, p: Path)
    requires w.tree.Directory? && WellFormedTree(w.tree) && Shows(disk, layout, w, rel, targets) && w.root + rel <= p
    requires ValidWatches(ws) && Discovers(ws, layout, w.root, disk, w.root + rel)
    requires forall q :: q in ws.os ==> !(w.root + rel <= q)
    requires rel in WatchDirs(w.ignored, [], w.tree) || (rel != [] && w.ignored(rel))
    ensures p in AddIfNeeded(ws, layout, w.root, disk, w.root + rel).os <==>
            p in AddTargets(Watches([], map[]), targets, disk.canWatch).os
  {
    DiscoveryWatches(ws, disk, layout, w, rel, targets, p);
    RebuildWatches(disk, layout, w, rel, targets, p);
    IncrementalDiscoveryExact(w.ignored, w.tree, rel);
    BelowMembers(rel, WatchDirs(w.ignored, [], w.tree), p[|w.root|..]);
    assert rel <= p[|w.root|..];
  }

  /** Where it would, the two differ at the directory itself. */
  lemma DiffersAtStart(ws: Watches, disk: Disk, layout: Layout, w: Worktree, rel: Path, targets: seq<WatchTarget>)
    requires w.tree.Directory? && Shows(disk, layout, w, rel, targets)
    requires ValidWatches(ws) && Discovers(ws, layout, w.root, disk, w.root + rel)
    requires forall q :: q in ws.os ==> !(w.root + rel <= q)
    requires rel !in WatchDirs(w.ignored, [], w.tree) && !(rel != [] && w.ignored(rel))
    ensures w.root + rel in AddIfNeeded(ws, layout, w.root, disk, w.root + rel).os
    ensures w.root + rel !in AddTargets(Watches([], map[]), targets, disk.canWatch).os
  {
    var start := w.root + rel;
    assert start[|w.root|..] == rel;
    DiscoveryWatches(ws, disk, layout, w, rel, targets, start);
    RebuildWatches(disk, layout, w, rel, targets, start);
    StartIsDiscovered(w.ignored, w.tree, rel);
  }

  /** After the event of a new directory the watch set agrees, at and below it, with that of a
      restarted watcher exactly when a rebuild would watch the directory or it is ignored. */
  lemma DirectoryEventIsRestartExact(ws: Watches, disk: Disk, layout: Layout, w: Worktree, rel: Path, targets: seq<WatchTarget>)
    requires w.tree.Directory? && WellFormedTree(w.tree) && Shows(disk, layout, w, rel, targets)
    requires ValidWatches(ws) && Discovers(ws, layout, w.root, disk, w.root + rel)
    requires forall q :: q in ws.os ==> !(w.root + rel <= q)
    ensures (forall p :: w.root + rel <= p ==>
               (p in AddIfNeeded(ws, layout, w.root, disk, w.root + rel).os <==>
                p in AddTargets(Watches([], map[]), targets, disk.canWatch).os))
            <==> rel in WatchDirs(w.ignored, [], w.tree) || (rel != [] && w.ignored(rel))
  {
    if rel in WatchDirs(w.ignored, [], w.tree) || (rel != [] && w.ignored(rel)) {
      forall p | w.root + rel <= p
        ensures p in AddIfNeeded(ws, layout, w.root, disk, w.root + rel).os <==>
                p in AddTargets(Watches([], map[]), targets, disk.canWatch).os
      {
        AgreesBelow(ws, disk, layout, w, rel, targets, p);
      }
    } else {
      DiffersAtStart(ws, disk, layout, w, rel, targets);
    }
  }
}
