/** From file-system events to refresh plans (src/watch/classify.rs). What libgit2 and the
    configuration would answer at classification time is an `Environment`. */
module Classify {
  import opened Wrappers
  import opened Model

  // ---------------------------------------------------------------- events

  datatype AccessMode = AnyMode | ExecuteMode | ReadMode | WriteMode | OtherMode

  datatype AccessKind = AnyAccess | ReadAccess | OpenAccess(mode: AccessMode) | CloseAccess(mode: AccessMode) | OtherAccess

  datatype CreateKind = CreateAny | CreateFile | CreateFolder | CreateOther

  datatype ModifyKind = ModifyAny | ModifyData | ModifyMetadata | ModifyName | ModifyOther

  datatype EventKind = AnyEvent | Access(access: AccessKind) | Create(create: CreateKind) | Modify(modification: ModifyKind) | Remove | OtherEvent

  datatype Event = Event(kind: EventKind, paths: seq<Path>, rescan: bool)

  /** `notify::Result<Event>` */
  datatype WatchEvent = Notified(event: Event) | Failed

  datatype Environment = Environment(
    isExcludesFile: Path -> bool,
    insideSubmodule: Path -> bool,
    shouldBeIgnored: Path -> bool,
    headShorthand: Option<string>)

  /** The directories the watcher classifies against. */
  datatype Layout = Layout(worktreeRoot: Option<Path>, gitDir: Path, commonDir: Path)

  predicate IsMutating(event: Event) {
    match event.kind
    case Access(ReadAccess) => false
    case Access(OpenAccess(_)) => false
    case Access(CloseAccess(ReadMode)) => false
    case _ => true
  }

  predicate ShouldRefreshForEvent(event: WatchEvent) {
    match event
    case Notified(e) => e.rescan || IsMutating(e)
    case Failed => true
  }

  // ---------------------------------------------------------------- paths as text

  predicate StartsWith(text: string, prefix: string) { prefix <= text }

  function StripSuffix(text: string, suffix: string): Option<string> {
    if |suffix| <= |text| && text[|text| - |suffix|..] == suffix then Some(text[..|text| - |suffix|]) else None
  }

  function Text(path: Path): string {
    if path == [] then "" else if |path| == 1 then path[0] else path[0] + "/" + Text(path[1..])
  }

  function StripGitDir(layout: Layout, path: Path): Path {
    if layout.gitDir <= path then path[|layout.gitDir|..]
    else if layout.commonDir <= path then path[|layout.commonDir|..]
    else path
  }

  predicate IsOperationPath(text: string) {
    text in {"MERGE_HEAD", "REBASE_HEAD", "CHERRY_PICK_HEAD", "REVERT_HEAD", "BISECT_LOG", "BISECT_ANCESTORS_OK",
             "BISECT_EXPECTED_REV", "BISECT_HEAD", "BISECT_NAMES", "BISECT_START", "BISECT_TERMS", "MERGE_MODE",
             "MERGE_MSG", "rebase-merge", "rebase-apply", "sequencer"}
    || StartsWith(text, "sequencer/") || StartsWith(text, "rebase-merge/") || StartsWith(text, "rebase-apply/")
    || StartsWith(text, "refs/bisect/")
  }

  datatype LockTarget = Known(target: string) | Unmodeled | NotLock

  predicate IsKnownLockTarget(target: string) {
    target == "HEAD" || target == "ORIG_HEAD" || target == "index" || target == "config"
    || target == "config.worktree" || target == "info/sparse-checkout" || StartsWith(target, "index.")
    || StartsWith(target, "refs/") || StartsWith(target, "worktrees/") || IsOperationPath(target)
  }

  function LockTargetForGitPath(text: string): LockTarget {
    var target := StripSuffix(text, ".lock");
    if target.None? then NotLock
    else if IsKnownLockTarget(target.value) then Known(target.value)
    else Unmodeled
  }

  predicate IsCurrentBranchRef(env: Environment, text: string) {
    StartsWith(text, "refs/heads/") && env.headShorthand == Some(text[|"refs/heads/"|..])
  }

  // ---------------------------------------------------------------- plans

  /** The groups of git paths that share a plan. */
  datatype GitArea =
    | IndexArea | UnmodeledArea | ModulesArea | HeadArea | ShallowArea | HeadsDirectory | BisectDirectory
    | BranchArea | RemotesArea | TagsArea | PackedRefsArea | ConfigArea | StashArea | WorktreesArea
    | OperationArea | UnknownArea

  /** The decision list on the text of a git path whose lock suffix has been dealt with, in
      three stages: what is not about references, references, and the rest. */
  function AreaOf(text: string): GitArea {
    var early := EarlyArea(text);
    if early.Some? then early.value
    else
      var middle := RefArea(text);
      if middle.Some? then middle.value else LateArea(text)
  }

  function EarlyArea(text: string): Option<GitArea> {
    if text == "index" || StartsWith(text, "index.") || text == "info/exclude" || text == "info/sparse-checkout"
       || text == "config.worktree" then Some(IndexArea)
    else if StartsWith(text, "objects/") then Some(UnmodeledArea)
    else if text == "modules" || StartsWith(text, "modules/") then Some(ModulesArea)
    else if StartsWith(text, "rr-cache/") then Some(UnmodeledArea)
    else if text == "COMMIT_EDITMSG" || text == "AUTO_MERGE" || text == "MERGE_RR" then Some(UnmodeledArea)
    else if text == "HEAD" || text == "ORIG_HEAD" then Some(HeadArea)
    else if text == "shallow" then Some(ShallowArea)
    else None
  }

  function RefArea(text: string): Option<GitArea> {
    if text == "refs/heads" then Some(HeadsDirectory)
    else if text == "refs/bisect" then Some(BisectDirectory)
    else if StartsWith(text, "refs/heads/") then Some(BranchArea)
    else if text == "refs/remotes" || StartsWith(text, "refs/remotes/") || text == "FETCH_HEAD" then Some(RemotesArea)
    else if text == "refs/tags" || StartsWith(text, "refs/tags/") then Some(TagsArea)
    else None
  }

  function LateArea(text: string): GitArea {
    if text == "packed-refs" || text == "packed-refs.new" then PackedRefsArea
    else if text == "config" then ConfigArea
    else if text == "logs/refs/stash" || text == "refs/stash" then StashArea
    else if StartsWith(text, "logs/") then UnmodeledArea
    else if text == "worktrees" || StartsWith(text, "worktrees/") || text == "commondir" || text == "gitdir" then
      WorktreesArea
    else if IsOperationPath(text) then OperationArea
    else UnknownArea
  }

  function AreaPlan(area: GitArea, isCurrentBranch: bool): RefreshPlan {
    match area
    case IndexArea => PlanOf({Paths})
    case UnmodeledArea => NoRefresh
    case ModulesArea => PlanOf({Paths, Submodules})
    case HeadArea => PlanOf({Head, Upstream, Branches, Paths})
    case ShallowArea => PlanOf({Identity, Head, Upstream, Branches})
    case HeadsDirectory => PlanOf({Head, Upstream, Branches})
    case BisectDirectory => PlanOf({Operation, Head, Upstream, Branches, Paths})
    case BranchArea =>
      if isCurrentBranch then PlanOf({Head, Upstream, Branches, Paths}) else PlanOf({Head, Upstream, Branches})
    case RemotesArea => PlanOf({Upstream, Branches, Remotes})
    case TagsArea => PlanOf({Tags})
    case PackedRefsArea => PlanOf({Head, Upstream, Branches, Tags})
    case ConfigArea => PlanOf({Remotes, Upstream, Branches, Paths})
    case StashArea => PlanOf({Head, Upstream, Branches, Paths, Stashes})
    case WorktreesArea => PlanOf({Identity, Upstream, Branches, Worktrees})
    case OperationArea => PlanOf({Operation, Head, Upstream, Branches, Paths})
    case UnknownArea => Full
  }

  function PlanForGitText(env: Environment, text: string): RefreshPlan {
    AreaPlan(AreaOf(text), IsCurrentBranchRef(env, text))
  }

  function PlanForRelative(env: Environment, text: string): RefreshPlan {
    match LockTargetForGitPath(text)
    case Known(target) => PlanForGitText(env, target)
    case Unmodeled => NoRefresh
    case NotLock => PlanForGitText(env, text)
  }

  function PlanForGitPath(env: Environment, layout: Layout, path: Path): RefreshPlan {
    PlanForRelative(env, Text(StripGitDir(layout, path)))
  }

  predicate IsIgnoreRulePath(relative: Path) {
    relative != [] && relative[|relative| - 1] == ".gitignore"
  }

  predicate InGitDir(layout: Layout, path: Path) {
    layout.gitDir <= path || layout.commonDir <= path
  }

  /** `refresh_plan_for_path` */
  function PlanForPath(env: Environment, layout: Layout, path: Path): RefreshPlan {
    if InGitDir(layout, path) then PlanForGitPath(env, layout, path)
    else if env.isExcludesFile(path) then PlanOf({Paths})
    else if layout.worktreeRoot.None? || !(layout.worktreeRoot.value <= path) then Full
    else
      var relative := path[|layout.worktreeRoot.value|..];
      if IsIgnoreRulePath(relative) then PlanOf({Paths})
      else if relative == [".git"] then PlanOf({Identity, Worktrees})
      else if relative == [".gitmodules"] || ".git" in relative then PlanOf({Paths, Submodules})
      else if env.insideSubmodule(relative) then PlanOf({Paths, Submodules})
      else if env.shouldBeIgnored(relative) then NoRefresh
      else PlanOf({Paths})
  }

  function PlansForPaths(env: Environment, layout: Layout, paths: seq<Path>): (r: seq<RefreshPlan>)
    ensures |r| == |paths| && forall i :: 0 <= i < |r| ==> r[i] == PlanForPath(env, layout, paths[i])
  {
    seq(|paths|, i requires 0 <= i < |paths| => PlanForPath(env, layout, paths[i]))
  }

  /** What `refresh_plan_for_event` computes. */
  function PlanForEvent(env: Environment, layout: Layout, event: WatchEvent): RefreshPlan {
    match event
    case Failed => Full
    case Notified(e) =>
      if e.rescan then Full
      else if !IsMutating(e) then NoRefresh
      else if e.paths == [] then Full
      else CombineAll(NoRefresh, PlansForPaths(env, layout, e.paths))
  }

  method RefreshPlanForEvent(env: Environment, layout: Layout, event: WatchEvent) returns (plan: RefreshPlan)
    ensures plan == PlanForEvent(env, layout, event)
  {
    if event.Failed? || event.event.rescan {
      return Full;
    }
    if !IsMutating(event.event) {
      return NoRefresh;
    }
    var paths := event.event.paths;
    plan := NoRefresh;
    ghost var plans := PlansForPaths(env, layout, paths);
    for i := 0 to |paths|
      invariant CombineAll(plan, plans[i..]) == CombineAll(NoRefresh, plans)
    {
      plan := plan.Combine(PlanForPath(env, layout, paths[i]));
      assert plans[i..][0] == plans[i] && plans[i..][1..] == plans[i + 1..];
    }
    if paths == [] {
      plan := Full;
    }
  }

  predicate MayChangeIgnoreRules(env: Environment, layout: Layout, path: Path) {
    env.isExcludesFile(path)
    || (InGitDir(layout, path) && Text(StripGitDir(layout, path)) in {"info/exclude", "config", "config.worktree"})
    || (layout.worktreeRoot.Some? && layout.worktreeRoot.value <= path
        && IsIgnoreRulePath(path[|layout.worktreeRoot.value|..]))
  }

  predicate EventMayChangeIgnoreRules(env: Environment, layout: Layout, event: Event) {
    exists path :: path in event.paths && MayChangeIgnoreRules(env, layout, path)
  }

  // ---------------------------------------------------------------- closure

  /** A plan is closed: it names something, it rereads `upstream` and the branches together,
      and it never rereads the head without them. */
  ghost predicate Closed(plan: RefreshPlan) {
    plan.Domains? ==>
      && plan.domains != {}
      && (Head in plan.domains ==> Upstream in plan.domains)
      && (Upstream in plan.domains <==> Branches in plan.domains)
  }

  lemma AreaPlanClosed(area: GitArea, isCurrentBranch: bool)
    ensures Closed(AreaPlan(area, isCurrentBranch))
  {
  }

  lemma GitTextPlanClosed(env: Environment, text: string)
    ensures Closed(PlanForGitText(env, text))
  {
    AreaPlanClosed(AreaOf(text), IsCurrentBranchRef(env, text));
  }

  lemma GitPathPlanClosed(env: Environment, layout: Layout, path: Path)
    ensures Closed(PlanForGitPath(env, layout, path))
  {
    var text := Text(StripGitDir(layout, path));
    GitTextPlanClosed(env, text);
    if LockTargetForGitPath(text).Known? {
      GitTextPlanClosed(env, LockTargetForGitPath(text).target);
    }
  }

  lemma PathPlanClosed(env: Environment, layout: Layout, path: Path)
    ensures Closed(PlanForPath(env, layout, path))
  {
    if InGitDir(layout, path) {
      GitPathPlanClosed(env, layout, path);
    }
  }

  lemma {:induction false} CombineAllClosed(initial: RefreshPlan, plans: seq<RefreshPlan>)
    requires Closed(initial) && forall p :: p in plans ==> Closed(p)
    ensures Closed(CombineAll(initial, plans))
    decreases |plans|
  {
    if plans != [] {
      assert Closed(plans[0]) by { assert plans[0] in plans; }
      CombineAllClosed(initial.Combine(plans[0]), plans[1..]);
    }
  }

  /** Every plan that an event yields is closed, whatever the paths and the environment. */
  lemma EventPlanClosed(env: Environment, layout: Layout, event: WatchEvent)
    ensures Closed(PlanForEvent(env, layout, event))
  {
    if event.Notified? {
      var plans := PlansForPaths(env, layout, event.event.paths);
      forall p | p in plans ensures Closed(p) {
        var i :| 0 <= i < |plans| && plans[i] == p;
        PathPlanClosed(env, layout, event.event.paths[i]);
      }
      CombineAllClosed(NoRefresh, plans);
    }
  }

  /** An event the callback filters out would have asked for nothing. */
  lemma FilteredEventHasNoPlan(env: Environment, layout: Layout, event: WatchEvent)
    ensures !ShouldRefreshForEvent(event) ==> PlanForEvent(env, layout, event) == NoRefresh
  {
  }

  lemma EventPlanCovers(env: Environment, layout: Layout, event: Event, d: RefreshDomain)
    requires !event.rescan && IsMutating(event) && event.paths != []
    ensures PlanForEvent(env, layout, Notified(event)).Covers(d) <==>
              exists path :: path in event.paths && PlanForPath(env, layout, path).Covers(d)
  {
    var plans := PlansForPaths(env, layout, event.paths);
    CombineAllCovers(NoRefresh, plans, d);
    if path :| path in event.paths && PlanForPath(env, layout, path).Covers(d) {
      var i :| 0 <= i < |event.paths| && event.paths[i] == path;
      assert plans[i] in plans;
    }
    if p :| p in plans && p.Covers(d) {
      var i :| 0 <= i < |plans| && plans[i] == p;
      assert event.paths[i] in event.paths;
    }
  }

  // ---------------------------------------------------------------- lock files

  lemma LockTextIsItsTarget(env: Environment, target: string)
    requires StripSuffix(target, ".lock").None? && IsKnownLockTarget(target)
    ensures PlanForRelative(env, target + ".lock") == PlanForRelative(env, target)
  {
    assert StripSuffix(target + ".lock", ".lock") == Some(target);
  }

  /** Taking or releasing git's lock on a file it models asks for what the file itself asks for,
      in either git directory, unless a git directory is itself named like the lock. */
  lemma LockIsItsTarget(env: Environment, layout: Layout, dir: Path, name: string)
    requires InGitDir(layout, dir)
    requires dir + [name + ".lock"] != layout.gitDir
    requires StripSuffix(Text(StripGitDir(layout, dir + [name])), ".lock").None?
    requires IsKnownLockTarget(Text(StripGitDir(layout, dir + [name])))
    ensures PlanForPath(env, layout, dir + [name + ".lock"]) == PlanForPath(env, layout, dir + [name])
  {
    var base := if layout.gitDir <= dir then layout.gitDir else layout.commonDir;
    var rest := dir[|base|..];
    if dir + [name] != layout.gitDir {
      StripSnoc(layout, dir, name);
      StripSnoc(layout, dir, name + ".lock");
      TextSnoc(rest, name, ".lock");
      LockTextIsItsTarget(env, Text(rest + [name]));
    }
  }

  lemma StripSnoc(layout: Layout, dir: Path, name: string)
    requires InGitDir(layout, dir) && dir + [name] != layout.gitDir
    ensures InGitDir(layout, dir + [name])
    ensures var base := if layout.gitDir <= dir then layout.gitDir else layout.commonDir;
      StripGitDir(layout, dir + [name]) == dir[|base|..] + [name]
  {
    SnocPrefix(layout.gitDir, dir, name);
    SnocPrefix(layout.commonDir, dir, name);
    var base := if layout.gitDir <= dir then layout.gitDir else layout.commonDir;
    assert (dir + [name])[|base|..] == dir[|base|..] + [name];
  }

  lemma SnocPrefix(prefix: Path, dir: Path, last: string)
    ensures prefix <= dir + [last] <==> prefix <= dir || prefix == dir + [last]
  {
    if prefix <= dir + [last] && |prefix| <= |dir| {
      assert prefix == (dir + [last])[..|prefix|] == dir[..|prefix|];
    }
  }

  lemma {:induction false} TextSnoc(dir: Path, name: string, suffix: string)
    ensures Text(dir + [name + suffix]) == Text(dir + [name]) + suffix
  {
    if dir == [] {
      assert dir + [name] == [name] && dir + [name + suffix] == [name + suffix];
    } else {
      TextSnoc(dir[1..], name, suffix);
      assert (dir + [name])[1..] == dir[1..] + [name];
      assert (dir + [name + suffix])[1..] == dir[1..] + [name + suffix];
    }
  }

  // ---------------------------------------------------------------- late classification

  ghost predicate SameExcludes(a: Environment, b: Environment) {
    forall p: Path :: a.isExcludesFile(p) == b.isExcludesFile(p)
  }

  ghost predicate SameIgnores(a: Environment, b: Environment) {
    forall p: Path :: a.shouldBeIgnored(p) == b.shouldBeIgnored(p)
  }

  ghost predicate SameSubmodules(a: Environment, b: Environment) {
    forall p: Path :: a.insideSubmodule(p) == b.insideSubmodule(p)
  }

  lemma AreaPlanDrift(area: GitArea, before: bool, now: bool, d: RefreshDomain)
    requires AreaPlan(area, before).Covers(d) && !AreaPlan(area, now).Covers(d)
    ensures d == Paths && before != now
  {
  }

  lemma GitTextPlanDrift(raised: Environment, now: Environment, text: string, d: RefreshDomain)
    ensures PlanForGitText(raised, text).Covers(d) && !PlanForGitText(now, text).Covers(d) ==>
              d == Paths && raised.headShorthand.Some? && raised.headShorthand != now.headShorthand
  {
    if PlanForGitText(raised, text).Covers(d) && !PlanForGitText(now, text).Covers(d) {
      AreaPlanDrift(AreaOf(text), IsCurrentBranchRef(raised, text), IsCurrentBranchRef(now, text), d);
    }
  }

  lemma GitPathPlanDrift(raised: Environment, now: Environment, layout: Layout, path: Path, d: RefreshDomain)
    requires PlanForGitPath(raised, layout, path).Covers(d) && !PlanForGitPath(now, layout, path).Covers(d)
    ensures d == Paths && raised.headShorthand.Some? && raised.headShorthand != now.headShorthand
  {
    var text := Text(StripGitDir(layout, path));
    match LockTargetForGitPath(text)
    case Known(target) => GitTextPlanDrift(raised, now, target, d);
    case NotLock => GitTextPlanDrift(raised, now, text, d);
    case Unmodeled =>
  }

  lemma PathPlanDrift(raised: Environment, now: Environment, layout: Layout, path: Path, d: RefreshDomain)
    requires SameExcludes(raised, now)
    requires PlanForPath(raised, layout, path).Covers(d) && !PlanForPath(now, layout, path).Covers(d)
    ensures
      || (d == Paths && raised.headShorthand.Some? && raised.headShorthand != now.headShorthand)
      || (d == Paths && !SameIgnores(raised, now))
      || (d in {Paths, Submodules} && !SameSubmodules(raised, now))
  {
    if InGitDir(layout, path) {
      GitPathPlanDrift(raised, now, layout, path, d);
    } else {
      assert raised.isExcludesFile(path) == now.isExcludesFile(path);
      var relative := path[|layout.worktreeRoot.value|..];
      assert SameSubmodules(raised, now) ==> raised.insideSubmodule(relative) == now.insideSubmodule(relative);
      assert SameIgnores(raised, now) ==> raised.shouldBeIgnored(relative) == now.shouldBeIgnored(relative);
    }
  }

  /** An event is classified when it is taken from the queue, not when it was raised. What its
      plan can lose in between: `Paths` when the branch that was current is not any more or the
      ignore rules changed, and `Paths` or
      `Submodules` when the submodules changed. Nothing else. */
  lemma EventPlanDrift(raised: Environment, now: Environment, layout: Layout, event: WatchEvent, d: RefreshDomain)
    requires SameExcludes(raised, now)
    requires PlanForEvent(raised, layout, event).Covers(d) && !PlanForEvent(now, layout, event).Covers(d)
    ensures
      || (d == Paths && raised.headShorthand.Some? && raised.headShorthand != now.headShorthand)
      || (d == Paths && !SameIgnores(raised, now))
      || (d in {Paths, Submodules} && !SameSubmodules(raised, now))
  {
    var e := event.event;
    EventPlanCovers(raised, layout, e, d);
    EventPlanCovers(now, layout, e, d);
    var path :| path in e.paths && PlanForPath(raised, layout, path).Covers(d);
    PathPlanDrift(raised, now, layout, path, d);
  }

  /** An event on the HEAD file or on its lock. */
  ghost predicate IsHeadEvent(layout: Layout, event: WatchEvent) {
    event.Notified? && (event.event.rescan || IsMutating(event.event))
    && (layout.gitDir + ["HEAD"] in event.event.paths || layout.gitDir + ["HEAD.lock"] in event.event.paths)
  }

  lemma HeadPathPlan(env: Environment, layout: Layout, name: string)
    requires name == "HEAD" || name == "HEAD.lock"
    ensures PlanForPath(env, layout, layout.gitDir + [name]) == PlanOf({Head, Upstream, Branches, Paths})
  {
    assert StripGitDir(layout, layout.gitDir + [name]) == [name] && Text([name]) == name;
    FileArea(HeadFile, "HEAD");
    assert LockTargetForGitPath("HEAD") == NotLock;
    assert LockTargetForGitPath("HEAD.lock") == Known("HEAD") by {
      assert "HEAD.lock" == "HEAD" + ".lock";
    }
  }

  /** An event of a moved HEAD asks for everything that depends on which branch is current, in
      every environment: it discharges what `EventPlanDrift` asks for when HEAD moves. */
  lemma HeadEventCovers(env: Environment, layout: Layout, event: WatchEvent)
    requires IsHeadEvent(layout, event)
    ensures forall d: RefreshDomain :: d in {Head, Upstream, Branches, Paths} ==> PlanForEvent(env, layout, event).Covers(d)
  {
    if !event.event.rescan {
      var name := if layout.gitDir + ["HEAD"] in event.event.paths then "HEAD" else "HEAD.lock";
      HeadPathPlan(env, layout, name);
      forall d: RefreshDomain | d in {Head, Upstream, Branches, Paths} ensures PlanForEvent(env, layout, event).Covers(d) {
        EventPlanCovers(env, layout, event.event, d);
      }
    }
  }

  /** The one lookup whose change shrinks a plan without bound: a path outside the worktree
      asks for everything until it is configured as the excludes file, and then for the paths
      only. */
  lemma ReconfiguredExcludesShrinksPlan(env: Environment, layout: Layout, path: Path)
    requires !InGitDir(layout, path) && !env.isExcludesFile(path)
    requires layout.worktreeRoot.Some? ==> !(layout.worktreeRoot.value <= path)
    ensures PlanForPath(env, layout, path) == Full
    ensures PlanForPath(env.(isExcludesFile := p => p == path || env.isExcludesFile(p)), layout, path) == Domains({Paths})
  {
  }

  // ---------------------------------------------------------------- what the readers consult

  /** The kinds of files under the git directories that the readers look at. What an object id
      names never changes, but the object may be missing and appear later. */
  datatype GitFile =
    | HeadFile | IndexFile | ConfigFile | WorktreeConfigFile | ExcludeFile | PackedRefsFile | ShallowFile
    | BranchFile | RemoteRefFile | TagFile | BisectRefFile | StashFile | OperationFile | WorktreeFile | ModuleFile
    | ObjectFile | UnlistedFile

  predicate IsListedRef(text: string) {
    text == "refs/stash" || text == "refs/heads" || StartsWith(text, "refs/heads/") || text == "refs/remotes"
    || StartsWith(text, "refs/remotes/") || text == "refs/tags" || StartsWith(text, "refs/tags/")
    || text == "refs/bisect" || StartsWith(text, "refs/bisect/")
  }

  predicate IsFile(file: GitFile, text: string) {
    match file
    case HeadFile => text == "HEAD"
    case IndexFile => text == "index"
    case ConfigFile => text == "config"
    case WorktreeConfigFile => text == "config.worktree"
    case ExcludeFile => text == "info/exclude"
    case PackedRefsFile => text == "packed-refs"
    case ShallowFile => text == "shallow"
    case BranchFile => text == "refs/heads" || StartsWith(text, "refs/heads/")
    case RemoteRefFile => text == "refs/remotes" || StartsWith(text, "refs/remotes/")
    case TagFile => text == "refs/tags" || StartsWith(text, "refs/tags/")
    case BisectRefFile => text == "refs/bisect" || StartsWith(text, "refs/bisect/")
    case StashFile => text == "refs/stash" || text == "logs/refs/stash"
    case OperationFile =>
      text in {"MERGE_HEAD", "REBASE_HEAD", "CHERRY_PICK_HEAD", "REVERT_HEAD", "BISECT_LOG", "BISECT_START", "MERGE_MSG"}
      || text == "rebase-merge" || StartsWith(text, "rebase-merge/") || text == "rebase-apply"
      || StartsWith(text, "rebase-apply/") || text == "sequencer" || StartsWith(text, "sequencer/")
    case WorktreeFile => text == "worktrees" || StartsWith(text, "worktrees/") || text == "commondir" || text == "gitdir"
    case ModuleFile => text == "modules" || StartsWith(text, "modules/")
    case ObjectFile => StartsWith(text, "objects/")
    case UnlistedFile => text == "info/attributes" || text == "locked" || (StartsWith(text, "refs/") && !IsListedRef(text))
  }

  /** Which files the reader of a domain looks at. */
  ghost predicate Consults(d: RefreshDomain, file: GitFile) {
    match d
    case Identity =>
      // `is_empty` asks for HEAD and, while it names no commit, whether there is any reference.
      file in {HeadFile, PackedRefsFile, BranchFile, RemoteRefFile, TagFile, BisectRefFile, StashFile, UnlistedFile,
               ConfigFile, WorktreeConfigFile, ShallowFile, WorktreeFile}
    case Head => file in {HeadFile, PackedRefsFile, BranchFile, ShallowFile, ObjectFile}
    case Upstream | Branches =>
      file in {HeadFile, PackedRefsFile, BranchFile, RemoteRefFile, ConfigFile, WorktreeConfigFile, ShallowFile, ObjectFile}
    case Paths =>
      file in {HeadFile, PackedRefsFile, BranchFile, IndexFile, ConfigFile, WorktreeConfigFile, ExcludeFile, ModuleFile,
               ObjectFile, UnlistedFile}
    case Operation =>
      // `BISECT_START` may name any reference.
      file in {OperationFile, HeadFile, PackedRefsFile, BranchFile, RemoteRefFile, TagFile, BisectRefFile, StashFile,
               UnlistedFile}
    case Remotes => file in {ConfigFile, WorktreeConfigFile, RemoteRefFile}
    case Tags => file in {TagFile, PackedRefsFile, ObjectFile}
    case Stashes => file in {StashFile, PackedRefsFile}
    case Worktrees => file in {WorktreeFile, UnlistedFile}
    case Submodules =>
      file in {HeadFile, PackedRefsFile, BranchFile, IndexFile, ConfigFile, WorktreeConfigFile, ModuleFile, ObjectFile}
  }

  /** Where the classifier does not ask for a domain although its reader looks at the file. */
  ghost predicate CoverageGap(env: Environment, d: RefreshDomain, file: GitFile, text: string) {
    file == ObjectFile ||
    match d
    case Identity =>
      file in {HeadFile, PackedRefsFile, BranchFile, RemoteRefFile, TagFile, BisectRefFile, StashFile, ConfigFile,
               WorktreeConfigFile}
    case Head => false
    case Upstream | Branches | Remotes => file == WorktreeConfigFile
    case Paths => file == PackedRefsFile || (file == BranchFile && !IsCurrentBranchRef(env, text))
    case Operation => file in {HeadFile, PackedRefsFile, BranchFile, RemoteRefFile, TagFile, StashFile}
    case Tags => false
    case Stashes => file == PackedRefsFile
    case Worktrees => false
    case Submodules =>
      file in {HeadFile, PackedRefsFile, BranchFile, IndexFile, ConfigFile, WorktreeConfigFile}
  }

  /** The area that the decision list finds for a file. */
  ghost predicate HasArea(file: GitFile, area: GitArea) {
    match file
    case HeadFile => area == HeadArea
    case IndexFile | WorktreeConfigFile | ExcludeFile => area == IndexArea
    case ConfigFile => area == ConfigArea
    case PackedRefsFile => area == PackedRefsArea
    case ShallowFile => area == ShallowArea
    case BranchFile => area == BranchArea || area == HeadsDirectory
    case RemoteRefFile => area == RemotesArea
    case TagFile => area == TagsArea
    case BisectRefFile => area == BisectDirectory || area == OperationArea
    case StashFile => area == StashArea
    case OperationFile => area == OperationArea
    case WorktreeFile => area == WorktreesArea
    case ModuleFile => area == ModulesArea
    case ObjectFile => area == UnmodeledArea
    case UnlistedFile => area == UnknownArea
  }

  lemma NotEarly(text: string)
    requires |text| > 2 && text[0] !in {'i', 'o', 'm', 'A', 'H', 'O'} && text[2] != '-'
    requires text != "config.worktree" && text != "COMMIT_EDITMSG" && text != "MERGE_RR" && text != "shallow"
    ensures EarlyArea(text).None?
  {
  }

  lemma NotAboutRefs(text: string)
    requires |text| > 2 && text[2] != 'f' && text[0] != 'F'
    ensures RefArea(text).None?
  {
  }

  /** What the first stage looks for. */
  predicate IsEarlyFile(file: GitFile) {
    file in {IndexFile, WorktreeConfigFile, ExcludeFile, HeadFile, ShallowFile, ModuleFile, ObjectFile}
  }

  lemma EarlyFileArea(file: GitFile, text: string)
    requires IsFile(file, text) && IsEarlyFile(file)
    ensures EarlyArea(text).Some? && HasArea(file, EarlyArea(text).value)
  {
    assert text == "HEAD" ==> |text| == 4 && text[0] == 'H';
    assert text == "shallow" ==> |text| == 7 && text[0] == 's';
    assert file == ModuleFile ==> |text| >= 7 && text[0] == 'm';
    assert file == ObjectFile ==> |text| >= 8 && text[0] == 'o';
  }

  lemma RefIsNotEarly(text: string)
    requires StartsWith(text, "refs/")
    ensures |text| >= 5 && text[0] == 'r' && text[2] == 'f' && EarlyArea(text).None?
  {
    assert |text| >= 5 && text[0] == 'r' && text[2] == 'f';
    NotEarly(text);
  }

  lemma ListedRefArea(file: GitFile, text: string)
    requires IsFile(file, text) && file in {BranchFile, RemoteRefFile, TagFile}
    ensures StartsWith(text, "refs/") && RefArea(text).Some? && HasArea(file, RefArea(text).value)
    ensures StartsWith(text, "refs/heads/") ==> RefArea(text) == Some(BranchArea)
  {
    assert |text| > 5;
    assert file == BranchFile ==> text[5] == 'h';
    assert file == RemoteRefFile ==> text[5] == 'r';
    assert file == TagFile ==> text[5] == 't';
  }

  lemma BisectRefArea(text: string)
    requires IsFile(BisectRefFile, text)
    ensures StartsWith(text, "refs/")
    ensures text == "refs/bisect" ==> RefArea(text) == Some(BisectDirectory)
    ensures text != "refs/bisect" ==> RefArea(text).None?
  {
    assert |text| > 5 && text[0] == 'r' && text[5] == 'b';
  }

  lemma StashRefArea(text: string)
    requires text == "refs/stash"
    ensures StartsWith(text, "refs/") && RefArea(text).None?
  {
    assert |text| == 10 && text[0] == 'r' && text[5] == 's';
  }

  lemma LateRefArea(text: string)
    requires StartsWith(text, "refs/")
    ensures LateArea(text) ==
      if text == "refs/stash" then StashArea else if StartsWith(text, "refs/bisect/") then OperationArea else UnknownArea
  {
    assert |text| >= 5 && text[0] == 'r' && text[2] == 'f';
  }

  /** What the last stage looks for, besides references and operation files. */
  predicate IsLateFile(file: GitFile, text: string) {
    IsFile(file, text)
    && (file in {ConfigFile, PackedRefsFile, WorktreeFile} || text == "logs/refs/stash" || text == "locked")
  }

  lemma LateFileStarts(file: GitFile, text: string)
    requires IsLateFile(file, text)
    ensures |text| > 2 && text[0] !in {'i', 'o', 'm', 'A', 'H', 'O', 'F', 's', 'C', 'M'} && text[2] != '-' && text[2] != 'f'
    ensures text != "config.worktree"
  {
    assert text == "locked" ==> |text| == 6 && text[2] == 'c';
  }

  lemma LateFileArea(file: GitFile, text: string)
    requires IsLateFile(file, text)
    ensures HasArea(file, LateArea(text))
  {
    assert text == "config" ==> |text| == 6 && text[0] == 'c' && text[2] == 'n';
    assert text == "packed-refs" ==> |text| == 11 && text[0] == 'p';
    assert text == "logs/refs/stash" ==> |text| == 15 && text[0] == 'l' && text[5] == 'r';
    assert text == "locked" ==> |text| == 6 && text[0] == 'l' && text[2] == 'c';
    assert text == "commondir" ==> |text| == 9 && text[0] == 'c' && text[2] == 'm';
    assert text == "gitdir" ==> |text| == 6 && text[0] == 'g';
    assert (text == "worktrees" || StartsWith(text, "worktrees/")) ==> |text| >= 9 && text[0] == 'w';
  }

  lemma AttributesFileArea(text: string)
    requires text == "info/attributes"
    ensures EarlyArea(text).None? && RefArea(text).None? && LateArea(text) == UnknownArea
  {
    assert |text| == 15 && text[0] == 'i' && text[5] == 'a';
  }

  lemma OperationFileStarts(text: string)
    requires IsFile(OperationFile, text)
    ensures |text| > 2 && text[0] !in {'i', 'o', 'm', 'A', 'H', 'O', 'F', 'p', 'c', 'l', 'w', 'g'}
    ensures text[2] != '-' && text[2] != 'f' && IsOperationPath(text)
    ensures text != "COMMIT_EDITMSG" && text != "MERGE_RR" && text != "shallow"
  {
  }

  lemma OperationFileArea(text: string)
    requires |text| > 2 && text[0] !in {'p', 'c', 'l', 'w', 'g'} && text[2] != 'f' && IsOperationPath(text)
    ensures LateArea(text) == OperationArea
  {
  }

  lemma FileArea(file: GitFile, text: string)
    requires IsFile(file, text)
    ensures HasArea(file, AreaOf(text))
  {
    if IsEarlyFile(file) {
      EarlyFileArea(file, text);
    } else if file in {BranchFile, RemoteRefFile, TagFile} {
      ListedRefArea(file, text);
      RefIsNotEarly(text);
    } else if file == OperationFile {
      OperationFileStarts(text);
      NotEarly(text);
      NotAboutRefs(text);
      OperationFileArea(text);
    } else if IsLateFile(file, text) {
      LateFileStarts(file, text);
      NotEarly(text);
      NotAboutRefs(text);
      LateFileArea(file, text);
    } else if text == "info/attributes" {
      AttributesFileArea(text);
    } else {
      OtherRefArea(file, text);
    }
  }

  lemma OtherRefArea(file: GitFile, text: string)
    requires IsFile(file, text) && (file == BisectRefFile || (file in {StashFile, UnlistedFile} && StartsWith(text, "refs/")))
    ensures HasArea(file, AreaOf(text))
  {
    assert StartsWith(text, "refs/") ==> text[0] == 'r';
    if file == BisectRefFile {
      BisectRefArea(text);
    } else if file == StashFile {
      StashRefArea(text);
    } else {
      UnlistedRefArea(text);
    }
    RefIsNotEarly(text);
    LateRefArea(text);
  }

  lemma UnlistedRefArea(text: string)
    requires StartsWith(text, "refs/") && !IsListedRef(text)
    ensures RefArea(text).None? && text != "refs/stash" && !StartsWith(text, "refs/bisect/")
  {
    assert |text| >= 5 && text[0] == 'r';
  }

  /** Once its area is known, the text of a file matters only for which branch it is. */
  lemma AreaCovers(env: Environment, file: GitFile, text: string, area: GitArea, d: RefreshDomain)
    requires HasArea(file, area) && Consults(d, file)
    requires IsCurrentBranchRef(env, text) ==> area != HeadsDirectory
    ensures AreaPlan(area, IsCurrentBranchRef(env, text)).Covers(d) <==> !CoverageGap(env, d, file, text)
  {
  }

  /** An event on a git file asks for every domain whose reader looks at that file, except
      exactly in the gaps. */
  lemma ReadersAreCovered(env: Environment, file: GitFile, text: string, d: RefreshDomain)
    requires IsFile(file, text) && Consults(d, file)
    ensures PlanForGitText(env, text).Covers(d) <==> !CoverageGap(env, d, file, text)
  {
    FileArea(file, text);
    if IsCurrentBranchRef(env, text) {
      assert text[5] == "refs/heads/"[5];
      ListedRefArea(BranchFile, text);
      RefIsNotEarly(text);
    }
    AreaCovers(env, file, text, AreaOf(text), d);
  }

  /** The file that an event path is about: a lock stands for what it locks. */
  function FileText(layout: Layout, path: Path): Option<string> {
    var text := Text(StripGitDir(layout, path));
    match LockTargetForGitPath(text)
    case Known(target) => Some(target)
    case Unmodeled => None
    case NotLock => Some(text)
  }

  /** Hence a change of a file outside the gaps raises an event that asks for every domain whose
      reader looks at the file: a change of these files alone is always reported. */
  lemma EventCoversReaders(env: Environment, layout: Layout, event: Event, path: Path, file: GitFile, d: RefreshDomain)
    requires IsMutating(event) && path in event.paths && InGitDir(layout, path)
    requires FileText(layout, path).Some? && IsFile(file, FileText(layout, path).value) && Consults(d, file)
    requires !CoverageGap(env, d, file, FileText(layout, path).value)
    ensures PlanForEvent(env, layout, Notified(event)).Covers(d)
  {
    if !event.rescan {
      ReadersAreCovered(env, file, FileText(layout, path).value, d);
      PathPlanOfFile(env, layout, path);
      EventPlanCovers(env, layout, event, d);
    }
  }

  lemma PathPlanOfFile(env: Environment, layout: Layout, path: Path)
    requires InGitDir(layout, path) && FileText(layout, path).Some?
    ensures PlanForPath(env, layout, path) == PlanForGitText(env, FileText(layout, path).value)
  {
  }

  // ---------------------------------------------------------------- worktree files

  ghost predicate InWorktree(layout: Layout, path: Path) {
    !InGitDir(layout, path) && layout.worktreeRoot.Some? && layout.worktreeRoot.value <= path
  }

  ghost function Relative(layout: Layout, path: Path): Path
    requires InWorktree(layout, path)
  {
    path[|layout.worktreeRoot.value|..]
  }

  /** The path belongs to a repository inside the worktree, or names the submodules. */
  ghost predicate IsAboutInnerRepository(env: Environment, relative: Path) {
    relative == [".gitmodules"] || ".git" in relative || env.insideSubmodule(relative)
  }

  /** Which readers look at a worktree path. A status scan reports tracked paths, ignored or not,
      and untracked paths that are not ignored; its rules stand in ignore and attribute files.
      Everything is read through a `.git` file. */
  ghost predicate ConsultsWorktree(env: Environment, d: RefreshDomain, path: Path, relative: Path, tracked: bool) {
    || relative == [".git"]
    || (d == Paths
        && (tracked || !env.shouldBeIgnored(relative) || env.isExcludesFile(path) || IsAboutInnerRepository(env, relative)
            || (relative != [] && relative[|relative| - 1] in {".gitignore", ".gitattributes"})))
    || (d == Submodules && IsAboutInnerRepository(env, relative))
  }

  /** Where the classifier does not ask for a domain although its reader looks at the path: files
      of ignore rules ask for the paths only, also inside a submodule; a `.git` file asks for the
      identity and the worktrees only; and an ignored path outside inner repositories asks for
      nothing, also when it is tracked. */
  ghost predicate WorktreeGap(env: Environment, d: RefreshDomain, path: Path, relative: Path) {
    if env.isExcludesFile(path) || IsIgnoreRulePath(relative) then d != Paths
    else if relative == [".git"] then d !in {Identity, Worktrees}
    else !IsAboutInnerRepository(env, relative) && env.shouldBeIgnored(relative)
  }

  /** An event on a worktree path asks for every domain whose reader looks at the path, except
      exactly in the gaps. */
  lemma WorktreeReadersAreCovered(env: Environment, layout: Layout, path: Path, d: RefreshDomain, tracked: bool)
    requires InWorktree(layout, path) && ConsultsWorktree(env, d, path, Relative(layout, path), tracked)
    ensures PlanForPath(env, layout, path).Covers(d) <==> !WorktreeGap(env, d, path, Relative(layout, path))
  {
  }

  /** A worktree path asks for the path state, or for the submodules, exactly when. */
  lemma WorktreePathCovers(env: Environment, layout: Layout, path: Path)
    requires InWorktree(layout, path)
    ensures var relative, plan := Relative(layout, path), PlanForPath(env, layout, path);
      var rules := env.isExcludesFile(path) || IsIgnoreRulePath(relative);
      && (plan.Covers(Paths) <==>
            rules || (relative != [".git"] && (IsAboutInnerRepository(env, relative) || !env.shouldBeIgnored(relative))))
      && (plan.Covers(Submodules) <==> !rules && relative != [".git"] && IsAboutInnerRepository(env, relative))
  {
  }

  // ---------------------------------------------------------------- what late classification loses

  /** The plan of the path loses `d` between two environments: a branch that is not current any
      more loses the paths; a path that becomes the excludes file loses all but the paths; and a
      worktree path loses the paths or the submodules when it stops being the excludes file, when
      it is ignored, or when the submodule it was in is gone. */
  ghost predicate PathLoses(raised: Environment, now: Environment, layout: Layout, path: Path, d: RefreshDomain) {
    if InGitDir(layout, path) then
      d == Paths && FileText(layout, path).Some?
      && IsCurrentBranchRef(raised, FileText(layout, path).value) && !IsCurrentBranchRef(now, FileText(layout, path).value)
    else if !InWorktree(layout, path) then
      d != Paths && !raised.isExcludesFile(path) && now.isExcludesFile(path)
    else WorktreePathLoses(raised, now, path, Relative(layout, path), d)
  }

  ghost predicate WorktreePathLoses(raised: Environment, now: Environment, path: Path, relative: Path, d: RefreshDomain) {
    if relative == [".git"] then
      if now.isExcludesFile(path) then d in {Identity, Worktrees} && !raised.isExcludesFile(path)
      else d == Paths && raised.isExcludesFile(path)
    else if d == Paths then
      && !now.isExcludesFile(path) && !IsIgnoreRulePath(relative)
      && !IsAboutInnerRepository(now, relative) && now.shouldBeIgnored(relative)
      && (raised.isExcludesFile(path) || raised.insideSubmodule(relative) || !raised.shouldBeIgnored(relative))
    else
      && d == Submodules
      && !raised.isExcludesFile(path) && !IsIgnoreRulePath(relative) && IsAboutInnerRepository(raised, relative)
      && (now.isExcludesFile(path) || !IsAboutInnerRepository(now, relative))
  }

  lemma GitTextLosesExactly(raised: Environment, now: Environment, text: string, d: RefreshDomain)
    ensures PlanForGitText(raised, text).Covers(d) && !PlanForGitText(now, text).Covers(d) <==>
              d == Paths && IsCurrentBranchRef(raised, text) && !IsCurrentBranchRef(now, text)
  {
    GitTextPlanDrift(raised, now, text, d);
    if StartsWith(text, "refs/heads/") {
      assert text[5] == "refs/heads/"[5];
      ListedRefArea(BranchFile, text);
      RefIsNotEarly(text);
    }
  }

  lemma PathLosesExactly(raised: Environment, now: Environment, layout: Layout, path: Path, d: RefreshDomain)
    ensures PlanForPath(raised, layout, path).Covers(d) && !PlanForPath(now, layout, path).Covers(d) <==>
              PathLoses(raised, now, layout, path, d)
  {
    if InGitDir(layout, path) {
      if FileText(layout, path).Some? {
        PathPlanOfFile(raised, layout, path);
        PathPlanOfFile(now, layout, path);
        GitTextLosesExactly(raised, now, FileText(layout, path).value, d);
      }
    } else if InWorktree(layout, path) {
      WorktreePathLosesExactly(raised, now, layout, path, d);
    }
  }

  lemma WorktreePathLosesExactly(raised: Environment, now: Environment, layout: Layout, path: Path, d: RefreshDomain)
    requires InWorktree(layout, path)
    ensures PlanForPath(raised, layout, path).Covers(d) && !PlanForPath(now, layout, path).Covers(d) <==>
              WorktreePathLoses(raised, now, path, Relative(layout, path), d)
  {
  }

  /** Classified in another environment, an event loses a domain exactly when every path that
      asked for it loses it and no other path asks for it now. */
  lemma EventLosesExactly(raised: Environment, now: Environment, layout: Layout, event: Event, d: RefreshDomain)
    requires !event.rescan && IsMutating(event) && event.paths != []
    ensures PlanForEvent(raised, layout, Notified(event)).Covers(d) && !PlanForEvent(now, layout, Notified(event)).Covers(d) <==>
      && (exists path :: path in event.paths && PlanForPath(raised, layout, path).Covers(d))
      && (forall path :: path in event.paths ==>
            if PlanForPath(raised, layout, path).Covers(d) then PathLoses(raised, now, layout, path, d)
            else !PlanForPath(now, layout, path).Covers(d))
  {
    EventPlanCovers(raised, layout, event, d);
    EventPlanCovers(now, layout, event, d);
    forall path | path in event.paths
      ensures PlanForPath(raised, layout, path).Covers(d) ==>
                (PathLoses(raised, now, layout, path, d) <==> !PlanForPath(now, layout, path).Covers(d))
    {
      PathLosesExactly(raised, now, layout, path, d);
    }
  }
}
