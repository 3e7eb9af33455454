/** What the classifier of src/watch/classify.rs answers, by kinds of events and names of files. */
module ClassifierAnswers {
  import opened Wrappers
  import opened Model
  import opened Classify

  // ---------------------------------------------------------------- events

  /** Reading a file, opening it and closing it after reading are the only events that do not
      count. Any other event with paths passes the callback, and asks for what its paths ask for. */
  lemma EventAnswers(env: Environment, layout: Layout, event: Event, d: RefreshDomain)
    requires !event.rescan && event.paths != []
    ensures var silent := event.kind == Access(ReadAccess) || event.kind == Access(CloseAccess(ReadMode))
                          || (event.kind.Access? && event.kind.access.OpenAccess?);
      && (ShouldRefreshForEvent(Notified(event)) <==> !silent)
      && (PlanForEvent(env, layout, Notified(event)).Covers(d) <==>
            !silent && exists path :: path in event.paths && PlanForPath(env, layout, path).Covers(d))
      && (silent ==> PlanForEvent(env, layout, Notified(event)) == NoRefresh)
  {
    if IsMutating(event) { EventPlanCovers(env, layout, event, d); }
  }

  /** Each kind by name. */
  lemma KindAnswers(event: Event)
    requires !event.rescan
    ensures event.kind in {AnyEvent, Remove, OtherEvent} ==> ShouldRefreshForEvent(Notified(event))
    ensures event.kind.Create? || event.kind.Modify? ==> ShouldRefreshForEvent(Notified(event))
    ensures event.kind in {Access(AnyAccess), Access(OtherAccess)} ==> ShouldRefreshForEvent(Notified(event))
    ensures event.kind.Access? && event.kind.access.CloseAccess? ==>
              (ShouldRefreshForEvent(Notified(event)) <==> event.kind.access.mode != ReadMode)
  {
  }

  /** A failed notification, a rescan, and an event without paths ask for everything, the last one
      only if it counts. */
  lemma UnspecificAnswers(env: Environment, layout: Layout, event: Event)
    ensures ShouldRefreshForEvent(Failed) && PlanForEvent(env, layout, Failed) == Full
    ensures event.rescan ==> ShouldRefreshForEvent(Notified(event)) && PlanForEvent(env, layout, Notified(event)) == Full
    ensures event.paths == [] && !event.rescan ==>
              PlanForEvent(env, layout, Notified(event)) == if ShouldRefreshForEvent(Notified(event)) then Full else NoRefresh
  {
  }

  // ---------------------------------------------------------------- where a path lies

  /** A path is asked about relative to the git directory if it is below it, and otherwise relative
      to the common directory. */
  lemma GitPathAnswers(env: Environment, layout: Layout, rest: Path)
    ensures PlanForPath(env, layout, layout.gitDir + rest) == PlanForRelative(env, Text(rest))
    ensures !(layout.gitDir <= layout.commonDir + rest) ==>
              PlanForPath(env, layout, layout.commonDir + rest) == PlanForRelative(env, Text(rest))
  {
    assert StripGitDir(layout, layout.gitDir + rest) == rest;
    if !(layout.gitDir <= layout.commonDir + rest) {
      assert StripGitDir(layout, layout.commonDir + rest) == rest;
    }
  }

  /** Outside the git directories and the worktree only the excludes file does not ask for
      everything. */
  lemma OutsideAnswers(env: Environment, layout: Layout, path: Path)
    requires !(layout.gitDir <= path) && !(layout.commonDir <= path)
    requires layout.worktreeRoot.Some? ==> !(layout.worktreeRoot.value <= path)
    ensures PlanForPath(env, layout, path) == if env.isExcludesFile(path) then Domains({Paths}) else Full
  {
  }

  /** Components are joined by slashes. */
  lemma {:induction false} TextJoins(a: Path, b: Path)
    requires a != [] && b != []
    ensures Text(a + b) == Text(a) + "/" + Text(b)
    ensures |a| == 1 ==> Text(a) == a[0]
  {
    if |a| == 1 {
      assert (a + b)[1..] == b;
    } else {
      assert (a + b)[1..] == a[1..] + b;
      TextJoins(a[1..], b);
      assert Text(a + b) == a[0] + "/" + (Text(a[1..]) + "/" + Text(b));
    }
  }

  lemma IgnoreRuleFiles(relative: Path)
    ensures IsIgnoreRulePath(relative) <==> exists dir :: relative == dir + [".gitignore"]
  {
    if relative != [] { assert relative == relative[..|relative| - 1] + [relative[|relative| - 1]]; }
  }

  /** The files whose events make the watcher look for its targets again. */
  lemma IgnoreRuleAnswers(env: Environment, layout: Layout, path: Path)
    ensures MayChangeIgnoreRules(env, layout, path) <==>
      || env.isExcludesFile(path)
      || (exists rest ::
            && (path == layout.gitDir + rest || (path == layout.commonDir + rest && !(layout.gitDir <= path)))
            && Text(rest) in {"info/exclude", "config", "config.worktree"})
      || (layout.worktreeRoot.Some? && exists dir :: path == layout.worktreeRoot.value + (dir + [".gitignore"]))
  {
    GitPathRest(layout, path);
    if layout.worktreeRoot.Some? {
      var root := layout.worktreeRoot.value;
      if root <= path {
        IgnoreRuleFiles(path[|root|..]);
        assert path == root + path[|root|..];
        if dir :| path[|root|..] == dir + [".gitignore"] { assert path == root + (dir + [".gitignore"]); }
      }
      if dir :| path == root + (dir + [".gitignore"]) {
        assert path[|root|..] == dir + [".gitignore"];
      }
    }
  }

  lemma GitPathRest(layout: Layout, path: Path)
    ensures InGitDir(layout, path) ==>
      var rest := StripGitDir(layout, path);
      path == layout.gitDir + rest || (path == layout.commonDir + rest && !(layout.gitDir <= path))
    ensures forall rest ::
      path == layout.gitDir + rest || (path == layout.commonDir + rest && !(layout.gitDir <= path)) ==>
        InGitDir(layout, path) && rest == StripGitDir(layout, path)
  {
    if layout.gitDir <= path {
      assert path == layout.gitDir + path[|layout.gitDir|..];
    } else if layout.commonDir <= path {
      assert path == layout.commonDir + path[|layout.commonDir|..];
    }
    forall rest | path == layout.gitDir + rest || (path == layout.commonDir + rest && !(layout.gitDir <= path))
      ensures InGitDir(layout, path) && rest == StripGitDir(layout, path)
    {
      if path == layout.gitDir + rest {
        assert path[|layout.gitDir|..] == rest;
      } else {
        assert path[|layout.commonDir|..] == rest;
      }
    }
  }

  /** A worktree path asks for nothing beyond the paths, the submodules and, for a `.git` file, the
      identity and the worktrees. */
  lemma WorktreeAnswers(env: Environment, layout: Layout, root: Path, rest: Path)
    requires layout.worktreeRoot == Some(root) && !(layout.gitDir <= root + rest) && !(layout.commonDir <= root + rest)
    ensures var plan := PlanForPath(env, layout, root + rest);
      var rules := env.isExcludesFile(root + rest) || exists dir :: rest == dir + [".gitignore"];
      var inner := rest == [".gitmodules"] || ".git" in rest || env.insideSubmodule(rest);
      && (rules ==> plan == Domains({Paths}))
      && (!rules && rest == [".git"] ==> plan == Domains({Identity, Worktrees}))
      && (!rules && rest != [".git"] && inner ==> plan == Domains({Paths, Submodules}))
      && (!rules && !inner ==> plan == if env.shouldBeIgnored(rest) then NoRefresh else Domains({Paths}))
  {
    assert (root + rest)[|root|..] == rest;
    IgnoreRuleFiles(rest);
  }

  // ---------------------------------------------------------------- git files by name

  /** What each git file that a reader looks at asks for; `current` is about a branch. */
  ghost function FilePlan(file: GitFile, current: bool): RefreshPlan {
    match file
    case IndexFile | WorktreeConfigFile | ExcludeFile => Domains({Paths})
    case ModuleFile => Domains({Paths, Submodules})
    case HeadFile => Domains({Head, Upstream, Branches, Paths})
    case ShallowFile => Domains({Identity, Head, Upstream, Branches})
    case BranchFile => Domains(if current then {Head, Upstream, Branches, Paths} else {Head, Upstream, Branches})
    case RemoteRefFile => Domains({Upstream, Branches, Remotes})
    case TagFile => Domains({Tags})
    case PackedRefsFile => Domains({Head, Upstream, Branches, Tags})
    case ConfigFile => Domains({Remotes, Upstream, Branches, Paths})
    case StashFile => Domains({Head, Upstream, Branches, Paths, Stashes})
    case WorktreeFile => Domains({Identity, Upstream, Branches, Worktrees})
    case BisectRefFile | OperationFile => Domains({Operation, Head, Upstream, Branches, Paths})
    case ObjectFile => NoRefresh
    case UnlistedFile => Full
  }

  lemma AreaAnswers(area: GitArea, file: GitFile, current: bool)
    requires HasArea(file, area) && (area == HeadsDirectory ==> !current)
    ensures AreaPlan(area, current) == FilePlan(file, file == BranchFile && current)
  {
  }

  lemma CurrentBranch(env: Environment, text: string)
    ensures IsCurrentBranchRef(env, text) <==>
              env.headShorthand.Some? && text == "refs/heads/" + env.headShorthand.value
  {
    if "refs/heads/" <= text { assert text == "refs/heads/" + text[|"refs/heads/"|..]; }
  }

  /** A git file asks for exactly what the table says, the path state of a branch file iff HEAD is
      that branch. */
  lemma FileAnswers(env: Environment, file: GitFile, text: string)
    requires IsFile(file, text)
    ensures PlanForGitText(env, text) ==
              FilePlan(file, file == BranchFile && env.headShorthand.Some? && text == "refs/heads/" + env.headShorthand.value)
  {
    FileArea(file, text);
    CurrentBranch(env, text);
    if IsCurrentBranchRef(env, text) {
      assert text[5] == "refs/heads/"[5];
      ListedRefArea(BranchFile, text);
      RefIsNotEarly(text);
    }
    AreaAnswers(AreaOf(text), file, IsCurrentBranchRef(env, text));
  }

  /** Files that no reader looks at. */
  lemma EarlySideFiles(env: Environment, text: string)
    ensures text == "info/sparse-checkout" || "index." <= text ==> PlanForGitText(env, text) == Domains({Paths})
    ensures "rr-cache/" <= text ==> PlanForGitText(env, text) == NoRefresh
    ensures text == "COMMIT_EDITMSG" || text == "AUTO_MERGE" || text == "MERGE_RR" ==> PlanForGitText(env, text) == NoRefresh
    ensures text == "ORIG_HEAD" ==> PlanForGitText(env, text) == Domains({Head, Upstream, Branches, Paths})
  {
    EarlySideAreas(text);
    CurrentBranch(env, text);
  }

  lemma EarlySideAreas(text: string)
    ensures text == "info/sparse-checkout" || "index." <= text ==> EarlyArea(text) == Some(IndexArea)
    ensures "rr-cache/" <= text ==> EarlyArea(text) == Some(UnmodeledArea)
    ensures text == "COMMIT_EDITMSG" || text == "AUTO_MERGE" || text == "MERGE_RR" ==> EarlyArea(text) == Some(UnmodeledArea)
    ensures text == "ORIG_HEAD" ==> EarlyArea(text) == Some(HeadArea)
  {
    assert "rr-cache/" <= text ==> |text| >= 9 && text[0] == 'r';
    assert text == "COMMIT_EDITMSG" ==> |text| == 14 && text[0] == 'C';
    assert text == "AUTO_MERGE" ==> |text| == 10 && text[0] == 'A';
    assert text == "MERGE_RR" ==> |text| == 8 && text[0] == 'M';
    assert text == "ORIG_HEAD" ==> |text| == 9 && text[0] == 'O' && text[1] == 'R';
  }

  lemma FetchFile(env: Environment, text: string)
    requires text == "FETCH_HEAD"
    ensures PlanForGitText(env, text) == Domains({Upstream, Branches, Remotes})
  {
    assert |text| == 10 && text[0] == 'F' && text[2] == 'T' && text[5] == '_';
    NotEarly(text);
    assert RefArea(text) == Some(RemotesArea);
  }

  lemma LateSideAreas(text: string)
    ensures text == "packed-refs.new" ==> LateArea(text) == PackedRefsArea
    ensures "logs/" <= text && text != "logs/refs/stash" ==> LateArea(text) == UnmodeledArea
    ensures text == "packed-refs.new" || "logs/" <= text ==>
              |text| > 2 && text[0] in {'p', 'l'} && text[2] in {'c', 'g'} && text != "config.worktree"
  {
    assert "logs/" <= text ==> |text| >= 5 && text[0] == 'l' && text[2] == 'g';
    assert text == "packed-refs.new" ==> |text| == 15 && text[0] == 'p' && text[2] == 'c';
  }

  lemma LateSideFiles(env: Environment, text: string)
    ensures text == "packed-refs.new" ==> PlanForGitText(env, text) == Domains({Head, Upstream, Branches, Tags})
    ensures "logs/" <= text && text != "logs/refs/stash" ==> PlanForGitText(env, text) == NoRefresh
  {
    if text == "packed-refs.new" || "logs/" <= text {
      LateSideAreas(text);
      NotEarly(text);
      NotAboutRefs(text);
    }
  }

  lemma OperationApart(text: string)
    requires |text| > 2 && text[0] in {'B', 'M'} && text[2] in {'S', 'R'} && IsOperationPath(text)
    requires text != "COMMIT_EDITMSG" && text != "MERGE_RR" && text != "shallow" && text != "config.worktree"
    ensures AreaOf(text) == OperationArea
  {
    NotEarly(text);
    NotAboutRefs(text);
    OperationFileArea(text);
  }

  /** The files of an operation that no reader looks at. */
  lemma OperationSideFiles(env: Environment, text: string)
    requires text in {"BISECT_ANCESTORS_OK", "BISECT_EXPECTED_REV", "BISECT_HEAD", "BISECT_NAMES", "BISECT_TERMS", "MERGE_MODE"}
    ensures PlanForGitText(env, text) == Domains({Operation, Head, Upstream, Branches, Paths})
  {
    assert AreaOf(text) == OperationArea by {
      OperationSideStarts(text);
      OperationApart(text);
    }
  }

  lemma OperationSideStarts(text: string)
    requires text in {"BISECT_ANCESTORS_OK", "BISECT_EXPECTED_REV", "BISECT_HEAD", "BISECT_NAMES", "BISECT_TERMS", "MERGE_MODE"}
    ensures |text| > 2 && text[0] in {'B', 'M'} && text[2] in {'S', 'R'} && IsOperationPath(text)
    ensures text != "COMMIT_EDITMSG" && text != "MERGE_RR" && text != "shallow" && text != "config.worktree"
  {
  }

  // ---------------------------------------------------------------- locks by name

  /** What git takes a lock on and the classifier knows. */
  ghost predicate HasKnownLock(target: string) {
    || target == "HEAD" || target == "ORIG_HEAD" || target == "index" || target == "config" || target == "config.worktree"
    || target == "info/sparse-checkout" || "index." <= target || "refs/" <= target || "worktrees/" <= target
    || target in {"MERGE_HEAD", "REBASE_HEAD", "CHERRY_PICK_HEAD", "REVERT_HEAD", "BISECT_LOG", "BISECT_ANCESTORS_OK",
                  "BISECT_EXPECTED_REV", "BISECT_HEAD", "BISECT_NAMES", "BISECT_START", "BISECT_TERMS", "MERGE_MODE",
                  "MERGE_MSG", "rebase-merge", "rebase-apply", "sequencer"}
    || "sequencer/" <= target || "rebase-merge/" <= target || "rebase-apply/" <= target
  }

  lemma KnownLocks(target: string)
    ensures IsKnownLockTarget(target) <==> HasKnownLock(target)
  {
    assert "refs/bisect/" <= target ==> "refs/" <= target by {
      if "refs/bisect/" <= target { assert "refs/" == "refs/bisect/"[..5] == target[..12][..5] == target[..5]; }
    }
  }

  /** A lock asks for what its file asks for if the classifier knows it, and for nothing otherwise;
      a text that is no lock asks for itself. */
  lemma LockAnswers(env: Environment, target: string, text: string)
    ensures PlanForRelative(env, target + ".lock") == if HasKnownLock(target) then PlanForGitText(env, target) else NoRefresh
    ensures (forall t :: text != t + ".lock") ==> PlanForRelative(env, text) == PlanForGitText(env, text)
  {
    assert StripSuffix(target + ".lock", ".lock") == Some(target);
    KnownLocks(target);
    if StripSuffix(text, ".lock").Some? {
      assert text == text[..|text| - 5] + ".lock";
    }
  }
}
