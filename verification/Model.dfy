/** The values of src/repository/model.rs: refresh plans, snapshots, deltas and patches. */
module Model {
  import opened Wrappers

  /** A path as its components, so that `Path::starts_with` is a prefix of sequences. */
  type Path = seq<string>

  // ---------------------------------------------------------------- plans

  datatype RefreshDomain =
    | Identity | Head | Upstream | Paths | Operation | Remotes
    | Branches | Tags | Stashes | Worktrees | Submodules

  datatype RefreshPlan = NoRefresh | Full | Domains(domains: set<RefreshDomain>) {
    predicate ShouldRefresh() { !NoRefresh? }

    /** What a plan promises to read again. */
    predicate Covers(d: RefreshDomain) {
      Full? || (Domains? && d in domains)
    }

    function Combine(other: RefreshPlan): RefreshPlan {
      if Full? || other.Full? then Full
      else if NoRefresh? then other
      else if other.NoRefresh? then this
      else Domains(domains + other.domains)
    }
  }

  /** `RefreshPlan::domains` */
  function PlanOf(domains: set<RefreshDomain>): (r: RefreshPlan)
    ensures r != Full && forall d: RefreshDomain :: r.Covers(d) <==> d in domains
    ensures r.ShouldRefresh() <==> exists d: RefreshDomain :: r.Covers(d)
  {
    if domains == {} then NoRefresh else Domains(domains)
  }

  // ---------------------------------------------------------------- snapshots

  datatype SnapshotError = NotRepository(path: Path) | Git(message: string)

  datatype SnapshotOptions = SnapshotOptions(includeIgnored: bool)

  const DEFAULT_OPTIONS := SnapshotOptions(false)

  datatype RepositoryIdentity = RepositoryIdentity(
    id: string, worktreeRoot: Option<Path>, gitDir: Path, commonDir: Path,
    repositoryNamespace: Option<string>, isBare: bool, isEmpty: bool, isShallow: bool,
    isLinkedWorktree: bool)

  datatype HeadKind = Attached | Detached | Unborn | Missing

  datatype HeadState = HeadState(
    kind: HeadKind, name: Option<string>, branch: Option<string>, oid: Option<string>)

  datatype CommitSummary = CommitSummary(
    oid: string, parentOids: seq<string>, summary: Option<string>,
    authorName: Option<string>, authorEmail: Option<string>, timeSeconds: int)

  datatype UpstreamState = UpstreamState(name: string, oid: Option<string>, ahead: nat, behind: nat)

  datatype ConflictSide = ConflictSide(path: string, oid: string, mode: nat)

  datatype ConflictSummary = ConflictSummary(
    path: string, ancestor: Option<ConflictSide>, ours: Option<ConflictSide>, theirs: Option<ConflictSide>)

  datatype PathDiffSummary = PathDiffSummary(added: nat, changed: nat, removed: nat)

  datatype PathEntryStatus = PathEntryStatus(
    indexNew: bool, indexModified: bool, indexDeleted: bool, indexRenamed: bool, indexTypechange: bool,
    workdirNew: bool, workdirModified: bool, workdirDeleted: bool, workdirTypechange: bool,
    workdirRenamed: bool, workdirUnreadable: bool, ignored: bool, conflicted: bool,
    assumeUnchanged: bool, skipWorktree: bool)

  datatype PathEntry = PathEntry(
    path: string, stagedOldPath: Option<string>, stagedNewPath: Option<string>,
    workdirOldPath: Option<string>, workdirNewPath: Option<string>,
    status: PathEntryStatus, diff: PathDiffSummary)

  datatype PathState = PathState(
    staged: seq<string>, unstaged: seq<string>, untracked: seq<string>, ignored: seq<string>,
    conflicted: seq<string>, conflicts: seq<ConflictSummary>, entries: seq<PathEntry>)

  datatype OperationKind =
    | Clean | Merge | Revert | RevertSequence | CherryPick | CherryPickSequence | Bisect
    | Rebase | RebaseInteractive | RebaseMerge | ApplyMailbox | ApplyMailboxOrRebase

  datatype OperationHeadRole = MergeRole | RebaseRole | CherryPickRole | RevertRole

  datatype OperationHead = OperationHead(role: OperationHeadRole, oid: string)

  datatype BisectState = BisectState(
    startOid: Option<string>, goodOids: seq<string>, badOids: seq<string>, skippedOids: seq<string>)

  datatype OperationState = OperationState(
    kind: OperationKind, message: Option<string>, heads: seq<OperationHead>, bisect: Option<BisectState>)

  datatype RemoteSummary = RemoteSummary(
    name: string, url: Option<string>, pushUrl: Option<string>, defaultBranch: Option<string>,
    fetchRefspecs: seq<string>, pushRefspecs: seq<string>)

  datatype BranchKind = Local | Remote

  datatype BranchSummary = BranchSummary(
    name: string, kind: BranchKind, isHead: bool, oid: Option<string>, tipCommit: Option<CommitSummary>,
    upstream: Option<string>, upstreamAhead: Option<nat>, upstreamBehind: Option<nat>)

  datatype TagKind = Lightweight | Annotated

  datatype GitObjectKind = CommitObject | TreeObject | BlobObject | TagObject

  datatype TagSummary = TagSummary(
    name: string, oid: string, kind: TagKind, targetOid: string, targetKind: Option<GitObjectKind>,
    taggerName: Option<string>, taggerEmail: Option<string>, taggerTimeSeconds: Option<int>,
    message: Option<string>)

  datatype StashSummary = StashSummary(index: nat, message: string, oid: string)

  datatype WorktreeSummary = WorktreeSummary(
    name: string, path: Path, locked: bool, lockReason: Option<string>)

  datatype SubmoduleState = SubmoduleState(
    inHead: bool, inIndex: bool, inConfig: bool, inWorkdir: bool,
    indexAdded: bool, indexDeleted: bool, indexModified: bool,
    workdirUninitialized: bool, workdirAdded: bool, workdirDeleted: bool, workdirModified: bool,
    workdirWorktreeModified: bool, workdirUntracked: bool)

  datatype SubmoduleSummary = SubmoduleSummary(
    name: string, path: Path, url: Option<string>, branch: Option<string>, headOid: Option<string>,
    indexOid: Option<string>, workdirOid: Option<string>, status: SubmoduleState)

  datatype RepositorySnapshot = RepositorySnapshot(
    identity: RepositoryIdentity, head: HeadState, headCommit: Option<CommitSummary>,
    upstream: Option<UpstreamState>, paths: PathState, operation: OperationState,
    remotes: seq<RemoteSummary>, branches: seq<BranchSummary>, tags: seq<TagSummary>,
    stashes: seq<StashSummary>, worktrees: seq<WorktreeSummary>, submodules: seq<SubmoduleSummary>)

  // ---------------------------------------------------------------- deltas and patches

  datatype PathSetDelta = PathSetDelta(added: seq<string>, removed: seq<string>) {
    predicate HasChanges() { added != [] || removed != [] }
  }

  datatype PathDelta = PathDelta(
    staged: PathSetDelta, unstaged: PathSetDelta, untracked: PathSetDelta, ignored: PathSetDelta,
    conflicted: PathSetDelta, entriesChanged: seq<string>)
  {
    predicate HasChanges() {
      staged.HasChanges() || unstaged.HasChanges() || untracked.HasChanges() || ignored.HasChanges()
      || conflicted.HasChanges() || entriesChanged != []
    }
  }

  datatype SnapshotDelta = SnapshotDelta(
    repositoryId: string, identityChanged: bool, headChanged: bool, upstreamChanged: bool,
    operationChanged: bool, paths: PathDelta, remotesChanged: bool, branchesChanged: bool,
    tagsChanged: bool, stashesChanged: bool, worktreesChanged: bool, submodulesChanged: bool)
  {
    predicate HasChanges() {
      headChanged || identityChanged || upstreamChanged || operationChanged || paths.HasChanges()
      || remotesChanged || branchesChanged || tagsChanged || stashesChanged || worktreesChanged
      || submodulesChanged
    }
  }

  datatype SnapshotPatch = SnapshotPatch(
    identity: Option<RepositoryIdentity>, head: Option<HeadState>,
    headCommit: Option<Option<CommitSummary>>, upstream: Option<Option<UpstreamState>>,
    paths: Option<PathState>, operation: Option<OperationState>,
    remotes: Option<seq<RemoteSummary>>, branches: Option<seq<BranchSummary>>,
    tags: Option<seq<TagSummary>>, stashes: Option<seq<StashSummary>>,
    worktrees: Option<seq<WorktreeSummary>>, submodules: Option<seq<SubmoduleSummary>>)

  /** `bool::then` */
  function Then<T>(condition: bool, value: T): Option<T> {
    if condition then Some(value) else None
  }

  /** `SnapshotPatch::from_delta` */
  function FromDelta(current: RepositorySnapshot, delta: SnapshotDelta): SnapshotPatch {
    SnapshotPatch(
      Then(delta.identityChanged, current.identity),
      Then(delta.headChanged, current.head),
      Then(delta.headChanged, current.headCommit),
      Then(delta.upstreamChanged, current.upstream),
      Then(delta.paths.HasChanges(), current.paths),
      Then(delta.operationChanged, current.operation),
      Then(delta.remotesChanged, current.remotes),
      Then(delta.branchesChanged, current.branches),
      Then(delta.tagsChanged, current.tags),
      Then(delta.stashesChanged, current.stashes),
      Then(delta.worktreesChanged, current.worktrees),
      Then(delta.submodulesChanged, current.submodules))
  }

  // ---------------------------------------------------------------- folding plans

  /** Plans combined one after the other, oldest first, onto `initial`. */
  function CombineAll(initial: RefreshPlan, plans: seq<RefreshPlan>): RefreshPlan
    decreases |plans|
  {
    if plans == [] then initial else CombineAll(initial.Combine(plans[0]), plans[1..])
  }

  /** The domains that some plan in the list names. */
  ghost function NamedDomains(plans: seq<RefreshPlan>): set<RefreshDomain> {
    set p, d | p in plans && p.Domains? && d in p.domains :: d
  }

  lemma CombineCovers(a: RefreshPlan, b: RefreshPlan, d: RefreshDomain)
    ensures a.Combine(b).Covers(d) <==> a.Covers(d) || b.Covers(d)
  {
  }

  /** The fold means: full as soon as one plan is full, otherwise the union of the named
      domains. Order and repetition of the plans do not matter. */
  lemma {:induction false} CombineAllMeaning(initial: RefreshPlan, plans: seq<RefreshPlan>)
    ensures CombineAll(initial, plans) == Full <==> initial == Full || Full in plans
    ensures CombineAll(initial, plans) == NoRefresh <==>
              initial == NoRefresh && forall p :: p in plans ==> p == NoRefresh
    ensures CombineAll(initial, plans).Domains? ==>
              CombineAll(initial, plans).domains == NamedDomains([initial] + plans)
    decreases |plans|
  {
    if plans == [] {
      assert [initial] + plans == [initial];
      assert initial in [initial];
    } else {
      var next := initial.Combine(plans[0]);
      CombineAllMeaning(next, plans[1..]);
      assert plans == [plans[0]] + plans[1..];
      assert next == NoRefresh <==> initial == NoRefresh && plans[0] == NoRefresh;
      assert plans[0] in plans && forall p :: p in plans[1..] ==> p in plans;
      if CombineAll(initial, plans).Domains? {
        NamedConcat([next], plans[1..]);
        NamedConcat([initial], plans);
        NamedConcat([plans[0]], plans[1..]);
        NamedOne(next);
        NamedOne(initial);
        NamedOne(plans[0]);
      }
    }
  }

  lemma NamedConcat(a: seq<RefreshPlan>, b: seq<RefreshPlan>)
    ensures NamedDomains(a + b) == NamedDomains(a) + NamedDomains(b)
  {
  }

  lemma NamedOne(p: RefreshPlan)
    ensures NamedDomains([p]) == if p.Domains? then p.domains else {}
  {
  }

  /** Any rearrangement of the events of a debounce turn gives the same plan. */
  lemma CombineAllOrderIndependent(initial: RefreshPlan, a: seq<RefreshPlan>, b: seq<RefreshPlan>)
    requires multiset(a) == multiset(b)
    ensures CombineAll(initial, a) == CombineAll(initial, b)
  {
    forall p ensures p in a <==> p in b {
      assert p in a <==> p in multiset(a);
      assert p in b <==> p in multiset(b);
    }
    CombineAllMeaning(initial, a);
    CombineAllMeaning(initial, b);
    NamedConcat([initial], a);
    NamedConcat([initial], b);
    assert NamedDomains(a) == NamedDomains(b);
    assert CombineAll(initial, a).Full? <==> CombineAll(initial, b).Full?;
    assert CombineAll(initial, a).NoRefresh? <==> CombineAll(initial, b).NoRefresh?;
  }

  lemma {:induction false} CombineAllCovers(initial: RefreshPlan, plans: seq<RefreshPlan>, d: RefreshDomain)
    ensures CombineAll(initial, plans).Covers(d) <==>
              initial.Covers(d) || exists p :: p in plans && p.Covers(d)
    decreases |plans|
  {
    if plans != [] {
      CombineAllCovers(initial.Combine(plans[0]), plans[1..], d);
      CombineCovers(initial, plans[0], d);
      assert plans == [plans[0]] + plans[1..];
    }
  }
}
