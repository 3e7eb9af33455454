/** Reading a repository, whole or domain by domain (src/repository.rs). Git is a `World` of
    readers: what each libgit2 query would answer now. */
module Repository {
  import opened Wrappers
  import opened Model

  /** One reader per query. `commitOf` and `upstreamOf` take the head they are asked about, as
      `head_commit` and `upstream_state` do; every reader but `operation` may fail. */
  datatype World = World(
    discover: Option<SnapshotError>,
    identity: Result<RepositoryIdentity, SnapshotError>,
    head: Result<HeadState, SnapshotError>,
    commitOf: HeadState -> Result<Option<CommitSummary>, SnapshotError>,
    upstreamOf: HeadState -> Result<Option<UpstreamState>, SnapshotError>,
    pathsOf: SnapshotOptions -> Result<PathState, SnapshotError>,
    operation: OperationState,
    remotes: Result<seq<RemoteSummary>, SnapshotError>,
    branches: Result<seq<BranchSummary>, SnapshotError>,
    tags: Result<seq<TagSummary>, SnapshotError>,
    stashes: Result<seq<StashSummary>, SnapshotError>,
    worktrees: Result<seq<WorktreeSummary>, SnapshotError>,
    submodules: Result<seq<SubmoduleSummary>, SnapshotError>)

  // ---------------------------------------------------------------- snapshot fields

  datatype Field =
    | IdentityField | HeadField | HeadCommitField | UpstreamField | PathsField | OperationField
    | RemotesField | BranchesField | TagsField | StashesField | WorktreesField | SubmodulesField

  datatype FieldValue =
    | IdentityValue(identity: RepositoryIdentity)
    | HeadValue(head: HeadState)
    | HeadCommitValue(headCommit: Option<CommitSummary>)
    | UpstreamValue(upstream: Option<UpstreamState>)
    | PathsValue(paths: PathState)
    | OperationValue(operation: OperationState)
    | RemotesValue(remotes: seq<RemoteSummary>)
    | BranchesValue(branches: seq<BranchSummary>)
    | TagsValue(tags: seq<TagSummary>)
    | StashesValue(stashes: seq<StashSummary>)
    | WorktreesValue(worktrees: seq<WorktreeSummary>)
    | SubmodulesValue(submodules: seq<SubmoduleSummary>)

  const FIELDS: nat := 12

  /** The order in which both the full and the partial read proceed. */
  function Index(f: Field): (i: nat)
    ensures i < FIELDS
  {
    match f
    case IdentityField => 0 case HeadField => 1 case HeadCommitField => 2 case UpstreamField => 3
    case PathsField => 4 case OperationField => 5 case RemotesField => 6 case BranchesField => 7
    case TagsField => 8 case StashesField => 9 case WorktreesField => 10 case SubmodulesField => 11
  }

  function FieldAt(i: nat): (f: Field)
    requires i < FIELDS
    ensures Index(f) == i
  {
    if i == 0 then IdentityField else if i == 1 then HeadField else if i == 2 then HeadCommitField
    else if i == 3 then UpstreamField else if i == 4 then PathsField else if i == 5 then OperationField
    else if i == 6 then RemotesField else if i == 7 then BranchesField else if i == 8 then TagsField
    else if i == 9 then StashesField else if i == 10 then WorktreesField else SubmodulesField
  }

  function DomainOf(f: Field): RefreshDomain {
    match f
    case IdentityField => Identity case HeadField => Head case HeadCommitField => Head
    case UpstreamField => Upstream case PathsField => Paths case OperationField => Operation
    case RemotesField => Remotes case BranchesField => Branches case TagsField => Tags
    case StashesField => Stashes case WorktreesField => Worktrees case SubmodulesField => Submodules
  }

  const ALL_DOMAINS: set<RefreshDomain> :=
    {Identity, Head, Upstream, Paths, Operation, Remotes, Branches, Tags, Stashes, Worktrees, Submodules}

  function FieldOf(s: RepositorySnapshot, f: Field): FieldValue {
    match f
    case IdentityField => IdentityValue(s.identity)
    case HeadField => HeadValue(s.head)
    case HeadCommitField => HeadCommitValue(s.headCommit)
    case UpstreamField => UpstreamValue(s.upstream)
    case PathsField => PathsValue(s.paths)
    case OperationField => OperationValue(s.operation)
    case RemotesField => RemotesValue(s.remotes)
    case BranchesField => BranchesValue(s.branches)
    case TagsField => TagsValue(s.tags)
    case StashesField => StashesValue(s.stashes)
    case WorktreesField => WorktreesValue(s.worktrees)
    case SubmodulesField => SubmodulesValue(s.submodules)
  }

  function FieldOfValue(v: FieldValue): Field {
    match v
    case IdentityValue(_) => IdentityField case HeadValue(_) => HeadField
    case HeadCommitValue(_) => HeadCommitField case UpstreamValue(_) => UpstreamField
    case PathsValue(_) => PathsField case OperationValue(_) => OperationField
    case RemotesValue(_) => RemotesField case BranchesValue(_) => BranchesField
    case TagsValue(_) => TagsField case StashesValue(_) => StashesField
    case WorktreesValue(_) => WorktreesField case SubmodulesValue(_) => SubmodulesField
  }

  function WithField(s: RepositorySnapshot, v: FieldValue): RepositorySnapshot {
    match v
    case IdentityValue(x) => s.(identity := x)
    case HeadValue(x) => s.(head := x)
    case HeadCommitValue(x) => s.(headCommit := x)
    case UpstreamValue(x) => s.(upstream := x)
    case PathsValue(x) => s.(paths := x)
    case OperationValue(x) => s.(operation := x)
    case RemotesValue(x) => s.(remotes := x)
    case BranchesValue(x) => s.(branches := x)
    case TagsValue(x) => s.(tags := x)
    case StashesValue(x) => s.(stashes := x)
    case WorktreesValue(x) => s.(worktrees := x)
    case SubmodulesValue(x) => s.(submodules := x)
  }

  lemma WithFieldSets(s: RepositorySnapshot, v: FieldValue)
    ensures forall f: Field :: FieldOf(WithField(s, v), f) == if f == FieldOfValue(v) then v else FieldOf(s, f)
  {
  }

  lemma SameFields(a: RepositorySnapshot, b: RepositorySnapshot)
    requires forall f: Field :: FieldOf(a, f) == FieldOf(b, f)
    ensures a == b
  {
    assert FieldOf(a, IdentityField) == FieldOf(b, IdentityField) && FieldOf(a, HeadField) == FieldOf(b, HeadField);
    assert FieldOf(a, HeadCommitField) == FieldOf(b, HeadCommitField) && FieldOf(a, UpstreamField) == FieldOf(b, UpstreamField);
    assert FieldOf(a, PathsField) == FieldOf(b, PathsField) && FieldOf(a, OperationField) == FieldOf(b, OperationField);
    assert FieldOf(a, RemotesField) == FieldOf(b, RemotesField) && FieldOf(a, BranchesField) == FieldOf(b, BranchesField);
    assert FieldOf(a, TagsField) == FieldOf(b, TagsField) && FieldOf(a, StashesField) == FieldOf(b, StashesField);
    assert FieldOf(a, WorktreesField) == FieldOf(b, WorktreesField) && FieldOf(a, SubmodulesField) == FieldOf(b, SubmodulesField);
  }

  // ---------------------------------------------------------------- reading

  /** What the reader of `f` answers when the snapshot under construction holds `head`. */
  function ReadField(w: World, head: HeadState, f: Field, options: SnapshotOptions): (r: Result<FieldValue, SnapshotError>)
    ensures r.Ok? ==> FieldOfValue(r.value) == f
  {
    match f
    case IdentityField => (var x :- w.identity; Ok(IdentityValue(x)))
    case HeadField => (var x :- w.head; Ok(HeadValue(x)))
    case HeadCommitField => (var x :- w.commitOf(head); Ok(HeadCommitValue(x)))
    case UpstreamField => (var x :- w.upstreamOf(head); Ok(UpstreamValue(x)))
    case PathsField => (var x :- w.pathsOf(options); Ok(PathsValue(x)))
    case OperationField => Ok(OperationValue(w.operation))
    case RemotesField => (var x :- w.remotes; Ok(RemotesValue(x)))
    case BranchesField => (var x :- w.branches; Ok(BranchesValue(x)))
    case TagsField => (var x :- w.tags; Ok(TagsValue(x)))
    case StashesField => (var x :- w.stashes; Ok(StashesValue(x)))
    case WorktreesField => (var x :- w.worktrees; Ok(WorktreesValue(x)))
    case SubmodulesField => (var x :- w.submodules; Ok(SubmodulesValue(x)))
  }

  predicate AsksAboutHead(f: Field) {
    f == HeadCommitField || f == UpstreamField
  }

  /** The fields from position `at` on that belong to `domains`, read into `s` in order. */
  function ReadFrom(w: World, s: RepositorySnapshot, at: nat, domains: set<RefreshDomain>, options: SnapshotOptions)
    : Result<RepositorySnapshot, SnapshotError>
    requires at <= FIELDS
    decreases FIELDS - at
  {
    if at == FIELDS then Ok(s)
    else if DomainOf(FieldAt(at)) in domains then
      var v :- ReadField(w, s.head, FieldAt(at), options);
      ReadFrom(w, WithField(s, v), at + 1, domains, options)
    else ReadFrom(w, s, at + 1, domains, options)
  }

  /** `snapshot_repository_with_options` */
  function SnapshotRepository(w: World, options: SnapshotOptions): Result<RepositorySnapshot, SnapshotError> {
    if w.discover.Some? then Err(w.discover.value)
    else
      var identity :- w.identity;
      var head :- w.head;
      var headCommit :- w.commitOf(head);
      var upstream :- w.upstreamOf(head);
      var paths :- w.pathsOf(options);
      var operation := w.operation;
      var remotes :- w.remotes;
      var branches :- w.branches;
      var tags :- w.tags;
      var stashes :- w.stashes;
      var worktrees :- w.worktrees;
      var submodules :- w.submodules;
      Ok(RepositorySnapshot(identity, head, headCommit, upstream, paths, operation, remotes,
                            branches, tags, stashes, worktrees, submodules))
  }

  datatype SnapshotRefresh = SnapshotRefresh(snapshot: RepositorySnapshot, plan: RefreshPlan)

  /** `refresh_repository_with_plan`, as a function of the world it runs in. */
  function Refresh(w: World, previous: Option<RepositorySnapshot>, plan: RefreshPlan, options: SnapshotOptions)
    : Result<SnapshotRefresh, SnapshotError>
  {
    if previous.None? || plan.Full? then
      var snapshot :- SnapshotRepository(w, options);
      Ok(SnapshotRefresh(snapshot, Full))
    else if plan.NoRefresh? then Ok(SnapshotRefresh(previous.value, NoRefresh))
    else if w.discover.Some? then Err(w.discover.value)
    else
      var snapshot :- ReadFrom(w, previous.value, 0, plan.domains, options);
      Ok(SnapshotRefresh(snapshot, plan))
  }

  /** `after` is `before` with the field at `at` read, if it is to be read at all. */
  ghost predicate ReadsField(w: World, before: RepositorySnapshot, at: nat, domains: set<RefreshDomain>,
                             options: SnapshotOptions, after: RepositorySnapshot)
    requires at < FIELDS
  {
    if DomainOf(FieldAt(at)) in domains then
      var v := ReadField(w, before.head, FieldAt(at), options);
      v.Ok? && after == WithField(before, v.value)
    else after == before
  }

  lemma ReadOn(w: World, before: RepositorySnapshot, at: nat, domains: set<RefreshDomain>, options: SnapshotOptions,
               after: RepositorySnapshot)
    requires at < FIELDS && ReadsField(w, before, at, domains, options, after)
    ensures ReadFrom(w, before, at, domains, options) == ReadFrom(w, after, at + 1, domains, options)
  {
  }

  lemma ReadFails(w: World, s: RepositorySnapshot, at: nat, domains: set<RefreshDomain>, options: SnapshotOptions)
    requires at < FIELDS && DomainOf(FieldAt(at)) in domains && ReadField(w, s.head, FieldAt(at), options).Err?
    ensures ReadFrom(w, s, at, domains, options) == Err(ReadField(w, s.head, FieldAt(at), options).error)
  {
  }

  /** The step-by-step assignments of `refresh_domains` on a snapshot passed by reference. */
  method RefreshDomains(w: World, before: RepositorySnapshot, domains: set<RefreshDomain>,
                        options: SnapshotOptions)
    returns (r: Result<RepositorySnapshot, SnapshotError>)
    ensures r == ReadFrom(w, before, 0, domains, options)
  {
    var snapshot := before;
    ghost var last, at := before, Index(IdentityField);
    if Identity in domains {
      if w.identity.Err? {
        ReadFails(w, last, at, domains, options);
        return Err(w.identity.error);
      }
      snapshot := snapshot.(identity := w.identity.value);
    }
    ReadOn(w, last, at, domains, options, snapshot);
    last, at := snapshot, at + 1;
    if Head in domains {
      if w.head.Err? {
        ReadFails(w, last, at, domains, options);
        return Err(w.head.error);
      }
      snapshot := snapshot.(head := w.head.value);
      ReadOn(w, last, at, domains, options, snapshot);
      last, at := snapshot, at + 1;
      var headCommit := w.commitOf(snapshot.head);
      if headCommit.Err? {
        ReadFails(w, last, at, domains, options);
        return Err(headCommit.error);
      }
      snapshot := snapshot.(headCommit := headCommit.value);
    } else {
      ReadOn(w, last, at, domains, options, snapshot);
      at := at + 1;
    }
    ReadOn(w, last, at, domains, options, snapshot);
    last, at := snapshot, at + 1;
    r := RefreshDomainsFromUpstream(w, snapshot, at, domains, options);
  }

  /** The assignments from `upstream` on. */
  method RefreshDomainsFromUpstream(w: World, before: RepositorySnapshot, ghost from: nat, domains: set<RefreshDomain>,
                                    options: SnapshotOptions)
    returns (r: Result<RepositorySnapshot, SnapshotError>)
    requires from == Index(UpstreamField)
    ensures r == ReadFrom(w, before, from, domains, options)
  {
    var snapshot := before;
    ghost var last, at := before, from;
    if Upstream in domains {
      var upstream := w.upstreamOf(snapshot.head);
      if upstream.Err? {
        ReadFails(w, last, at, domains, options);
        return Err(upstream.error);
      }
      snapshot := snapshot.(upstream := upstream.value);
    }
    ReadOn(w, last, at, domains, options, snapshot);
    last, at := snapshot, at + 1;
    if Paths in domains {
      var paths := w.pathsOf(options);
      if paths.Err? {
        ReadFails(w, last, at, domains, options);
        return Err(paths.error);
      }
      snapshot := snapshot.(paths := paths.value);
    }
    ReadOn(w, last, at, domains, options, snapshot);
    last, at := snapshot, at + 1;
    if Operation in domains {
      snapshot := snapshot.(operation := w.operation);
    }
    ReadOn(w, last, at, domains, options, snapshot);
    last, at := snapshot, at + 1;
    r := RefreshDomainsFromRemotes(w, snapshot, at, domains, options);
  }

  /** The assignments from `remotes` on. */
  method RefreshDomainsFromRemotes(w: World, before: RepositorySnapshot, ghost from: nat, domains: set<RefreshDomain>,
                                   options: SnapshotOptions)
    returns (r: Result<RepositorySnapshot, SnapshotError>)
    requires from == Index(RemotesField)
    ensures r == ReadFrom(w, before, from, domains, options)
  {
    var snapshot := before;
    ghost var last, at := before, from;
    if Remotes in domains {
      if w.remotes.Err? {
        ReadFails(w, last, at, domains, options);
        return Err(w.remotes.error);
      }
      snapshot := snapshot.(remotes := w.remotes.value);
    }
    ReadOn(w, last, at, domains, options, snapshot);
    last, at := snapshot, at + 1;
    if Branches in domains {
      if w.branches.Err? {
        ReadFails(w, last, at, domains, options);
        return Err(w.branches.error);
      }
      snapshot := snapshot.(branches := w.branches.value);
    }
    ReadOn(w, last, at, domains, options, snapshot);
    last, at := snapshot, at + 1;
    if Tags in domains {
      if w.tags.Err? {
        ReadFails(w, last, at, domains, options);
        return Err(w.tags.error);
      }
      snapshot := snapshot.(tags := w.tags.value);
    }
    ReadOn(w, last, at, domains, options, snapshot);
    last, at := snapshot, at + 1;
    r := RefreshDomainsFromStashes(w, snapshot, at, domains, options);
  }

  /** The assignments from `stashes` on. */
  method RefreshDomainsFromStashes(w: World, before: RepositorySnapshot, ghost from: nat, domains: set<RefreshDomain>,
                                   options: SnapshotOptions)
    returns (r: Result<RepositorySnapshot, SnapshotError>)
    requires from == Index(StashesField)
    ensures r == ReadFrom(w, before, from, domains, options)
  {
    var snapshot := before;
    ghost var last, at := before, from;
    if Stashes in domains {
      if w.stashes.Err? {
        ReadFails(w, last, at, domains, options);
        return Err(w.stashes.error);
      }
      snapshot := snapshot.(stashes := w.stashes.value);
    }
    ReadOn(w, last, at, domains, options, snapshot);
    last, at := snapshot, at + 1;
    if Worktrees in domains {
      if w.worktrees.Err? {
        ReadFails(w, last, at, domains, options);
        return Err(w.worktrees.error);
      }
      snapshot := snapshot.(worktrees := w.worktrees.value);
    }
    ReadOn(w, last, at, domains, options, snapshot);
    last, at := snapshot, at + 1;
    if Submodules in domains {
      if w.submodules.Err? {
        ReadFails(w, last, at, domains, options);
        return Err(w.submodules.error);
      }
      snapshot := snapshot.(submodules := w.submodules.value);
    }
    ReadOn(w, last, at, domains, options, snapshot);
    r := Ok(snapshot);
  }

  method RefreshRepositoryWithPlan(w: World, previous: Option<RepositorySnapshot>, plan: RefreshPlan, options: SnapshotOptions)
    returns (r: Result<SnapshotRefresh, SnapshotError>)
    ensures r == Refresh(w, previous, plan, options)
  {
    if previous.None? {
      var full := SnapshotRepository(w, options);
      return if full.Ok? then Ok(SnapshotRefresh(full.value, Full)) else Err(full.error);
    }
    match plan
    case NoRefresh => r := Ok(SnapshotRefresh(previous.value, NoRefresh));
    case Full =>
      var full := SnapshotRepository(w, options);
      r := if full.Ok? then Ok(SnapshotRefresh(full.value, Full)) else Err(full.error);
    case Domains(domains) =>
      if w.discover.Some? {
        return Err(w.discover.value);
      }
      var snapshot := RefreshDomains(w, previous.value, domains, options);
      r := if snapshot.Ok? then Ok(SnapshotRefresh(snapshot.value, plan)) else Err(snapshot.error);
  }

  // ---------------------------------------------------------------- what a partial read yields

  /** A successful read from `at` on keeps every field it does not reach, and leaves in every
      other field what its reader answers for the head the snapshot ends up with. */
  ghost predicate ReadsTo(w: World, s: RepositorySnapshot, at: nat, domains: set<RefreshDomain>,
                          options: SnapshotOptions, r: RepositorySnapshot)
  {
    forall f: Field ::
      if Index(f) >= at && DomainOf(f) in domains
      then ReadField(w, r.head, f, options) == Ok(FieldOf(r, f))
      else FieldOf(r, f) == FieldOf(s, f)
  }

  lemma {:induction false} ReadFromMeaning(w: World, s: RepositorySnapshot, at: nat, domains: set<RefreshDomain>,
                                           options: SnapshotOptions, r: RepositorySnapshot)
    requires at <= FIELDS
    ensures ReadFrom(w, s, at, domains, options) == Ok(r) <==> ReadsTo(w, s, at, domains, options, r)
    decreases FIELDS - at
  {
    if at == FIELDS {
      if ReadsTo(w, s, at, domains, options, r) {
        SameFields(s, r);
      }
    } else {
      var f := FieldAt(at);
      assert forall g: Field :: Index(g) == at ==> g == f;
      assert forall g: Field :: Index(g) >= at <==> Index(g) >= at + 1 || g == f;
      if DomainOf(f) in domains {
        var v := ReadField(w, s.head, f, options);
        HeadIsSettled(w, s, at, domains, options, r);
        if v.Ok? {
          WithFieldSets(s, v.value);
          ReadFromMeaning(w, WithField(s, v.value), at + 1, domains, options, r);
        }
      } else {
        ReadFromMeaning(w, s, at + 1, domains, options, r);
      }
    }
  }

  /** When a field that asks about the head is read, the head no longer changes. */
  lemma HeadIsSettled(w: World, s: RepositorySnapshot, at: nat, domains: set<RefreshDomain>,
                      options: SnapshotOptions, r: RepositorySnapshot)
    requires at < FIELDS && DomainOf(FieldAt(at)) in domains
    ensures ReadsTo(w, s, at, domains, options, r) ==>
              ReadField(w, s.head, FieldAt(at), options) == Ok(FieldOf(r, FieldAt(at)))
    ensures ReadField(w, s.head, FieldAt(at), options).Ok?
            && ReadsTo(w, WithField(s, ReadField(w, s.head, FieldAt(at), options).value), at + 1, domains, options, r) ==>
              ReadsTo(w, s, at, domains, options, r)
    ensures ReadsTo(w, s, at, domains, options, r) ==>
              ReadsTo(w, WithField(s, ReadField(w, s.head, FieldAt(at), options).value), at + 1, domains, options, r)
  {
    var f := FieldAt(at);
    assert forall g: Field :: Index(g) == at ==> g == f;
    if ReadsTo(w, s, at, domains, options, r) {
      if AsksAboutHead(f) {
        assert FieldOf(r, HeadField) == FieldOf(s, HeadField);
      }
      assert ReadField(w, s.head, f, options) == Ok(FieldOf(r, f));
    }
    var v := ReadField(w, s.head, f, options);
    if v.Ok? {
      var next := WithField(s, v.value);
      WithFieldSets(s, v.value);
      if ReadsTo(w, next, at + 1, domains, options, r) {
        assert FieldOf(r, f) == v.value;
        if AsksAboutHead(f) {
          assert FieldOf(r, HeadField) == FieldOf(next, HeadField) == FieldOf(s, HeadField);
        }
        assert ReadField(w, r.head, f, options) == Ok(FieldOf(r, f));
      }
    }
  }

  // ---------------------------------------------------------------- fresh fields

  const NO_HEAD := HeadState(Missing, None, None, None)

  /** What a full read would put into `f` now, once the repository has been opened. */
  function FreshReading(w: World, f: Field, options: SnapshotOptions): Result<FieldValue, SnapshotError> {
    if w.head.Ok? then ReadField(w, w.head.value, f, options)
    else if AsksAboutHead(f) then Err(w.head.error)
    else ReadField(w, NO_HEAD, f, options)
  }

  ghost predicate Fresh(w: World, s: RepositorySnapshot, f: Field, options: SnapshotOptions) {
    FreshReading(w, f, options) == Ok(FieldOf(s, f))
  }

  /** A full read yields `s` exactly when every field of `s` is what its reader answers. */
  lemma FullReadIffFresh(w: World, s: RepositorySnapshot, options: SnapshotOptions)
    ensures SnapshotRepository(w, options) == Ok(s) <==> w.discover.None? && forall f: Field :: Fresh(w, s, f, options)
  {
    if forall f: Field :: Fresh(w, s, f, options) {
      assert Fresh(w, s, IdentityField, options) && Fresh(w, s, HeadField, options) && Fresh(w, s, HeadCommitField, options);
      assert Fresh(w, s, UpstreamField, options) && Fresh(w, s, PathsField, options) && Fresh(w, s, OperationField, options);
      assert Fresh(w, s, RemotesField, options) && Fresh(w, s, BranchesField, options) && Fresh(w, s, TagsField, options);
      assert Fresh(w, s, StashesField, options) && Fresh(w, s, WorktreesField, options) && Fresh(w, s, SubmodulesField, options);
    }
  }

  lemma EveryDomain(f: Field)
    ensures DomainOf(f) in ALL_DOMAINS && Index(f) >= 0
  {
  }

  lemma ReadsAllIffFresh(w: World, s: RepositorySnapshot, options: SnapshotOptions, r: RepositorySnapshot)
    ensures ReadsTo(w, s, 0, ALL_DOMAINS, options, r) <==> forall f: Field :: Fresh(w, r, f, options)
  {
    EveryDomain(HeadField);
    if w.head == Ok(r.head) {
      forall f: Field ensures ReadField(w, r.head, f, options) == Ok(FieldOf(r, f)) <==> Fresh(w, r, f, options) {}
      forall f: Field ensures Index(f) >= 0 && DomainOf(f) in ALL_DOMAINS { EveryDomain(f); }
    } else {
      assert !Fresh(w, r, HeadField, options);
      assert Index(HeadField) >= 0;
      assert ReadField(w, r.head, HeadField, options) != Ok(FieldOf(r, HeadField));
    }
  }

  /** Reading every domain into any snapshot is a full read. */
  lemma FullReadIsReadFrom(w: World, s: RepositorySnapshot, options: SnapshotOptions, r: RepositorySnapshot)
    requires w.discover.None?
    ensures ReadFrom(w, s, 0, ALL_DOMAINS, options) == Ok(r) <==> SnapshotRepository(w, options) == Ok(r)
  {
    ReadFromMeaning(w, s, 0, ALL_DOMAINS, options, r);
    FullReadIffFresh(w, r, options);
    ReadsAllIffFresh(w, s, options, r);
  }

  /** A partial refresh equals a full read exactly when every field outside the refreshed
      domains was still right. No closure of the domain set is needed: if the head is kept it
      is right, and `upstream` is then computed from the right head. */
  lemma PartialRefreshExact(w: World, previous: RepositorySnapshot, domains: set<RefreshDomain>, options: SnapshotOptions)
    requires SnapshotRepository(w, options).Ok?
    ensures ReadFrom(w, previous, 0, domains, options) == SnapshotRepository(w, options) <==>
              forall f: Field :: DomainOf(f) !in domains ==> Fresh(w, previous, f, options)
  {
    var full := SnapshotRepository(w, options).value;
    ReadFromMeaning(w, previous, 0, domains, options, full);
    FullReadIffFresh(w, full, options);
    assert Fresh(w, full, HeadField, options);
    forall f: Field ensures Fresh(w, previous, f, options) <==> FieldOf(full, f) == FieldOf(previous, f) {
      assert Fresh(w, full, f, options);
    }
    forall f: Field ensures ReadField(w, full.head, f, options) == Ok(FieldOf(full, f)) {
      assert Fresh(w, full, f, options);
    }
  }

  /** Starting from what a full read saw in `before`, refreshing the domains whose readings
      differ now is a full read now. */
  lemma PartialRefreshRefinesFull(before: World, now: World, previous: RepositorySnapshot,
                                  domains: set<RefreshDomain>, options: SnapshotOptions)
    requires SnapshotRepository(before, options) == Ok(previous)
    requires SnapshotRepository(now, options).Ok?
    requires forall f: Field :: FreshReading(before, f, options) != FreshReading(now, f, options) ==> DomainOf(f) in domains
    ensures Refresh(now, Some(previous), Domains(domains), options)
              == Ok(SnapshotRefresh(SnapshotRepository(now, options).value, Domains(domains)))
  {
    FullReadIffFresh(before, previous, options);
    forall f: Field | DomainOf(f) !in domains ensures Fresh(now, previous, f, options) {
      assert Fresh(before, previous, f, options);
    }
    PartialRefreshExact(now, previous, domains, options);
  }

  // ---------------------------------------------------------------- when a partial read fails

  /** What a partial read of a readable repository leaves, given the upstream it finds. */
  ghost function PartlyRead(full: RepositorySnapshot, s: RepositorySnapshot, domains: set<RefreshDomain>,
                            upstream: Option<UpstreamState>): RepositorySnapshot
  {
    RepositorySnapshot(
      if Identity in domains then full.identity else s.identity,
      if Head in domains then full.head else s.head,
      if Head in domains then full.headCommit else s.headCommit,
      if Upstream in domains then upstream else s.upstream,
      if Paths in domains then full.paths else s.paths,
      if Operation in domains then full.operation else s.operation,
      if Remotes in domains then full.remotes else s.remotes,
      if Branches in domains then full.branches else s.branches,
      if Tags in domains then full.tags else s.tags,
      if Stashes in domains then full.stashes else s.stashes,
      if Worktrees in domains then full.worktrees else s.worktrees,
      if Submodules in domains then full.submodules else s.submodules)
  }

  lemma PartlyReadField(w: World, s: RepositorySnapshot, full: RepositorySnapshot, domains: set<RefreshDomain>,
                        upstream: Option<UpstreamState>, options: SnapshotOptions, f: Field)
    requires w.head == Ok(full.head) && Fresh(w, full, f, options)
    requires Upstream in domains ==> w.upstreamOf(if Head in domains then full.head else s.head) == Ok(upstream)
    ensures var r := PartlyRead(full, s, domains, upstream);
      if DomainOf(f) in domains then ReadField(w, r.head, f, options) == Ok(FieldOf(r, f)) else FieldOf(r, f) == FieldOf(s, f)
  {
  }

  lemma PartlyReadIsRead(w: World, s: RepositorySnapshot, full: RepositorySnapshot, domains: set<RefreshDomain>,
                         upstream: Option<UpstreamState>, options: SnapshotOptions)
    requires SnapshotRepository(w, options) == Ok(full)
    requires Upstream in domains ==> w.upstreamOf(if Head in domains then full.head else s.head) == Ok(upstream)
    ensures ReadFrom(w, s, 0, domains, options) == Ok(PartlyRead(full, s, domains, upstream))
  {
    var r := PartlyRead(full, s, domains, upstream);
    FullReadIffFresh(w, full, options);
    assert Fresh(w, full, HeadField, options);
    forall f: Field
      ensures if DomainOf(f) in domains then ReadField(w, r.head, f, options) == Ok(FieldOf(r, f)) else FieldOf(r, f) == FieldOf(s, f)
    {
      assert Fresh(w, full, f, options);
      PartlyReadField(w, s, full, domains, upstream, options, f);
    }
    ReadFromMeaning(w, s, 0, domains, options, r);
  }

  lemma KeptHeadIsAskedAbout(w: World, s: RepositorySnapshot, domains: set<RefreshDomain>, options: SnapshotOptions)
    requires Upstream in domains && Head !in domains && ReadFrom(w, s, 0, domains, options).Ok?
    ensures w.upstreamOf(s.head).Ok?
  {
    var r := ReadFrom(w, s, 0, domains, options).value;
    ReadFromMeaning(w, s, 0, domains, options, r);
    assert FieldOf(r, HeadField) == FieldOf(s, HeadField);
    assert ReadField(w, r.head, UpstreamField, options) == Ok(FieldOf(r, UpstreamField));
  }

  /** A partial read of a repository that can be read in full fails exactly when it asks for
      the upstream of the head it keeps, and that upstream cannot be read. */
  lemma PartialReadFails(w: World, s: RepositorySnapshot, domains: set<RefreshDomain>, options: SnapshotOptions)
    requires SnapshotRepository(w, options).Ok?
    ensures ReadFrom(w, s, 0, domains, options).Err? <==>
              Upstream in domains && Head !in domains && w.upstreamOf(s.head).Err?
    ensures ReadFrom(w, s, 0, domains, options).Ok? ==>
              ReadFrom(w, s, 0, domains, options).value.head == if Head in domains then w.head.value else s.head
  {
    var full := SnapshotRepository(w, options).value;
    var upstream := w.upstreamOf(if Head in domains then full.head else s.head);
    if !(Upstream in domains && upstream.Err?) {
      PartlyReadIsRead(w, s, full, domains, if upstream.Ok? then upstream.value else None, options);
    } else if ReadFrom(w, s, 0, domains, options).Ok? {
      KeptHeadIsAskedAbout(w, s, domains, options);
    }
  }

  /** A plan that rereads the upstream without the head it belongs to. */
  predicate KeepsHeadForUpstream(plan: RefreshPlan) {
    plan.Covers(Upstream) && !plan.Covers(Head)
  }

  lemma RefreshFails(w: World, s: RepositorySnapshot, plan: RefreshPlan, options: SnapshotOptions)
    requires SnapshotRepository(w, options).Ok?
    ensures Refresh(w, Some(s), plan, options).Err? <==> KeepsHeadForUpstream(plan) && w.upstreamOf(s.head).Err?
    ensures Refresh(w, Some(s), plan, options).Ok? ==>
              Refresh(w, Some(s), plan, options).value.snapshot.head == if plan.Covers(Head) then w.head.value else s.head
  {
    if plan.Domains? { PartialReadFails(w, s, plan.domains, options); }
  }

  // ---------------------------------------------------------------- batching

  function PlanDomains(plan: RefreshPlan): set<RefreshDomain> {
    match plan
    case NoRefresh => {}
    case Full => ALL_DOMAINS
    case Domains(domains) => domains
  }

  lemma CombineDomains(a: RefreshPlan, b: RefreshPlan)
    ensures PlanDomains(a.Combine(b)) == PlanDomains(a) + PlanDomains(b)
  {
    forall d: RefreshDomain ensures d in ALL_DOMAINS {
      match d { case Identity => case Head => case Upstream => case Paths => case Operation => case Remotes =>
                case Branches => case Tags => case Stashes => case Worktrees => case Submodules => }
    }
  }

  lemma ReadNothing(w: World, s: RepositorySnapshot, options: SnapshotOptions)
    ensures ReadFrom(w, s, 0, {}, options) == Ok(s)
  {
    ReadFromMeaning(w, s, 0, {}, options, s);
  }

  /** On a world that holds still, a refresh reads the plan's domains into the snapshot. */
  lemma RefreshReads(w: World, s: RepositorySnapshot, plan: RefreshPlan, options: SnapshotOptions, r: RepositorySnapshot)
    ensures Refresh(w, Some(s), plan, options).Ok? && Refresh(w, Some(s), plan, options).value.snapshot == r <==>
              (plan.ShouldRefresh() ==> w.discover.None?) && ReadFrom(w, s, 0, PlanDomains(plan), options) == Ok(r)
  {
    if plan.Full? && w.discover.None? {
      FullReadIsReadFrom(w, s, options, r);
    } else if plan.NoRefresh? {
      ReadNothing(w, s, options);
    }
  }

  /** Refreshing with each plan in turn. */
  function RunPlans(w: World, s: RepositorySnapshot, plans: seq<RefreshPlan>, options: SnapshotOptions)
    : Result<RepositorySnapshot, SnapshotError>
    decreases |plans|
  {
    if plans == [] then Ok(s)
    else
      var refresh :- Refresh(w, Some(s), plans[0], options);
      RunPlans(w, refresh.snapshot, plans[1..], options)
  }

  /** The plan that rereads the head rereads `upstream` too. */
  predicate HeadClosed(plan: RefreshPlan) {
    plan.Covers(Head) ==> plan.Covers(Upstream)
  }

  /** Two reads in a row are one read of both domain sets unless the second is the first to
      read the head and `upstream` was read only before. */
  lemma TwoReadsMerge(w: World, s: RepositorySnapshot, m: RepositorySnapshot, r: RepositorySnapshot,
                      first: set<RefreshDomain>, second: set<RefreshDomain>, options: SnapshotOptions)
    requires ReadFrom(w, s, 0, first, options) == Ok(m)
    requires ReadFrom(w, m, 0, second, options) == Ok(r)
    requires !(Head in second - first && Upstream in first - second)
    ensures ReadFrom(w, s, 0, first + second, options) == Ok(r)
  {
    ReadFromMeaning(w, s, 0, first, options, m);
    ReadFromMeaning(w, m, 0, second, options, r);
    ReadFromMeaning(w, s, 0, first + second, options, r);
    assert Head in second ==> ReadField(w, r.head, HeadField, options) == Ok(FieldOf(r, HeadField));
    assert Head in first ==> ReadField(w, m.head, HeadField, options) == Ok(FieldOf(m, HeadField));
    assert Head !in second ==> FieldOf(r, HeadField) == FieldOf(m, HeadField);
    forall f: Field | DomainOf(f) in first && DomainOf(f) !in second
      ensures ReadField(w, r.head, f, options) == Ok(FieldOf(r, f))
    {
      assert ReadField(w, m.head, f, options) == Ok(FieldOf(m, f));
      assert FieldOf(r, f) == FieldOf(m, f);
      if AsksAboutHead(f) {
        assert r.head == m.head;
      }
    }
  }

  /** Batching is invisible on a quiet repository: when refreshing with the plans one at a
      time succeeds, one refresh with their combination succeeds with the same snapshot. */
  lemma {:induction false} BatchingInvisible(w: World, s: RepositorySnapshot, plans: seq<RefreshPlan>, options: SnapshotOptions)
    requires forall p :: p in plans ==> HeadClosed(p)
    ensures var refresh := Refresh(w, Some(s), CombineAll(NoRefresh, plans), options);
      RunPlans(w, s, plans, options).Ok? ==> refresh.Ok? && Ok(refresh.value.snapshot) == RunPlans(w, s, plans, options)
    decreases |plans|
  {
    if plans != [] && RunPlans(w, s, plans, options).Ok? {
      var r := RunPlans(w, s, plans, options).value;
      var m := Refresh(w, Some(s), plans[0], options).value.snapshot;
      var rest := CombineAll(NoRefresh, plans[1..]);
      BatchingInvisible(w, m, plans[1..], options);
      CombineAllAssociates(plans[0], plans[1..]);
      assert CombineAll(NoRefresh, plans) == plans[0].Combine(rest);
      RefreshReads(w, s, plans[0], options, m);
      RefreshReads(w, m, rest, options, r);
      CombineDomains(plans[0], rest);
      CombineAllHeadClosed(NoRefresh, plans[1..]);
      assert Head in PlanDomains(rest) ==> Upstream in PlanDomains(rest);
      TwoReadsMerge(w, s, m, r, PlanDomains(plans[0]), PlanDomains(rest), options);
      RefreshReads(w, s, plans[0].Combine(rest), options, r);
    }
  }

  lemma {:induction false} CombineAllAssociates(first: RefreshPlan, plans: seq<RefreshPlan>)
    ensures CombineAll(first, plans) == first.Combine(CombineAll(NoRefresh, plans))
    decreases |plans|
  {
    if plans != [] {
      CombineAllAssociates(first.Combine(plans[0]), plans[1..]);
      CombineAllAssociates(NoRefresh.Combine(plans[0]), plans[1..]);
      var rest := CombineAll(NoRefresh, plans[1..]);
      if first.Domains? && plans[0].Domains? && rest.Domains? {
        assert first.domains + plans[0].domains + rest.domains == first.domains + (plans[0].domains + rest.domains);
      }
    }
  }

  lemma {:induction false} CombineAllHeadClosed(initial: RefreshPlan, plans: seq<RefreshPlan>)
    requires HeadClosed(initial) && forall p :: p in plans ==> HeadClosed(p)
    ensures HeadClosed(CombineAll(initial, plans))
    decreases |plans|
  {
    if plans != [] {
      assert HeadClosed(plans[0]) by { assert plans[0] in plans; }
      CombineAllHeadClosed(initial.Combine(plans[0]), plans[1..]);
    }
  }

  /** Some plan asks for the upstream before any plan asks for the head. */
  predicate AsksForStaleUpstream(plans: seq<RefreshPlan>) {
    exists i :: 0 <= i < |plans| && plans[i].Covers(Upstream) && forall j :: 0 <= j <= i ==> !plans[j].Covers(Head)
  }

  lemma AsksForStaleUpstreamCons(plans: seq<RefreshPlan>)
    requires plans != []
    ensures AsksForStaleUpstream(plans) <==>
              !plans[0].Covers(Head) && (plans[0].Covers(Upstream) || AsksForStaleUpstream(plans[1..]))
  {
    if AsksForStaleUpstream(plans) {
      var i :| 0 <= i < |plans| && plans[i].Covers(Upstream) && forall j :: 0 <= j <= i ==> !plans[j].Covers(Head);
      if i > 0 {
        assert plans[1..][i - 1].Covers(Upstream);
        assert forall j :: 0 <= j <= i - 1 ==> plans[1..][j] == plans[j + 1];
      }
    }
    if !plans[0].Covers(Head) && AsksForStaleUpstream(plans[1..]) {
      var i :| 0 <= i < |plans[1..]| && plans[1..][i].Covers(Upstream) && forall j :: 0 <= j <= i ==> !plans[1..][j].Covers(Head);
      assert plans[i + 1].Covers(Upstream);
      assert forall j :: 0 < j <= i + 1 ==> plans[j] == plans[1..][j - 1];
    }
  }

  /** One at a time fails exactly when a plan asks for the upstream of the head that the
      snapshot had at first and that upstream cannot be read. */
  lemma {:induction false} RunPlansFails(w: World, s: RepositorySnapshot, plans: seq<RefreshPlan>, options: SnapshotOptions)
    requires SnapshotRepository(w, options).Ok?
    ensures RunPlans(w, s, plans, options).Err? <==> AsksForStaleUpstream(plans) && w.upstreamOf(s.head).Err?
    decreases |plans|
  {
    if plans != [] {
      RefreshFails(w, s, plans[0], options);
      AsksForStaleUpstreamCons(plans);
      var refresh := Refresh(w, Some(s), plans[0], options);
      if refresh.Ok? {
        RunPlansFails(w, refresh.value.snapshot, plans[1..], options);
      }
    }
  }

  /** Refreshing once instead of one at a time saves the server exactly when that happens and
      some plan asks for the head. */
  lemma BatchingRescuesExactly(w: World, s: RepositorySnapshot, plans: seq<RefreshPlan>, options: SnapshotOptions)
    requires SnapshotRepository(w, options).Ok?
    ensures RunPlans(w, s, plans, options).Err? && Refresh(w, Some(s), CombineAll(NoRefresh, plans), options).Ok? <==>
              AsksForStaleUpstream(plans) && w.upstreamOf(s.head).Err? && exists p :: p in plans && p.Covers(Head)
  {
    RunPlansFails(w, s, plans, options);
    RefreshFails(w, s, CombineAll(NoRefresh, plans), options);
    CombineAllCovers(NoRefresh, plans, Head);
    CombineAllCovers(NoRefresh, plans, Upstream);
    if AsksForStaleUpstream(plans) {
      var i :| 0 <= i < |plans| && plans[i].Covers(Upstream) && forall j :: 0 <= j <= i ==> !plans[j].Covers(Head);
      assert plans[i] in plans;
    }
  }

  function Flatten(groups: seq<seq<RefreshPlan>>): seq<RefreshPlan> {
    if groups == [] then [] else groups[0] + Flatten(groups[1..])
  }

  function CombineGroups(groups: seq<seq<RefreshPlan>>): (r: seq<RefreshPlan>)
    ensures |r| == |groups|
  {
    if groups == [] then [] else [CombineAll(NoRefresh, groups[0])] + CombineGroups(groups[1..])
  }

  lemma {:induction false} RunPlansConcat(w: World, s: RepositorySnapshot, a: seq<RefreshPlan>, b: seq<RefreshPlan>, options: SnapshotOptions)
    ensures RunPlans(w, s, a + b, options) ==
      var m := RunPlans(w, s, a, options); if m.Ok? then RunPlans(w, m.value, b, options) else m
    decreases |a|
  {
    if a == [] {
      assert a + b == b;
    } else {
      assert (a + b)[1..] == a[1..] + b;
      var refresh := Refresh(w, Some(s), a[0], options);
      if refresh.Ok? {
        RunPlansConcat(w, refresh.value.snapshot, a[1..], b, options);
      }
    }
  }

  /** However the plans are grouped into debounce turns, the snapshot is the same. */
  lemma {:induction false} GroupingInvisible(w: World, s: RepositorySnapshot, groups: seq<seq<RefreshPlan>>, options: SnapshotOptions)
    requires forall p :: p in Flatten(groups) ==> HeadClosed(p)
    ensures RunPlans(w, s, Flatten(groups), options).Ok? ==>
              RunPlans(w, s, CombineGroups(groups), options) == RunPlans(w, s, Flatten(groups), options)
    decreases |groups|
  {
    if groups != [] && RunPlans(w, s, Flatten(groups), options).Ok? {
      RunPlansConcat(w, s, groups[0], Flatten(groups[1..]), options);
      var m := RunPlans(w, s, groups[0], options).value;
      BatchingInvisible(w, s, groups[0], options);
      GroupingInvisible(w, m, groups[1..], options);
      assert CombineGroups(groups)[1..] == CombineGroups(groups[1..]);
    }
  }

  /** A repository that answers with the fields of `s`, but whose head has moved to `head`,
      and whose upstream is `upstream` exactly when asked about that head. */
  ghost function MovedHead(s: RepositorySnapshot, head: HeadState, upstream: UpstreamState): World {
    World(None, Ok(s.identity), Ok(head), (_: HeadState) => Ok(s.headCommit),
          (h: HeadState) => Ok(if h == head then Some(upstream) else s.upstream),
          (_: SnapshotOptions) => Ok(s.paths), s.operation, Ok(s.remotes), Ok(s.branches), Ok(s.tags), Ok(s.stashes),
          Ok(s.worktrees), Ok(s.submodules))
  }

  lemma MovedHeadReads(s: RepositorySnapshot, head: HeadState, upstream: UpstreamState, h: HeadState, f: Field, options: SnapshotOptions)
    requires f != HeadField && (f == UpstreamField ==> h != head)
    ensures ReadField(MovedHead(s, head, upstream), h, f, options) == Ok(FieldOf(s, f))
  {
  }

  lemma MovedHeadFirst(s: RepositorySnapshot, head: HeadState, upstream: UpstreamState, domains: set<RefreshDomain>, options: SnapshotOptions)
    requires Head !in domains && s.head != head
    ensures ReadFrom(MovedHead(s, head, upstream), s, 0, domains, options) == Ok(s)
  {
    forall f: Field | DomainOf(f) in domains { MovedHeadReads(s, head, upstream, s.head, f, options); }
    ReadFromMeaning(MovedHead(s, head, upstream), s, 0, domains, options, s);
  }

  lemma MovedHeadSecond(s: RepositorySnapshot, head: HeadState, upstream: UpstreamState, domains: set<RefreshDomain>, options: SnapshotOptions)
    requires Head in domains && Upstream !in domains
    ensures ReadFrom(MovedHead(s, head, upstream), s, 0, domains, options) == Ok(WithField(s, HeadValue(head)))
  {
    var w, r := MovedHead(s, head, upstream), WithField(s, HeadValue(head));
    WithFieldSets(s, HeadValue(head));
    assert FieldOf(r, HeadField) == HeadValue(head);
    forall f: Field | DomainOf(f) in domains ensures ReadField(w, r.head, f, options) == Ok(FieldOf(r, f)) {
      if f != HeadField { MovedHeadReads(s, head, upstream, r.head, f, options); }
    }
    ReadFromMeaning(w, s, 0, domains, options, r);
  }

  lemma LateHeadBreaksMerge(s: RepositorySnapshot, first: set<RefreshDomain>, second: set<RefreshDomain>, options: SnapshotOptions)
    returns (w: World, r: RepositorySnapshot)
    requires Head in second - first && Upstream in first - second
    ensures ReadFrom(w, s, 0, first, options) == Ok(s)
    ensures ReadFrom(w, s, 0, second, options) == Ok(r)
    ensures ReadFrom(w, s, 0, first + second, options) != Ok(r)
  {
    var head := s.head.(oid := if s.head.oid == None then Some("") else None);
    var upstream := UpstreamState("", None, if s.upstream.Some? then s.upstream.value.ahead + 1 else 0, 0);
    w := MovedHead(s, head, upstream);
    r := WithField(s, HeadValue(head));
    MovedHeadFirst(s, head, upstream, first, options);
    MovedHeadSecond(s, head, upstream, second, options);
    assert FieldOf(r, HeadField) == HeadValue(head) && FieldOf(r, UpstreamField) == UpstreamValue(s.upstream);
    assert ReadField(w, r.head, UpstreamField, options) != Ok(FieldOf(r, UpstreamField));
    ReadFromMeaning(w, s, 0, first + second, options, r);
  }

  /** Two reads in a row are always one read of both domain sets exactly when not the second
      alone reads the head and the first alone reads `upstream`. */
  lemma MergeExact(first: set<RefreshDomain>, second: set<RefreshDomain>, options: SnapshotOptions)
    ensures
      (forall w, s, m, r ::
         ReadFrom(w, s, 0, first, options) == Ok(m) && ReadFrom(w, m, 0, second, options) == Ok(r) ==>
           ReadFrom(w, s, 0, first + second, options) == Ok(r))
      <==> !(Head in second - first && Upstream in first - second)
  {
    if Head in second - first && Upstream in first - second {
      var s := RepositorySnapshot(
        RepositoryIdentity("", None, [], [], None, false, false, false, false), NO_HEAD, None, None,
        PathState([], [], [], [], [], [], []), OperationState(Clean, None, [], None), [], [], [], [], [], []);
      var w, r := LateHeadBreaksMerge(s, first, second, options);
    } else {
      forall w, s, m, r | ReadFrom(w, s, 0, first, options) == Ok(m) && ReadFrom(w, m, 0, second, options) == Ok(r)
        ensures ReadFrom(w, s, 0, first + second, options) == Ok(r)
      {
        TwoReadsMerge(w, s, m, r, first, second, options);
      }
    }
  }
}
