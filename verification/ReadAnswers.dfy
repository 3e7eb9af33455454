/** What reading a repository puts into a snapshot (src/repository.rs), field by field. */
module ReadAnswers {
  import opened Wrappers
  import opened Model
  import opened Repository

  /** A full read succeeds with `s` iff the repository opens and each reader answers the field of
      `s`, the commit and the upstream asked about the head of `s`, and the paths with the options. */
  lemma FullReadAnswers(w: World, options: SnapshotOptions, s: RepositorySnapshot)
    ensures SnapshotRepository(w, options) == Ok(s) <==>
      && w.discover.None?
      && w.identity == Ok(s.identity) && w.head == Ok(s.head) && w.commitOf(s.head) == Ok(s.headCommit)
      && w.upstreamOf(s.head) == Ok(s.upstream) && w.pathsOf(options) == Ok(s.paths) && w.operation == s.operation
      && w.remotes == Ok(s.remotes) && w.branches == Ok(s.branches) && w.tags == Ok(s.tags) && w.stashes == Ok(s.stashes)
      && w.worktrees == Ok(s.worktrees) && w.submodules == Ok(s.submodules)
  {
  }

  /** A field after a partial read: if its domain is read, what its reader answers, the commit and
      the upstream for the head that the result has; otherwise what there was. */
  ghost predicate FieldAnswers(w: World, s: RepositorySnapshot, domains: set<RefreshDomain>, options: SnapshotOptions,
                               r: RepositorySnapshot, f: Field)
  {
    match f
    case IdentityField => if Identity in domains then w.identity == Ok(r.identity) else r.identity == s.identity
    case HeadField => if Head in domains then w.head == Ok(r.head) else r.head == s.head
    case HeadCommitField => if Head in domains then w.commitOf(r.head) == Ok(r.headCommit) else r.headCommit == s.headCommit
    case UpstreamField => if Upstream in domains then w.upstreamOf(r.head) == Ok(r.upstream) else r.upstream == s.upstream
    case PathsField => if Paths in domains then w.pathsOf(options) == Ok(r.paths) else r.paths == s.paths
    case OperationField => r.operation == (if Operation in domains then w.operation else s.operation)
    case RemotesField => if Remotes in domains then w.remotes == Ok(r.remotes) else r.remotes == s.remotes
    case BranchesField => if Branches in domains then w.branches == Ok(r.branches) else r.branches == s.branches
    case TagsField => if Tags in domains then w.tags == Ok(r.tags) else r.tags == s.tags
    case StashesField => if Stashes in domains then w.stashes == Ok(r.stashes) else r.stashes == s.stashes
    case WorktreesField => if Worktrees in domains then w.worktrees == Ok(r.worktrees) else r.worktrees == s.worktrees
    case SubmodulesField => if Submodules in domains then w.submodules == Ok(r.submodules) else r.submodules == s.submodules
  }

  ghost predicate PartlyAnswers(w: World, s: RepositorySnapshot, domains: set<RefreshDomain>, options: SnapshotOptions,
                                r: RepositorySnapshot)
  {
    forall f: Field :: FieldAnswers(w, s, domains, options, r, f)
  }

  lemma FieldIsRead(w: World, s: RepositorySnapshot, domains: set<RefreshDomain>, options: SnapshotOptions,
                    r: RepositorySnapshot, f: Field)
    ensures FieldAnswers(w, s, domains, options, r, f) <==>
      if Index(f) >= 0 && DomainOf(f) in domains then ReadField(w, r.head, f, options) == Ok(FieldOf(r, f))
      else FieldOf(r, f) == FieldOf(s, f)
  {
  }

  /** A partial read succeeds with `r` exactly when every field of `r` is that. */
  lemma PartialReadAnswers(w: World, s: RepositorySnapshot, domains: set<RefreshDomain>, options: SnapshotOptions, r: RepositorySnapshot)
    ensures ReadFrom(w, s, 0, domains, options) == Ok(r) <==> PartlyAnswers(w, s, domains, options, r)
  {
    ReadFromMeaning(w, s, 0, domains, options, r);
    forall f: Field
      ensures FieldAnswers(w, s, domains, options, r, f) <==>
        if Index(f) >= 0 && DomainOf(f) in domains then ReadField(w, r.head, f, options) == Ok(FieldOf(r, f))
        else FieldOf(r, f) == FieldOf(s, f)
    {
      FieldIsRead(w, s, domains, options, r, f);
    }
  }

  /** A refresh reads in full without a snapshot or for a full plan, changes nothing for an empty
      one, and otherwise reads the planned domains into the snapshot; it reports what it did. */
  lemma RefreshAnswers(w: World, previous: RepositorySnapshot, domains: set<RefreshDomain>, options: SnapshotOptions, r: RepositorySnapshot)
    ensures forall plan: RefreshPlan ::
      Refresh(w, None, plan, options) == Ok(SnapshotRefresh(r, Full)) <==> SnapshotRepository(w, options) == Ok(r)
    ensures Refresh(w, Some(previous), Full, options) == Ok(SnapshotRefresh(r, Full)) <==> SnapshotRepository(w, options) == Ok(r)
    ensures Refresh(w, Some(previous), NoRefresh, options) == Ok(SnapshotRefresh(previous, NoRefresh))
    ensures Refresh(w, Some(previous), Domains(domains), options) == Ok(SnapshotRefresh(r, Domains(domains))) <==>
              w.discover.None? && PartlyAnswers(w, previous, domains, options, r)
  {
    PartialReadAnswers(w, previous, domains, options, r);
  }

  /** A repository that cannot be opened fails every read but the empty one, with its own error. */
  lemma UnopenedFails(w: World, previous: Option<RepositorySnapshot>, plan: RefreshPlan, options: SnapshotOptions)
    requires w.discover.Some? && (previous.None? || plan != NoRefresh)
    ensures Refresh(w, previous, plan, options) == Err(w.discover.value)
    ensures SnapshotRepository(w, options) == Err(w.discover.value)
  {
  }
}
