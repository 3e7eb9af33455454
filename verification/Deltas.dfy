/** Snapshot deltas and the patches that carry them (`snapshot_delta` in src/repository.rs,
    `SnapshotPatch::from_delta` in src/repository/model.rs, and the reference client's
    `apply_patch_to_snapshot` in src/protocol/tests/mod.rs). */
module Deltas {
  import opened Wrappers
  import opened Model
  import opened Paths
  import opened PathScan

  function SnapshotDeltaOf(previous: RepositorySnapshot, current: RepositorySnapshot): SnapshotDelta {
    SnapshotDelta(
      current.identity.id,
      previous.identity != current.identity,
      previous.head != current.head || previous.headCommit != current.headCommit,
      previous.upstream != current.upstream,
      previous.operation != current.operation,
      PathDeltaOf(previous.paths, current.paths),
      previous.remotes != current.remotes,
      previous.branches != current.branches,
      previous.tags != current.tags,
      previous.stashes != current.stashes,
      previous.worktrees != current.worktrees,
      previous.submodules != current.submodules)
  }

  function ApplyPatch(s: RepositorySnapshot, p: SnapshotPatch): RepositorySnapshot {
    RepositorySnapshot(
      p.identity.UnwrapOr(s.identity), p.head.UnwrapOr(s.head), p.headCommit.UnwrapOr(s.headCommit),
      p.upstream.UnwrapOr(s.upstream), p.paths.UnwrapOr(s.paths), p.operation.UnwrapOr(s.operation),
      p.remotes.UnwrapOr(s.remotes), p.branches.UnwrapOr(s.branches), p.tags.UnwrapOr(s.tags),
      p.stashes.UnwrapOr(s.stashes), p.worktrees.UnwrapOr(s.worktrees), p.submodules.UnwrapOr(s.submodules))
  }

  method Overwrite<T>(current: T, patched: Option<T>) returns (r: T)
    ensures r == patched.UnwrapOr(current)
  {
    r := current;
    if patched.Some? {
      r := patched.value;
    }
  }

  /** The reference client overwrites the fields of its snapshot one by one; each field is a
      variable here. */
  method ApplyPatchToSnapshot(before: RepositorySnapshot, patch: SnapshotPatch) returns (snapshot: RepositorySnapshot)
    ensures snapshot == ApplyPatch(before, patch)
  {
    var identity := Overwrite(before.identity, patch.identity);
    var head := Overwrite(before.head, patch.head);
    var headCommit := Overwrite(before.headCommit, patch.headCommit);
    var upstream := Overwrite(before.upstream, patch.upstream);
    var paths := Overwrite(before.paths, patch.paths);
    var operation := Overwrite(before.operation, patch.operation);
    var remotes := Overwrite(before.remotes, patch.remotes);
    var branches := Overwrite(before.branches, patch.branches);
    var tags := Overwrite(before.tags, patch.tags);
    var stashes := Overwrite(before.stashes, patch.stashes);
    var worktrees := Overwrite(before.worktrees, patch.worktrees);
    var submodules := Overwrite(before.submodules, patch.submodules);
    snapshot := RepositorySnapshot(identity, head, headCommit, upstream, paths, operation, remotes, branches, tags, stashes,
                                   worktrees, submodules);
  }

  /** The same snapshot up to the conflict stages, which no path delta compares. */
  ghost predicate SameButConflicts(a: RepositorySnapshot, b: RepositorySnapshot) {
    a.(paths := a.paths.(conflicts := b.paths.conflicts)) == b
  }

  lemma SameButConflictsIsEquivalence(a: RepositorySnapshot, b: RepositorySnapshot, c: RepositorySnapshot)
    ensures SameButConflicts(a, a)
    ensures SameButConflicts(a, b) ==> SameButConflicts(b, a)
    ensures SameButConflicts(a, b) && SameButConflicts(b, c) ==> SameButConflicts(a, c)
  {
  }

  /** A delta is silent exactly between snapshots that agree on everything but conflict stages. */
  lemma DeltaBlindness(a: RepositorySnapshot, b: RepositorySnapshot)
    requires WellFormed(a.paths) && WellFormed(b.paths)
    ensures !SnapshotDeltaOf(a, b).HasChanges() <==> SameButConflicts(a, b)
  {
    PathDeltaBlindness(a.paths, b.paths);
  }

  /** A client whose copy is only the same up to conflict stages may apply the patch as well. */
  lemma PatchOnEquivalent(copy: RepositorySnapshot, a: RepositorySnapshot, b: RepositorySnapshot)
    requires WellFormed(a.paths) && WellFormed(b.paths)
    requires SameButConflicts(copy, a)
    ensures SameButConflicts(ApplyPatch(copy, FromDelta(b, SnapshotDeltaOf(a, b))), b)
  {
    PathDeltaBlindness(a.paths, b.paths);
  }

  /** Applying the patch gives the new snapshot, conflict stages included, exactly when the
      path delta is not empty or the conflict stages did not change. */
  lemma PatchRoundTrip(a: RepositorySnapshot, b: RepositorySnapshot)
    requires WellFormed(a.paths) && WellFormed(b.paths)
    ensures ApplyPatch(a, FromDelta(b, SnapshotDeltaOf(a, b))) == b <==>
              PathDeltaOf(a.paths, b.paths).HasChanges() || a.paths.conflicts == b.paths.conflicts
  {
    var r := ApplyPatch(a, FromDelta(b, SnapshotDeltaOf(a, b)));
    assert SameButConflicts(r, b) by { PatchOnEquivalent(a, a, b); }
    assert r == b <==> r.paths.conflicts == b.paths.conflicts;
  }

  /** The snapshot with the path state that libgit2's answers give. */
  ghost function WithPaths(s: RepositorySnapshot, statuses: seq<StatusEntry>, index: seq<IndexEntry>,
                           conflicts: seq<IndexConflict>, diffs: map<string, PathDiffSummary>): RepositorySnapshot
  {
    s.(paths := PathStateOf(false, statuses, index, conflicts, diffs))
  }

  /** When only the conflict stages of the index change, nothing is sent, although the snapshot
      changes exactly when the published conflicts do. */
  lemma ConflictChangesAreSilent(s: RepositorySnapshot, statuses: seq<StatusEntry>, index: seq<IndexEntry>,
                                 before: seq<IndexConflict>, after: seq<IndexConflict>, diffs: map<string, PathDiffSummary>)
    requires NoDuplicates(StatusPaths(statuses))
    ensures var a, b := WithPaths(s, statuses, index, before, diffs), WithPaths(s, statuses, index, after, diffs);
      && !SnapshotDeltaOf(a, b).HasChanges()
      && ApplyPatch(a, FromDelta(b, SnapshotDeltaOf(a, b))) == a
      && (a == b <==> SortByKey(Summaries(before), ConflictKey) == SortByKey(Summaries(after), ConflictKey))
  {
    var a, b := WithPaths(s, statuses, index, before, diffs), WithPaths(s, statuses, index, after, diffs);
    WellFormedIffDistinct(false, statuses, index, before, diffs);
    WellFormedIffDistinct(false, statuses, index, after, diffs);
    DeltaBlindness(a, b);
  }

  /** So a file staged anew on one side of a conflict goes unnoticed. */
  lemma ConflictOnlyChangeIsSilent(s: RepositorySnapshot, statuses: seq<StatusEntry>, index: seq<IndexEntry>,
                                   diffs: map<string, PathDiffSummary>, ours: ConflictSide, oid: string)
    requires NoDuplicates(StatusPaths(statuses)) && oid != ours.oid
    ensures var a := WithPaths(s, statuses, index, [IndexConflict(None, Some(ours), None)], diffs);
      var b := WithPaths(s, statuses, index, [IndexConflict(None, Some(ours.(oid := oid)), None)], diffs);
      a != b && !SnapshotDeltaOf(a, b).HasChanges() && ApplyPatch(a, FromDelta(b, SnapshotDeltaOf(a, b))) == a
  {
    var before, after := IndexConflict(None, Some(ours), None), IndexConflict(None, Some(ours.(oid := oid)), None);
    ConflictChangesAreSilent(s, statuses, index, [before], [after], diffs);
    OneSummary(before);
    OneSummary(after);
  }

  lemma OneSummary(conflict: IndexConflict)
    requires FirstSide(conflict).Some?
    ensures SortByKey(Summaries([conflict]), ConflictKey)
              == [ConflictSummary(FirstSide(conflict).value.path, conflict.ancestor, conflict.ours, conflict.theirs)]
  {
    assert [conflict][..0] == [] && Summaries([]) == [];
    var summary := ConflictSummary(FirstSide(conflict).value.path, conflict.ancestor, conflict.ours, conflict.theirs);
    assert Summaries([conflict]) == [summary];
    assert [summary][..0] == [] && SortByKey([], ConflictKey) == [];
  }
}
