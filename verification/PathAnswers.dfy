/** What a path state publishes, read back against what libgit2 reported (src/repository/paths.rs). */
module PathAnswers {
  import opened Wrappers
  import opened Ordered
  import opened Model
  import opened Paths
  import opened PathScan

  // ---------------------------------------------------------------- entries

  /** The status fields are the reported bits, one by one. */
  ghost predicate TellsBits(status: PathEntryStatus, bits: set<StatusBit>) {
    && (status.indexNew <==> INDEX_NEW in bits)
    && (status.indexModified <==> INDEX_MODIFIED in bits)
    && (status.indexDeleted <==> INDEX_DELETED in bits)
    && (status.indexRenamed <==> INDEX_RENAMED in bits)
    && (status.indexTypechange <==> INDEX_TYPECHANGE in bits)
    && (status.workdirNew <==> WT_NEW in bits)
    && (status.workdirModified <==> WT_MODIFIED in bits)
    && (status.workdirDeleted <==> WT_DELETED in bits)
    && (status.workdirTypechange <==> WT_TYPECHANGE in bits)
    && (status.workdirRenamed <==> WT_RENAMED in bits)
    && (status.workdirUnreadable <==> WT_UNREADABLE in bits)
    && (status.ignored <==> IGNORED in bits)
    && (status.conflicted <==> CONFLICTED in bits)
  }

  /** The two flag fields are those of the last flagged index entry of the path; without one, both
      are down. */
  ghost predicate TellsFlags(status: PathEntryStatus, path: string, index: seq<IndexEntry>) {
    if exists i :: 0 <= i < |index| && Flags(index, i, path) then
      exists i :: 0 <= i < |index| && Flags(index, i, path) && (forall j :: i < j < |index| ==> !Flags(index, j, path))
        && status.assumeUnchanged == index[i].assumeUnchanged && status.skipWorktree == index[i].skipWorktree
    else !status.assumeUnchanged && !status.skipWorktree
  }

  ghost predicate Flags(index: seq<IndexEntry>, i: nat, path: string)
    requires i < |index|
  {
    index[i].path == path && (index[i].assumeUnchanged || index[i].skipWorktree)
  }

  /** The entry tells all that was reported of its path. */
  ghost predicate TellsEntry(e: PathEntry, s: StatusEntry, index: seq<IndexEntry>, diffs: map<string, PathDiffSummary>) {
    && s.path == Some(e.path)
    && TellsBits(e.status, s.bits) && TellsFlags(e.status, e.path, index)
    && e.stagedOldPath == (if s.headToIndex.Some? then s.headToIndex.value.oldPath else None)
    && e.stagedNewPath == (if s.headToIndex.Some? then s.headToIndex.value.newPath else None)
    && e.workdirOldPath == (if s.indexToWorkdir.Some? then s.indexToWorkdir.value.oldPath else None)
    && e.workdirNewPath == (if s.indexToWorkdir.Some? then s.indexToWorkdir.value.newPath else None)
    && e.diff == (if e.path in diffs then diffs[e.path] else PathDiffSummary(0, 0, 0))
  }

  /** The entry tells of index flags only. */
  ghost predicate TellsFlagsOnly(e: PathEntry, index: seq<IndexEntry>, diffs: map<string, PathDiffSummary>) {
    && TellsBits(e.status, {}) && TellsFlags(e.status, e.path, index)
    && (e.status.assumeUnchanged || e.status.skipWorktree)
    && e.stagedOldPath.None? && e.stagedNewPath.None? && e.workdirOldPath.None? && e.workdirNewPath.None?
    && e.diff == (if e.path in diffs then diffs[e.path] else PathDiffSummary(0, 0, 0))
  }

  /** `i` is where the last flagged index entry of the path stands, or -1. */
  ghost predicate IsLast(index: seq<IndexEntry>, path: string, i: int) {
    && -1 <= i < |index| && (i >= 0 ==> Flags(index, i, path))
    && forall j :: i < j < |index| ==> !Flags(index, j, path)
  }

  lemma {:induction false} LastFlagsAt(index: seq<IndexEntry>, path: string) returns (i: int)
    ensures IsLast(index, path, i)
    ensures LastFlags(index, path) == if i >= 0 then Some(index[i]) else None
  {
    if index == [] {
      i := -1;
    } else {
      var n := |index| - 1;
      if Flags(index, n, path) {
        i := n;
      } else {
        i := LastFlagsAt(index[..n], path);
        forall j | 0 <= j < n ensures Flags(index[..n], j, path) <==> Flags(index, j, path) {}
      }
    }
  }

  lemma LastFlagsMeaning(index: seq<IndexEntry>, path: string)
    ensures LastFlags(index, path).None? <==> forall i :: 0 <= i < |index| ==> !Flags(index, i, path)
    ensures LastFlags(index, path).Some? ==>
      exists i :: 0 <= i < |index| && Flags(index, i, path) && (forall j :: i < j < |index| ==> !Flags(index, j, path))
                  && index[i] == LastFlags(index, path).value
  {
    var i := LastFlagsAt(index, path);
  }

  lemma FlaggedTells(base: PathEntry, index: seq<IndexEntry>)
    requires !base.status.assumeUnchanged && !base.status.skipWorktree
    ensures TellsFlags(Flagged(base, LastFlags(index, base.path)).status, base.path, index)
  {
    LastFlagsMeaning(index, base.path);
  }

  lemma EntryTellsBits(s: StatusEntry, diffs: map<string, PathDiffSummary>)
    requires s.path.Some?
    ensures TellsBits(EntryOf(s, diffs).status, s.bits)
    ensures !EntryOf(s, diffs).status.assumeUnchanged && !EntryOf(s, diffs).status.skipWorktree
  {
  }

  lemma {:induction false} InStatusEntries(statuses: seq<StatusEntry>, diffs: map<string, PathDiffSummary>, e: PathEntry)
    ensures e in StatusEntries(statuses, diffs) <==> exists s :: s in statuses && s.path.Some? && e == EntryOf(s, diffs)
  {
    if statuses != [] {
      var init, last := statuses[..|statuses| - 1], statuses[|statuses| - 1];
      assert statuses == init + [last];
      InStatusEntries(init, diffs, e);
    }
  }

  lemma {:induction false} InStatusPaths(statuses: seq<StatusEntry>, path: string)
    ensures path in StatusPaths(statuses) <==> exists s :: s in statuses && s.path == Some(path)
  {
    if statuses != [] {
      var init, last := statuses[..|statuses| - 1], statuses[|statuses| - 1];
      assert statuses == init + [last];
      InStatusPaths(init, path);
    }
  }

  /** Only the two flag fields differ. */
  lemma FlaggedKeeps(base: PathEntry, flags: Option<IndexEntry>, bits: set<StatusBit>)
    ensures TellsBits(base.status, bits) ==> TellsBits(Flagged(base, flags).status, bits)
    ensures Flagged(base, flags) == base.(status := Flagged(base, flags).status)
  {
  }

  lemma StatusEntryTells(s: StatusEntry, index: seq<IndexEntry>, diffs: map<string, PathDiffSummary>)
    requires s.path.Some?
    ensures TellsEntry(Flagged(EntryOf(s, diffs), LastFlags(index, s.path.value)), s, index, diffs)
  {
    var base := EntryOf(s, diffs);
    EntryTellsBits(s, diffs);
    FlaggedTells(base, index);
    FlaggedKeeps(base, LastFlags(index, s.path.value), s.bits);
    assert base.path == s.path.value;
  }

  /** What is reported can be read back: when libgit2 reports every path once, each published
      entry tells the status of its path bit by bit, its flags, its old and new paths and its line
      counts; or, for a path without a status, its flags alone. */
  lemma EntriesTell(statuses: seq<StatusEntry>, index: seq<IndexEntry>, conflicts: seq<IndexConflict>,
                    diffs: map<string, PathDiffSummary>, e: PathEntry)
    requires NoDuplicates(StatusPaths(statuses))
    requires e in PathStateOf(false, statuses, index, conflicts, diffs).entries
    ensures if exists s :: s in statuses && s.path == Some(e.path)
            then exists s :: s in statuses && TellsEntry(e, s, index, diffs)
            else TellsFlagsOnly(e, index, diffs)
  {
    var entries := StatusEntries(statuses, diffs);
    PublishedEntries(statuses, index, conflicts, diffs);
    StatusEntriesPaths(statuses, diffs);
    InStatusPaths(statuses, e.path);
    assert IsPublished(e, entries, index, diffs);
    if e.path in PathsOf(entries) {
      var base :| base in entries && base.path == e.path && e == Flagged(base, LastFlags(index, e.path));
      InStatusEntries(statuses, diffs, base);
      var s :| s in statuses && s.path.Some? && base == EntryOf(s, diffs);
      StatusEntryTells(s, index, diffs);
    } else {
      LastFlagsMeaning(index, e.path);
    }
  }

  /** And every reported path and every flagged path has an entry. */
  lemma EveryPathIsPublished(statuses: seq<StatusEntry>, index: seq<IndexEntry>, conflicts: seq<IndexConflict>,
                             diffs: map<string, PathDiffSummary>, path: string)
    requires NoDuplicates(StatusPaths(statuses))
    ensures (exists e :: e in PathStateOf(false, statuses, index, conflicts, diffs).entries && e.path == path) <==>
              || (exists s :: s in statuses && s.path == Some(path))
              || (exists i :: 0 <= i < |index| && Flags(index, i, path))
  {
    var entries := StatusEntries(statuses, diffs);
    var published := PathStateOf(false, statuses, index, conflicts, diffs).entries;
    PublishedEntries(statuses, index, conflicts, diffs);
    StatusEntriesPaths(statuses, diffs);
    InStatusPaths(statuses, path);
    LastFlagsMeaning(index, path);
    if path in PathsOf(entries) {
      var base := MemberWithPath(entries, path);
      var e := Flagged(base, LastFlags(index, path));
      assert IsPublished(e, entries, index, diffs);
      assert e in published && e.path == path;
    } else if LastFlags(index, path).Some? {
      var e := FlagEntry(LastFlags(index, path).value, diffs);
      assert IsPublished(e, entries, index, diffs);
      assert e in published && e.path == path;
    }
    forall e | e in published && e.path == path ensures path in PathsOf(entries) || LastFlags(index, path).Some? {
      assert IsPublished(e, entries, index, diffs);
    }
  }

  // ---------------------------------------------------------------- lists

  /** Some status of the path has one of the bits. */
  ghost predicate Reports(statuses: seq<StatusEntry>, path: string, bits: set<StatusBit>) {
    exists s :: s in statuses && s.path == Some(path) && exists b :: b in s.bits && b in bits
  }

  lemma {:induction false} ListedReports(statuses: seq<StatusEntry>, kind: ListKind, path: string)
    ensures path in Listed(statuses, kind) <==> Reports(statuses, path, Mask(kind))
  {
    if statuses != [] {
      var init, last := statuses[..|statuses| - 1], statuses[|statuses| - 1];
      assert statuses == init + [last];
      ListedReports(init, kind, path);
      assert last.bits * Mask(kind) != {} <==> exists b :: b in last.bits && b in Mask(kind) by {
        if b :| b in last.bits && b in Mask(kind) { assert b in last.bits * Mask(kind); }
      }
      assert path in Listed(statuses, kind) <==> path in Elements(Listed(statuses, kind));
      assert path in Listed(init, kind) <==> path in Elements(Listed(init, kind));
    }
  }

  /** The five lists hold the paths reported with these bits. */
  lemma ListsTell(statuses: seq<StatusEntry>, index: seq<IndexEntry>, conflicts: seq<IndexConflict>,
                  diffs: map<string, PathDiffSummary>, path: string)
    ensures var state := PathStateOf(false, statuses, index, conflicts, diffs);
      && (path in state.staged <==>
            Reports(statuses, path, {INDEX_NEW, INDEX_MODIFIED, INDEX_DELETED, INDEX_RENAMED, INDEX_TYPECHANGE}))
      && (path in state.unstaged <==>
            Reports(statuses, path, {WT_MODIFIED, WT_DELETED, WT_TYPECHANGE, WT_RENAMED, WT_UNREADABLE}))
      && (path in state.untracked <==> Reports(statuses, path, {WT_NEW}))
      && (path in state.ignored <==> Reports(statuses, path, {IGNORED}))
      && (path in state.conflicted <==> Reports(statuses, path, {CONFLICTED}))
  {
    ListedReports(statuses, StagedList, path);
    ListedReports(statuses, UnstagedList, path);
    ListedReports(statuses, UntrackedList, path);
    ListedReports(statuses, IgnoredList, path);
    ListedReports(statuses, ConflictedList, path);
  }

  /** A bare repository has none of them. */
  lemma BareIsEmpty(statuses: seq<StatusEntry>, index: seq<IndexEntry>, conflicts: seq<IndexConflict>, diffs: map<string, PathDiffSummary>)
    ensures PathStateOf(true, statuses, index, conflicts, diffs) == PathState([], [], [], [], [], [], [])
  {
  }

  // ---------------------------------------------------------------- conflicts and line counts

  /** The summary tells the three sides, under the path of the first there is. */
  ghost predicate TellsConflict(c: ConflictSummary, conflict: IndexConflict) {
    && c.ancestor == conflict.ancestor && c.ours == conflict.ours && c.theirs == conflict.theirs
    && if c.ancestor.Some? then c.path == c.ancestor.value.path
       else if c.ours.Some? then c.path == c.ours.value.path
       else c.theirs.Some? && c.path == c.theirs.value.path
  }

  ghost predicate HasSide(conflict: IndexConflict) {
    conflict.ancestor.Some? || conflict.ours.Some? || conflict.theirs.Some?
  }

  /** The conflicts with a side, in order. */
  ghost function Sided(conflicts: seq<IndexConflict>): seq<IndexConflict> {
    if conflicts == [] then []
    else
      var n := |conflicts| - 1;
      Sided(conflicts[..n]) + if HasSide(conflicts[n]) then [conflicts[n]] else []
  }

  lemma {:induction false} SummariesTell(conflicts: seq<IndexConflict>)
    ensures |Summaries(conflicts)| == |Sided(conflicts)|
    ensures forall i :: 0 <= i < |Summaries(conflicts)| ==> TellsConflict(Summaries(conflicts)[i], Sided(conflicts)[i])
  {
    if conflicts != [] { SummariesTell(conflicts[..|conflicts| - 1]); }
  }

  /** The published conflicts are those, sorted by path. */
  lemma ConflictsTell(statuses: seq<StatusEntry>, index: seq<IndexEntry>, conflicts: seq<IndexConflict>,
                      diffs: map<string, PathDiffSummary>)
    ensures var published := PathStateOf(false, statuses, index, conflicts, diffs).conflicts;
      && multiset(published) == multiset(Summaries(conflicts))
      && forall i, j :: 0 <= i < j < |published| ==> !Less(published[j].path, published[i].path)
  {
    SortByKeySorted(Summaries(conflicts), ConflictKey);
    var published := PathStateOf(false, statuses, index, conflicts, diffs).conflicts;
    forall i, j | 0 <= i < j < |published| ensures !Less(published[j].path, published[i].path) {
      assert !Less(ConflictKey(published[j]), ConflictKey(published[i]));
    }
  }

  /** A diff line counts for its new path, or for its old one if it has no new one. */
  lemma LineCounts(lines: seq<DiffLine>, line: DiffLine, path: string, origin: LineOrigin)
    ensures Total([], path, origin) == 0
    ensures Total(lines + [line], path, origin) == Total(lines, path, origin) +
      if (line.newPath == Some(path) || (line.newPath.None? && line.oldPath == Some(path))) && line.origin == origin
      then line.numLines else 0
    ensures path in LinePaths([line]) <==> line.newPath == Some(path) || (line.newPath.None? && line.oldPath == Some(path))
  {
    assert (lines + [line])[..|lines|] == lines;
    assert line in [line];
  }

  // ---------------------------------------------------------------- order

  /** Paths are ordered like the strings of Rust: a proper prefix comes first, and otherwise the
      smaller character at the first difference decides. */
  lemma {:induction false} PathOrder(a: string, b: string)
    ensures Less(a, b) <==>
      (a <= b && a != b) || exists i :: 0 <= i < |a| && i < |b| && a[..i] == b[..i] && a[i] < b[i]
  {
    if a != [] && b != [] {
      if a[0] == b[0] {
        PathOrder(a[1..], b[1..]);
        PrefixCons(a, b);
        if i :| 0 <= i < |a[1..]| && i < |b[1..]| && a[1..][..i] == b[1..][..i] && a[1..][i] < b[1..][i] {
          DifferCons(a, b, i);
        }
        if i :| 0 <= i < |a| && i < |b| && a[..i] == b[..i] && a[i] < b[i] {
          DifferTail(a, b, i);
        }
      } else if a[0] < b[0] {
        assert a[..0] == b[..0];
      } else {
        forall i | 0 < i < |a| && i < |b| ensures a[..i] != b[..i] {
          StartDiffers(a, b, i);
        }
      }
    }
  }

  /** The elements with the given key, in order. */
  ghost function Keyed<T>(xs: seq<T>, key: T -> string, k: string): seq<T> {
    if xs == [] then []
    else Keyed(xs[..|xs| - 1], key, k) + if key(xs[|xs| - 1]) == k then [xs[|xs| - 1]] else []
  }

  lemma {:induction false} InsertKeeps<T>(xs: seq<T>, x: T, key: T -> string, k: string)
    ensures Keyed(InsertByKey(xs, x, key), key, k) == Keyed(xs, key, k) + if key(x) == k then [x] else []
  {
    if xs == [] || !Less(key(x), key(xs[|xs| - 1])) {
      assert (xs + [x])[..|xs|] == xs;
    } else {
      var init, last := xs[..|xs| - 1], xs[|xs| - 1];
      InsertKeeps(init, x, key, k);
      var inserted := InsertByKey(init, x, key);
      assert (inserted + [last])[..|inserted|] == inserted;
      LessIrreflexive(key(x));
    }
  }

  /** The sort is stable: what is published for one path keeps its order. */
  lemma {:induction false} SortIsStable<T>(xs: seq<T>, key: T -> string, k: string)
    ensures Keyed(SortByKey(xs, key), key, k) == Keyed(xs, key, k)
  {
    if xs != [] {
      SortIsStable(xs[..|xs| - 1], key, k);
      InsertKeeps(SortByKey(xs[..|xs| - 1], key), xs[|xs| - 1], key, k);
    }
  }

  lemma StartDiffers(a: string, b: string, i: nat)
    requires 0 < i < |a| && i < |b| && a[0] != b[0]
    ensures a[..i] != b[..i]
  {
    assert a[..i][0] == a[0] && b[..i][0] == b[0];
  }

  lemma PrefixCons(a: string, b: string)
    requires a != [] && b != [] && a[0] == b[0]
    ensures a <= b <==> a[1..] <= b[1..]
    ensures a == b <==> a[1..] == b[1..]
  {
    assert a == [a[0]] + a[1..] && b == [b[0]] + b[1..];
  }

  lemma DifferCons(a: string, b: string, i: nat)
    requires a != [] && b != [] && a[0] == b[0] && i < |a| - 1 && i < |b| - 1 && a[1..][..i] == b[1..][..i]
    ensures a[..i + 1] == b[..i + 1]
  {
    assert a[..i + 1] == [a[0]] + a[1..][..i] && b[..i + 1] == [b[0]] + b[1..][..i];
  }

  lemma DifferTail(a: string, b: string, i: nat)
    requires a != [] && b != [] && a[0] == b[0] && i < |a| && i < |b| && a[..i] == b[..i] && a[i] < b[i]
    ensures i > 0 && a[1..][..i - 1] == b[1..][..i - 1] && a[1..][i - 1] < b[1..][i - 1]
  {
    assert a[1..][..i - 1] == a[..i][1..] && b[1..][..i - 1] == b[..i][1..];
  }
}
