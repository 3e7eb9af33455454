/** Path state and path deltas (src/repository/paths.rs). libgit2's answers (statuses, index
    entries, conflicts, diff lines) are inputs. */
module Paths {
  import opened Wrappers
  import opened Ordered
  import opened Model

  // ---------------------------------------------------------------- deltas

  function PathSetDeltaOf(previous: seq<string>, current: seq<string>): PathSetDelta {
    var p := FromSeq(previous);
    var c := FromSeq(current);
    PathSetDelta(Difference(c, p), Difference(p, c))
  }

  function PathsOf(entries: seq<PathEntry>): (r: seq<string>)
    ensures |r| == |entries| && forall i :: 0 <= i < |r| ==> r[i] == entries[i].path
  {
    seq(|entries|, i requires 0 <= i < |entries| => entries[i].path)
  }

  /** `path_entry_map`: of two entries with one path, the later stays. */
  function EntryMap(entries: seq<PathEntry>): (m: map<string, PathEntry>)
    ensures m.Keys == Elements(PathsOf(entries))
  {
    if entries == [] then map[]
    else
      var init := entries[..|entries| - 1];
      var last := entries[|entries| - 1];
      assert PathsOf(entries) == PathsOf(init) + [last.path];
      EntryMap(init)[last.path := last]
  }

  function Lookup(m: map<string, PathEntry>, path: string): Option<PathEntry> {
    if path in m then Some(m[path]) else None
  }

  function ChangedKeys(keys: seq<string>, previous: map<string, PathEntry>, current: map<string, PathEntry>): (r: seq<string>)
    requires StrictlySorted(keys)
    ensures StrictlySorted(r)
    ensures forall p :: p in r <==> p in keys && Lookup(previous, p) != Lookup(current, p)
  {
    if keys == [] then []
    else
      var rest := ChangedKeys(keys[1..], previous, current);
      assert keys == [keys[0]] + keys[1..];
      if Lookup(previous, keys[0]) == Lookup(current, keys[0]) then rest
      else
        assert StrictlySorted([keys[0]] + rest) by { ConsSorted(keys[0], rest); }
        [keys[0]] + rest
  }

  function EntriesChanged(previous: seq<PathEntry>, current: seq<PathEntry>): seq<string> {
    ChangedKeys(FromSeq(FromSeq(PathsOf(previous)) + FromSeq(PathsOf(current))), EntryMap(previous), EntryMap(current))
  }

  function PathDeltaOf(previous: PathState, current: PathState): PathDelta {
    PathDelta(
      PathSetDeltaOf(previous.staged, current.staged),
      PathSetDeltaOf(previous.unstaged, current.unstaged),
      PathSetDeltaOf(previous.untracked, current.untracked),
      PathSetDeltaOf(previous.ignored, current.ignored),
      PathSetDeltaOf(previous.conflicted, current.conflicted),
      EntriesChanged(previous.entries, current.entries))
  }

  /** The previous list without `removed`, together with `added`, is the current list. */
  lemma PathSetDeltaRoundTrip(previous: seq<string>, current: seq<string>)
    requires StrictlySorted(previous) && StrictlySorted(current)
    ensures var d := PathSetDeltaOf(previous, current);
      && StrictlySorted(d.added) && StrictlySorted(d.removed)
      && FromSeq(Difference(previous, d.removed) + d.added) == current
      && (d.HasChanges() <==> previous != current)
  {
    var d := PathSetDeltaOf(previous, current);
    SortedUnique(FromSeq(previous), previous);
    SortedUnique(FromSeq(current), current);
    var kept := Difference(previous, d.removed);
    assert Elements(kept + d.added) == Elements(kept) + Elements(d.added);
    SortedUnique(FromSeq(kept + d.added), current);
    EmptyElements(d.added);
    EmptyElements(d.removed);
    if !d.HasChanges() {
      SortedUnique(previous, current);
    }
  }

  /** No smaller pair of sets turns the previous list into the current one. */
  lemma PathSetDeltaMinimal(previous: seq<string>, current: seq<string>, added: set<string>, removed: set<string>)
    requires Elements(previous) - removed + added == Elements(current)
    ensures Elements(PathSetDeltaOf(previous, current).added) <= added
    ensures Elements(PathSetDeltaOf(previous, current).removed) <= removed
  {
  }

  /** `entries_changed` is the sorted list of exactly the paths whose entries differ. */
  lemma EntriesChangedExact(previous: seq<PathEntry>, current: seq<PathEntry>)
    ensures StrictlySorted(EntriesChanged(previous, current))
    ensures forall p :: p in EntriesChanged(previous, current) <==>
      Lookup(EntryMap(previous), p) != Lookup(EntryMap(current), p)
  {
    var keys := FromSeq(FromSeq(PathsOf(previous)) + FromSeq(PathsOf(current)));
    forall p | p in EntryMap(previous) || p in EntryMap(current) ensures p in keys {
      assert p in EntryMap(previous) ==> p in Elements(FromSeq(PathsOf(previous)));
      assert p in EntryMap(current) ==> p in Elements(FromSeq(PathsOf(current)));
      assert p in Elements(FromSeq(PathsOf(previous)) + FromSeq(PathsOf(current)));
      assert p in Elements(keys);
    }
  }

  /** A change from a to c shows up on the way from a to b or on the way from b to c. */
  lemma EntriesChangedTriangle(a: seq<PathEntry>, b: seq<PathEntry>, c: seq<PathEntry>)
    ensures forall p :: p in EntriesChanged(a, c) ==> p in EntriesChanged(a, b) || p in EntriesChanged(b, c)
  {
    EntriesChangedExact(a, b);
    EntriesChangedExact(b, c);
    EntriesChangedExact(a, c);
  }

  ghost predicate WellFormed(s: PathState) {
    && (forall kind: ListKind :: StrictlySorted(ListIn(s, kind)))
    && StrictlySorted(PathsOf(s.entries))
  }

  lemma {:induction false} EntryMapLookup(entries: seq<PathEntry>, i: nat)
    requires StrictlySorted(PathsOf(entries)) && i < |entries|
    ensures entries[i].path in EntryMap(entries) && EntryMap(entries)[entries[i].path] == entries[i]
  {
    var last := |entries| - 1;
    if i < last {
      forall j, k | 0 <= j < k < last ensures Less(PathsOf(entries[..last])[j], PathsOf(entries[..last])[k]) {
        assert Less(PathsOf(entries)[j], PathsOf(entries)[k]);
      }
      EntryMapLookup(entries[..last], i);
      assert Less(PathsOf(entries)[i], PathsOf(entries)[last]);
      LessIrreflexive(entries[i].path);
    }
  }

  lemma EntryMapInjective(a: seq<PathEntry>, b: seq<PathEntry>)
    requires StrictlySorted(PathsOf(a)) && StrictlySorted(PathsOf(b))
    requires EntryMap(a) == EntryMap(b)
    ensures a == b
  {
    SortedUnique(PathsOf(a), PathsOf(b));
    assert |a| == |PathsOf(a)| == |b|;
    forall i | 0 <= i < |a| ensures a[i] == b[i] {
      EntryMapLookup(a, i);
      EntryMapLookup(b, i);
      assert PathsOf(a)[i] == PathsOf(b)[i];
    }
  }

  /** No entry changed exactly when the entry lists are the same. */
  lemma EntriesUnchanged(a: seq<PathEntry>, b: seq<PathEntry>)
    requires StrictlySorted(PathsOf(a)) && StrictlySorted(PathsOf(b))
    ensures EntriesChanged(a, b) == [] <==> a == b
  {
    EntriesChangedExact(a, b);
    if EntriesChanged(a, b) == [] {
      forall p ensures Lookup(EntryMap(a), p) == Lookup(EntryMap(b), p) {
        assert p !in EntriesChanged(a, b);
      }
      SameLookups(EntryMap(a), EntryMap(b));
      EntryMapInjective(a, b);
    } else {
      var p := EntriesChanged(a, b)[0];
      assert p in EntriesChanged(a, b);
      assert Lookup(EntryMap(a), p) != Lookup(EntryMap(b), p);
    }
  }

  lemma SameLookups(a: map<string, PathEntry>, b: map<string, PathEntry>)
    requires forall p :: Lookup(a, p) == Lookup(b, p)
    ensures a == b
  {
    forall p ensures p in a <==> p in b {
      assert Lookup(a, p) == Lookup(b, p);
    }
    forall p | p in a ensures a[p] == b[p] {
      assert Lookup(a, p) == Lookup(b, p);
    }
  }

  function DeltaIn(d: PathDelta, kind: ListKind): PathSetDelta {
    match kind
    case StagedList => d.staged
    case UnstagedList => d.unstaged
    case UntrackedList => d.untracked
    case IgnoredList => d.ignored
    case ConflictedList => d.conflicted
  }

  lemma ListDelta(a: PathState, b: PathState, kind: ListKind)
    requires WellFormed(a) && WellFormed(b)
    ensures DeltaIn(PathDeltaOf(a, b), kind).HasChanges() <==> ListIn(a, kind) != ListIn(b, kind)
  {
    PathSetDeltaRoundTrip(ListIn(a, kind), ListIn(b, kind));
  }

  lemma HasChangesByParts(d: PathDelta)
    ensures d.HasChanges() <==> d.entriesChanged != [] || exists kind: ListKind :: DeltaIn(d, kind).HasChanges()
  {
    assert DeltaIn(d, StagedList) == d.staged && DeltaIn(d, UnstagedList) == d.unstaged;
    assert DeltaIn(d, UntrackedList) == d.untracked && DeltaIn(d, IgnoredList) == d.ignored;
    assert DeltaIn(d, ConflictedList) == d.conflicted;
  }

  lemma SameByParts(a: PathState, b: PathState)
    ensures a.(conflicts := b.conflicts) == b <==>
              a.entries == b.entries && forall kind: ListKind :: ListIn(a, kind) == ListIn(b, kind)
  {
    if forall kind: ListKind :: ListIn(a, kind) == ListIn(b, kind) {
      assert ListIn(a, StagedList) == ListIn(b, StagedList) && ListIn(a, UnstagedList) == ListIn(b, UnstagedList);
      assert ListIn(a, UntrackedList) == ListIn(b, UntrackedList) && ListIn(a, IgnoredList) == ListIn(b, IgnoredList);
      assert ListIn(a, ConflictedList) == ListIn(b, ConflictedList);
    }
  }

  /** What a path delta does not see is the conflict stages, and nothing else. */
  lemma PathDeltaBlindness(a: PathState, b: PathState)
    requires WellFormed(a) && WellFormed(b)
    ensures !PathDeltaOf(a, b).HasChanges() <==> a.(conflicts := b.conflicts) == b
  {
    var d := PathDeltaOf(a, b);
    assert d.entriesChanged == [] <==> a.entries == b.entries by { EntriesUnchanged(a.entries, b.entries); }
    forall kind: ListKind
      ensures DeltaIn(d, kind).HasChanges() <==> ListIn(a, kind) != ListIn(b, kind)
    {
      ListDelta(a, b, kind);
    }
    HasChangesByParts(d);
    SameByParts(a, b);
  }

  // ---------------------------------------------------------------- what libgit2 reports

  datatype StatusBit =
    | INDEX_NEW | INDEX_MODIFIED | INDEX_DELETED | INDEX_RENAMED | INDEX_TYPECHANGE
    | WT_NEW | WT_MODIFIED | WT_DELETED | WT_TYPECHANGE | WT_RENAMED | WT_UNREADABLE
    | IGNORED | CONFLICTED

  datatype DeltaFiles = DeltaFiles(oldPath: Option<string>, newPath: Option<string>)

  datatype StatusEntry = StatusEntry(
    path: Option<string>, bits: set<StatusBit>,
    headToIndex: Option<DeltaFiles>, indexToWorkdir: Option<DeltaFiles>)

  datatype IndexEntry = IndexEntry(path: string, assumeUnchanged: bool, skipWorktree: bool)

  datatype IndexConflict = IndexConflict(
    ancestor: Option<ConflictSide>, ours: Option<ConflictSide>, theirs: Option<ConflictSide>)

  datatype LineOrigin = Addition | Deletion | OtherLine

  datatype DiffLine = DiffLine(newPath: Option<string>, oldPath: Option<string>, origin: LineOrigin, numLines: nat)

  datatype RawDiffSummary = RawDiffSummary(added: nat, removed: nat)

  // ---------------------------------------------------------------- the five lists

  datatype ListKind = StagedList | UnstagedList | UntrackedList | IgnoredList | ConflictedList

  function ListIn(s: PathState, kind: ListKind): seq<string> {
    match kind
    case StagedList => s.staged
    case UnstagedList => s.unstaged
    case UntrackedList => s.untracked
    case IgnoredList => s.ignored
    case ConflictedList => s.conflicted
  }

  /** The status bits that put a path on a list; `contains` of one bit is `intersects` with it. */
  function Mask(kind: ListKind): set<StatusBit> {
    match kind
    case StagedList => {INDEX_NEW, INDEX_MODIFIED, INDEX_DELETED, INDEX_RENAMED, INDEX_TYPECHANGE}
    case UnstagedList => {WT_MODIFIED, WT_DELETED, WT_TYPECHANGE, WT_RENAMED, WT_UNREADABLE}
    case UntrackedList => {WT_NEW}
    case IgnoredList => {IGNORED}
    case ConflictedList => {CONFLICTED}
  }

  /** The same question asked of a published entry. */
  predicate OnList(status: PathEntryStatus, kind: ListKind) {
    match kind
    case StagedList =>
      status.indexNew || status.indexModified || status.indexDeleted || status.indexRenamed || status.indexTypechange
    case UnstagedList =>
      status.workdirModified || status.workdirDeleted || status.workdirTypechange || status.workdirRenamed
      || status.workdirUnreadable
    case UntrackedList => status.workdirNew
    case IgnoredList => status.ignored
    case ConflictedList => status.conflicted
  }

  function PathEntryStatusOf(bits: set<StatusBit>): PathEntryStatus {
    PathEntryStatus(
      INDEX_NEW in bits, INDEX_MODIFIED in bits, INDEX_DELETED in bits, INDEX_RENAMED in bits,
      INDEX_TYPECHANGE in bits, WT_NEW in bits, WT_MODIFIED in bits, WT_DELETED in bits,
      WT_TYPECHANGE in bits, WT_RENAMED in bits, WT_UNREADABLE in bits, IGNORED in bits,
      CONFLICTED in bits, false, false)
  }

  const DEFAULT_STATUS := PathEntryStatusOf({})

  lemma StatusKeepsLists(bits: set<StatusBit>, kind: ListKind)
    ensures OnList(PathEntryStatusOf(bits), kind) <==> bits * Mask(kind) != {}
  {
    var both := bits * Mask(kind);
    if OnList(PathEntryStatusOf(bits), kind) {
      match kind
      case StagedList =>
        assert INDEX_NEW in both || INDEX_MODIFIED in both || INDEX_DELETED in both || INDEX_RENAMED in both
          || INDEX_TYPECHANGE in both;
      case UnstagedList =>
        assert WT_MODIFIED in both || WT_DELETED in both || WT_TYPECHANGE in both || WT_RENAMED in both
          || WT_UNREADABLE in both;
      case UntrackedList => assert WT_NEW in both;
      case IgnoredList => assert IGNORED in both;
      case ConflictedList => assert CONFLICTED in both;
    }
  }

  function Listed(statuses: seq<StatusEntry>, kind: ListKind): (r: seq<string>)
    ensures StrictlySorted(r)
  {
    if statuses == [] then []
    else
      var last := statuses[|statuses| - 1];
      var rest := Listed(statuses[..|statuses| - 1], kind);
      if last.path.Some? && last.bits * Mask(kind) != {} then Insert(rest, last.path.value) else rest
  }

  // ---------------------------------------------------------------- entries

  function OldPath(files: Option<DeltaFiles>): Option<string> {
    if files.Some? then files.value.oldPath else None
  }

  function NewPath(files: Option<DeltaFiles>): Option<string> {
    if files.Some? then files.value.newPath else None
  }

  function DiffFor(diffs: map<string, PathDiffSummary>, path: string): PathDiffSummary {
    if path in diffs then diffs[path] else PathDiffSummary(0, 0, 0)
  }

  function EntryOf(status: StatusEntry, diffs: map<string, PathDiffSummary>): PathEntry
    requires status.path.Some?
  {
    PathEntry(
      status.path.value,
      OldPath(status.headToIndex), NewPath(status.headToIndex),
      OldPath(status.indexToWorkdir), NewPath(status.indexToWorkdir),
      PathEntryStatusOf(status.bits), DiffFor(diffs, status.path.value))
  }

  function StatusEntries(statuses: seq<StatusEntry>, diffs: map<string, PathDiffSummary>): seq<PathEntry> {
    if statuses == [] then []
    else
      var last := statuses[|statuses| - 1];
      var rest := StatusEntries(statuses[..|statuses| - 1], diffs);
      if last.path.Some? then rest + [EntryOf(last, diffs)] else rest
  }

  /** `entries.iter_mut().find(...)`: the first entry with the path, or the length. */
  function FindEntry(entries: seq<PathEntry>, path: string): (i: nat)
    ensures i <= |entries|
    ensures forall j :: 0 <= j < i ==> entries[j].path != path
    ensures i < |entries| ==> entries[i].path == path
  {
    if entries == [] then 0
    else if entries[0].path == path then 0
    else 1 + FindEntry(entries[1..], path)
  }

  function WithFlags(entry: PathEntry, flags: IndexEntry): PathEntry {
    entry.(status := entry.status.(assumeUnchanged := flags.assumeUnchanged, skipWorktree := flags.skipWorktree))
  }

  function FlagEntry(flags: IndexEntry, diffs: map<string, PathDiffSummary>): PathEntry {
    PathEntry(flags.path, None, None, None, None,
              DEFAULT_STATUS.(assumeUnchanged := flags.assumeUnchanged, skipWorktree := flags.skipWorktree),
              DiffFor(diffs, flags.path))
  }

  function IncludeFlag(entries: seq<PathEntry>, flags: IndexEntry, diffs: map<string, PathDiffSummary>): seq<PathEntry> {
    if !flags.assumeUnchanged && !flags.skipWorktree then entries
    else
      var i := FindEntry(entries, flags.path);
      if i < |entries| then entries[i := WithFlags(entries[i], flags)]
      else entries + [FlagEntry(flags, diffs)]
  }

  function IncludeFlags(entries: seq<PathEntry>, index: seq<IndexEntry>, diffs: map<string, PathDiffSummary>): seq<PathEntry> {
    if index == [] then entries
    else IncludeFlag(IncludeFlags(entries, index[..|index| - 1], diffs), index[|index| - 1], diffs)
  }

  // ---------------------------------------------------------------- stable sorting by path

  function InsertByKey<T>(xs: seq<T>, x: T, key: T -> string): (r: seq<T>)
    ensures multiset(r) == multiset(xs) + multiset{x}
    ensures |r| == |xs| + 1
  {
    if xs == [] || !Less(key(x), key(xs[|xs| - 1])) then xs + [x]
    else
      assert xs == xs[..|xs| - 1] + [xs[|xs| - 1]];
      InsertByKey(xs[..|xs| - 1], x, key) + [xs[|xs| - 1]]
  }

  /** `sort_by(|a, b| a.path.cmp(&b.path))` */
  function SortByKey<T>(xs: seq<T>, key: T -> string): (r: seq<T>)
    ensures multiset(r) == multiset(xs)
    ensures |r| == |xs|
  {
    if xs == [] then []
    else
      assert xs == xs[..|xs| - 1] + [xs[|xs| - 1]];
      InsertByKey(SortByKey(xs[..|xs| - 1], key), xs[|xs| - 1], key)
  }

  ghost predicate SortedByKey<T>(xs: seq<T>, key: T -> string) {
    forall i, j :: 0 <= i < j < |xs| ==> !Less(key(xs[j]), key(xs[i]))
  }

  lemma {:induction false} NotLessTransitive(a: string, b: string, c: string)
    requires !Less(b, a) && !Less(c, b)
    ensures !Less(c, a)
  {
    LessTotal(a, b);
    LessTotal(b, c);
    if Less(c, a) {
      if a != b { LessTransitive(c, a, b); }
    }
  }

  lemma {:induction false} InsertByKeySorted<T>(xs: seq<T>, x: T, key: T -> string)
    requires SortedByKey(xs, key)
    ensures SortedByKey(InsertByKey(xs, x, key), key)
  {
    if xs == [] {
    } else {
      var init, last := xs[..|xs| - 1], xs[|xs| - 1];
      if !Less(key(x), key(last)) {
        var r := xs + [x];
        forall i, j | 0 <= i < j < |r| ensures !Less(key(r[j]), key(r[i])) {
          if j == |xs| && i < |xs| - 1 { NotLessTransitive(key(xs[i]), key(last), key(x)); }
        }
      } else {
        InsertByKeySorted(init, x, key);
        var r := InsertByKey(init, x, key);
        forall i | 0 <= i < |r| ensures !Less(key(last), key(r[i])) {
          assert r[i] in multiset(r);
          assert r[i] in multiset(init) || r[i] == x;
          if r[i] == x && Less(key(last), key(x)) {
            LessTransitive(key(last), key(x), key(last));
            LessIrreflexive(key(last));
          }
        }
      }
    }
  }

  lemma {:induction false} SortByKeySorted<T>(xs: seq<T>, key: T -> string)
    ensures SortedByKey(SortByKey(xs, key), key)
  {
    if xs != [] {
      SortByKeySorted(xs[..|xs| - 1], key);
      InsertByKeySorted(SortByKey(xs[..|xs| - 1], key), xs[|xs| - 1], key);
    }
  }
}
