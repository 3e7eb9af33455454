/** Building a path state from what libgit2 reports (`path_state` and its helpers in
    src/repository/paths.rs), and what the published entries then determine. */
module PathScan {
  import opened Wrappers
  import opened Ordered
  import opened Model
  import opened Paths

  // ---------------------------------------------------------------- line counts

  function LinePath(line: DiffLine): Option<string> {
    if line.newPath.Some? then line.newPath else line.oldPath
  }

  /** Lines of one origin that count for `path`. */
  function Total(lines: seq<DiffLine>, path: string, origin: LineOrigin): nat {
    if lines == [] then 0
    else
      var last := lines[|lines| - 1];
      Total(lines[..|lines| - 1], path, origin)
      + if LinePath(last) == Some(path) && last.origin == origin then last.numLines else 0
  }

  ghost function LinePaths(lines: seq<DiffLine>): set<string> {
    set line | line in lines && LinePath(line).Some? :: LinePath(line).value
  }

  function RawFor(raw: map<string, RawDiffSummary>, path: string): RawDiffSummary {
    if path in raw then raw[path] else RawDiffSummary(0, 0)
  }

  /** `raw` is `before` with the additions and deletions of `lines` counted in. */
  ghost predicate CountedIn(before: map<string, RawDiffSummary>, lines: seq<DiffLine>, raw: map<string, RawDiffSummary>) {
    && raw.Keys == before.Keys + LinePaths(lines)
    && forall p :: p in raw ==> raw[p] == Counted(before, lines, p)
  }

  ghost function Counted(before: map<string, RawDiffSummary>, lines: seq<DiffLine>, path: string): RawDiffSummary {
    RawDiffSummary(RawFor(before, path).added + Total(lines, path, Addition),
                   RawFor(before, path).removed + Total(lines, path, Deletion))
  }

  lemma CountedSnoc(before: map<string, RawDiffSummary>, lines: seq<DiffLine>, line: DiffLine, path: string)
    ensures Counted(before, lines + [line], path) ==
      if LinePath(line) == Some(path) then CountLine(Counted(before, lines, path), line) else Counted(before, lines, path)
  {
  }

  function CountLine(summary: RawDiffSummary, line: DiffLine): RawDiffSummary {
    match line.origin
    case Addition => summary.(added := summary.added + line.numLines)
    case Deletion => summary.(removed := summary.removed + line.numLines)
    case OtherLine => summary
  }

  method AccumulateDiffLines(lines: seq<DiffLine>, before: map<string, RawDiffSummary>)
    returns (raw: map<string, RawDiffSummary>)
    ensures CountedIn(before, lines, raw)
  {
    raw := before;
    for i := 0 to |lines|
      invariant CountedIn(before, lines[..i], raw)
    {
      assert lines[..i + 1] == lines[..i] + [lines[i]];
      CountNext(before, lines[..i], raw, lines[i]);
      if LinePath(lines[i]).Some? {
        var path := LinePath(lines[i]).value;
        raw := raw[path := CountLine(RawFor(raw, path), lines[i])];
      }
    }
    assert lines[..|lines|] == lines;
  }

  lemma CountNext(before: map<string, RawDiffSummary>, lines: seq<DiffLine>, raw: map<string, RawDiffSummary>, line: DiffLine)
    requires CountedIn(before, lines, raw)
    ensures LinePath(line).None? ==> CountedIn(before, lines + [line], raw)
    ensures LinePath(line).Some? ==>
      var path := LinePath(line).value;
      CountedIn(before, lines + [line], raw[path := CountLine(RawFor(raw, path), line)])
  {
    LinePathsSnoc(lines, line);
    forall p | p !in raw ensures Counted(before, lines, p) == RawFor(raw, p) {
      NoLines(lines, p);
    }
    forall p { CountedSnoc(before, lines, line, p); }
  }

  lemma LinePathsSnoc(lines: seq<DiffLine>, line: DiffLine)
    ensures LinePaths(lines + [line]) == LinePaths(lines) + if LinePath(line).Some? then {LinePath(line).value} else {}
  {
  }

  lemma {:induction false} NoLines(lines: seq<DiffLine>, path: string)
    requires path !in LinePaths(lines)
    ensures Total(lines, path, Addition) == 0 && Total(lines, path, Deletion) == 0
  {
    if lines != [] {
      assert lines[|lines| - 1] in lines;
      assert LinePaths(lines[..|lines| - 1]) <= LinePaths(lines);
      NoLines(lines[..|lines| - 1], path);
    }
  }

  function SummarizeRawDiff(raw: RawDiffSummary): PathDiffSummary {
    var changed := if raw.added < raw.removed then raw.added else raw.removed;
    PathDiffSummary(raw.added - changed, changed, raw.removed - changed)
  }

  /** No line is lost in a summary: added and changed lines are the additions, removed and
      changed lines the deletions, and nothing is reported both as added and as removed. */
  method DiffSummaries(staged: seq<DiffLine>, workdir: seq<DiffLine>) returns (diffs: map<string, PathDiffSummary>)
    ensures diffs.Keys == LinePaths(staged) + LinePaths(workdir)
    ensures forall p :: p in diffs ==>
      && diffs[p].added + diffs[p].changed == Total(staged, p, Addition) + Total(workdir, p, Addition)
      && diffs[p].removed + diffs[p].changed == Total(staged, p, Deletion) + Total(workdir, p, Deletion)
      && (diffs[p].added == 0 || diffs[p].removed == 0)
  {
    var raw := AccumulateDiffLines(staged, map[]);
    var both := AccumulateDiffLines(workdir, raw);
    forall p | p in both && p !in raw ensures Total(staged, p, Addition) == 0 && Total(staged, p, Deletion) == 0 {
      NoLines(staged, p);
    }
    diffs := map p | p in both :: SummarizeRawDiff(both[p]);
  }

  // ---------------------------------------------------------------- conflicts

  function FirstSide(conflict: IndexConflict): Option<ConflictSide> {
    if conflict.ancestor.Some? then conflict.ancestor
    else if conflict.ours.Some? then conflict.ours
    else conflict.theirs
  }

  function Summaries(conflicts: seq<IndexConflict>): seq<ConflictSummary> {
    if conflicts == [] then []
    else
      var last := conflicts[|conflicts| - 1];
      var rest := Summaries(conflicts[..|conflicts| - 1]);
      var side := FirstSide(last);
      if side.None? then rest
      else rest + [ConflictSummary(side.value.path, last.ancestor, last.ours, last.theirs)]
  }

  function ConflictKey(c: ConflictSummary): string { c.path }

  function EntryKey(e: PathEntry): string { e.path }

  method ConflictSummaries(conflicts: seq<IndexConflict>) returns (r: seq<ConflictSummary>)
    ensures r == SortByKey(Summaries(conflicts), ConflictKey)
    ensures SortedByKey(r, ConflictKey) && multiset(r) == multiset(Summaries(conflicts))
  {
    var found := [];
    for i := 0 to |conflicts|
      invariant found == Summaries(conflicts[..i])
    {
      var conflict := conflicts[i];
      assert conflicts[..i + 1][..i] == conflicts[..i];
      var side := FirstSide(conflict);
      if side.Some? {
        found := found + [ConflictSummary(side.value.path, conflict.ancestor, conflict.ours, conflict.theirs)];
      }
    }
    assert conflicts[..|conflicts|] == conflicts;
    r := SortByKey(found, ConflictKey);
    SortByKeySorted(found, ConflictKey);
  }

  // ---------------------------------------------------------------- path_state

  const EMPTY_STATE := PathState([], [], [], [], [], [], [])

  ghost function PathStateOf(isBare: bool, statuses: seq<StatusEntry>, index: seq<IndexEntry>,
                             conflicts: seq<IndexConflict>, diffs: map<string, PathDiffSummary>): PathState
  {
    if isBare then EMPTY_STATE
    else PathState(
      Listed(statuses, StagedList), Listed(statuses, UnstagedList), Listed(statuses, UntrackedList),
      Listed(statuses, IgnoredList), Listed(statuses, ConflictedList),
      SortByKey(Summaries(conflicts), ConflictKey),
      SortByKey(IncludeFlags(StatusEntries(statuses, diffs), index, diffs), EntryKey))
  }

  method IncludeIndexFlagEntries(entries: seq<PathEntry>, index: seq<IndexEntry>, diffs: map<string, PathDiffSummary>)
    returns (r: seq<PathEntry>)
    ensures r == IncludeFlags(entries, index, diffs)
  {
    r := entries;
    for k := 0 to |index|
      invariant r == IncludeFlags(entries, index[..k], diffs)
    {
      var flags := index[k];
      assert index[..k + 1][..k] == index[..k];
      if !flags.assumeUnchanged && !flags.skipWorktree {
        continue;
      }
      var i := FindEntry(r, flags.path);
      if i < |r| {
        r := r[i := WithFlags(r[i], flags)];
      } else {
        r := r + [FlagEntry(flags, diffs)];
      }
    }
    assert index[..|index|] == index;
  }

  method BuildPathState(isBare: bool, statuses: seq<StatusEntry>, index: seq<IndexEntry>,
                        conflicts: seq<IndexConflict>, diffs: map<string, PathDiffSummary>)
    returns (state: PathState)
    ensures state == PathStateOf(isBare, statuses, index, conflicts, diffs)
  {
    if isBare {
      return EMPTY_STATE;
    }
    var staged, unstaged, untracked, ignored, conflicted := [], [], [], [], [];
    var entries := [];
    var summaries := ConflictSummaries(conflicts);
    for i := 0 to |statuses|
      invariant staged == Listed(statuses[..i], StagedList)
      invariant unstaged == Listed(statuses[..i], UnstagedList)
      invariant untracked == Listed(statuses[..i], UntrackedList)
      invariant ignored == Listed(statuses[..i], IgnoredList)
      invariant conflicted == Listed(statuses[..i], ConflictedList)
      invariant entries == StatusEntries(statuses[..i], diffs)
    {
      var status := statuses[i].bits;
      assert statuses[..i + 1][..i] == statuses[..i];
      if statuses[i].path.None? {
        continue;
      }
      var path := statuses[i].path.value;
      if status * Mask(ConflictedList) != {} { conflicted := Insert(conflicted, path); }
      if status * Mask(StagedList) != {} { staged := Insert(staged, path); }
      if status * Mask(UntrackedList) != {} { untracked := Insert(untracked, path); }
      if status * Mask(IgnoredList) != {} { ignored := Insert(ignored, path); }
      entries := entries + [EntryOf(statuses[i], diffs)];
      if status * Mask(UnstagedList) != {} { unstaged := Insert(unstaged, path); }
    }
    assert statuses[..|statuses|] == statuses;
    entries := IncludeIndexFlagEntries(entries, index, diffs);
    state := PathState(staged, unstaged, untracked, ignored, conflicted, summaries, SortByKey(entries, EntryKey));
  }

  // ---------------------------------------------------------------- entries determine the lists

  ghost function Projection(entries: seq<PathEntry>, kind: ListKind): set<string> {
    set e | e in entries && OnList(e.status, kind) :: e.path
  }

  /** Every list is the sorted list of the paths whose published entry carries its bits. */
  ghost predicate ListsProjectEntries(s: PathState) {
    forall kind: ListKind :: StrictlySorted(ListIn(s, kind)) && Elements(ListIn(s, kind)) == Projection(s.entries, kind)
  }

  lemma ProjectionSnoc(entries: seq<PathEntry>, e: PathEntry, kind: ListKind)
    ensures Projection(entries + [e], kind) == Projection(entries, kind) + (if OnList(e.status, kind) then {e.path} else {})
  {
  }

  lemma {:induction false} StatusEntriesProject(statuses: seq<StatusEntry>, diffs: map<string, PathDiffSummary>, kind: ListKind)
    ensures Elements(Listed(statuses, kind)) == Projection(StatusEntries(statuses, diffs), kind)
  {
    if statuses != [] {
      var init, last := statuses[..|statuses| - 1], statuses[|statuses| - 1];
      StatusEntriesProject(init, diffs, kind);
      if last.path.Some? {
        ProjectionSnoc(StatusEntries(init, diffs), EntryOf(last, diffs), kind);
        StatusKeepsLists(last.bits, kind);
      }
    }
  }

  lemma IncludeFlagProjects(entries: seq<PathEntry>, flags: IndexEntry, diffs: map<string, PathDiffSummary>, kind: ListKind)
    ensures Projection(IncludeFlag(entries, flags, diffs), kind) == Projection(entries, kind)
  {
    var r := IncludeFlag(entries, flags, diffs);
    var i := FindEntry(entries, flags.path);
    if r != entries {
      if i < |entries| {
        assert OnList(r[i].status, kind) <==> OnList(entries[i].status, kind);
        forall p ensures p in Projection(r, kind) <==> p in Projection(entries, kind) {
          if p in Projection(r, kind) {
            var j :| 0 <= j < |r| && OnList(r[j].status, kind) && r[j].path == p;
            assert entries[j] in entries;
          }
          if p in Projection(entries, kind) {
            var j :| 0 <= j < |entries| && OnList(entries[j].status, kind) && entries[j].path == p;
            assert r[j] in r;
          }
        }
      } else {
        StatusKeepsLists({}, kind);
        ProjectionSnoc(entries, FlagEntry(flags, diffs), kind);
      }
    }
  }

  lemma {:induction false} IncludeFlagsProject(entries: seq<PathEntry>, index: seq<IndexEntry>,
                                               diffs: map<string, PathDiffSummary>, kind: ListKind)
    ensures Projection(IncludeFlags(entries, index, diffs), kind) == Projection(entries, kind)
  {
    if index != [] {
      IncludeFlagsProject(entries, index[..|index| - 1], diffs, kind);
      IncludeFlagProjects(IncludeFlags(entries, index[..|index| - 1], diffs), index[|index| - 1], diffs, kind);
    }
  }

  lemma SortProjects(entries: seq<PathEntry>, kind: ListKind)
    ensures Projection(SortByKey(entries, EntryKey), kind) == Projection(entries, kind)
  {
    var sorted := SortByKey(entries, EntryKey);
    forall e ensures e in sorted <==> e in entries {
      assert e in multiset(sorted) <==> e in multiset(entries);
    }
  }

  lemma ListProjects(statuses: seq<StatusEntry>, index: seq<IndexEntry>, diffs: map<string, PathDiffSummary>, kind: ListKind)
    ensures Elements(Listed(statuses, kind)) ==
              Projection(SortByKey(IncludeFlags(StatusEntries(statuses, diffs), index, diffs), EntryKey), kind)
  {
    var entries := StatusEntries(statuses, diffs);
    StatusEntriesProject(statuses, diffs, kind);
    IncludeFlagsProject(entries, index, diffs, kind);
    SortProjects(IncludeFlags(entries, index, diffs), kind);
  }

  lemma ListedProject(statuses: seq<StatusEntry>, index: seq<IndexEntry>,
                      conflicts: seq<IndexConflict>, diffs: map<string, PathDiffSummary>, kind: ListKind)
    ensures var state := PathStateOf(false, statuses, index, conflicts, diffs);
      StrictlySorted(ListIn(state, kind)) && Elements(ListIn(state, kind)) == Projection(state.entries, kind)
  {
    ListProjects(statuses, index, diffs, kind);
    assert ListIn(PathStateOf(false, statuses, index, conflicts, diffs), kind) == Listed(statuses, kind);
  }

  /** The lists carry nothing that the entries do not, for every answer libgit2 may give. */
  lemma EntriesDetermineLists(isBare: bool, statuses: seq<StatusEntry>, index: seq<IndexEntry>,
                              conflicts: seq<IndexConflict>, diffs: map<string, PathDiffSummary>)
    ensures ListsProjectEntries(PathStateOf(isBare, statuses, index, conflicts, diffs))
  {
    if !isBare {
      forall kind: ListKind { ListedProject(statuses, index, conflicts, diffs, kind); }
    }
  }

  /** Hence a path delta reports a change exactly when some entry changed. */
  lemma EntriesDecideDelta(a: PathState, b: PathState)
    requires WellFormed(a) && ListsProjectEntries(a)
    requires WellFormed(b) && ListsProjectEntries(b)
    ensures PathDeltaOf(a, b).HasChanges() <==> PathDeltaOf(a, b).entriesChanged != []
  {
    EntriesUnchanged(a.entries, b.entries);
    if a.entries == b.entries {
      forall kind: ListKind ensures ListIn(a, kind) == ListIn(b, kind) {
        SortedUnique(ListIn(a, kind), ListIn(b, kind));
      }
      SameByParts(a, b);
      PathDeltaBlindness(a, b);
    }
  }

  // ---------------------------------------------------------------- distinct paths

  ghost predicate NoDuplicates(s: seq<string>) {
    forall i, j :: 0 <= i < j < |s| ==> s[i] != s[j]
  }

  /** The paths libgit2 reports, without those that are not UTF-8. */
  function StatusPaths(statuses: seq<StatusEntry>): seq<string> {
    if statuses == [] then []
    else
      var last := statuses[|statuses| - 1];
      var rest := StatusPaths(statuses[..|statuses| - 1]);
      if last.path.Some? then rest + [last.path.value] else rest
  }

  lemma {:induction false} StatusEntriesPaths(statuses: seq<StatusEntry>, diffs: map<string, PathDiffSummary>)
    ensures PathsOf(StatusEntries(statuses, diffs)) == StatusPaths(statuses)
  {
    if statuses != [] {
      StatusEntriesPaths(statuses[..|statuses| - 1], diffs);
    }
  }

  lemma NoDuplicatesSnoc(s: seq<string>, x: string)
    ensures NoDuplicates(s + [x]) <==> NoDuplicates(s) && x !in s
  {
    var t := s + [x];
    if NoDuplicates(t) {
      forall i, j | 0 <= i < j < |s| ensures s[i] != s[j] { assert t[i] != t[j]; }
      forall i | 0 <= i < |s| ensures s[i] != x { assert t[i] != t[|s|]; }
    }
  }

  lemma {:induction false} NoDuplicatesCounts(s: seq<string>)
    ensures NoDuplicates(s) <==> forall x :: multiset(s)[x] <= 1
  {
    if s != [] {
      var init, last := s[..|s| - 1], s[|s| - 1];
      assert s == init + [last];
      NoDuplicatesCounts(init);
      NoDuplicatesSnoc(init, last);
      assert multiset(s) == multiset(init) + multiset{last};
      assert last in init <==> last in multiset(init);
      if forall x :: multiset(s)[x] <= 1 {
        forall x ensures multiset(init)[x] <= 1 { assert multiset(s)[x] <= 1; }
        assert multiset(s)[last] <= 1;
      }
    }
  }

  lemma IncludeFlagPaths(entries: seq<PathEntry>, flags: IndexEntry, diffs: map<string, PathDiffSummary>)
    ensures NoDuplicates(PathsOf(IncludeFlag(entries, flags, diffs))) <==> NoDuplicates(PathsOf(entries))
  {
    var i := FindEntry(entries, flags.path);
    if flags.assumeUnchanged || flags.skipWorktree {
      var r := IncludeFlag(entries, flags, diffs);
      if i < |entries| {
        assert PathsOf(r) == PathsOf(entries);
      } else {
        assert PathsOf(r) == PathsOf(entries) + [flags.path];
        NoDuplicatesSnoc(PathsOf(entries), flags.path);
      }
    }
  }

  lemma {:induction false} IncludeFlagsPaths(entries: seq<PathEntry>, index: seq<IndexEntry>, diffs: map<string, PathDiffSummary>)
    ensures NoDuplicates(PathsOf(IncludeFlags(entries, index, diffs))) <==> NoDuplicates(PathsOf(entries))
  {
    if index != [] {
      IncludeFlagsPaths(entries, index[..|index| - 1], diffs);
      IncludeFlagPaths(IncludeFlags(entries, index[..|index| - 1], diffs), index[|index| - 1], diffs);
    }
  }

  lemma PathsOfSnoc(entries: seq<PathEntry>, e: PathEntry)
    ensures PathsOf(entries + [e]) == PathsOf(entries) + [e.path]
  {
  }

  lemma {:induction false} InsertPaths(entries: seq<PathEntry>, e: PathEntry)
    ensures multiset(PathsOf(InsertByKey(entries, e, EntryKey))) == multiset(PathsOf(entries)) + multiset{e.path}
  {
    if entries == [] || !Less(e.path, entries[|entries| - 1].path) {
      PathsOfSnoc(entries, e);
    } else {
      var init, last := entries[..|entries| - 1], entries[|entries| - 1];
      InsertPaths(init, e);
      PathsOfSnoc(InsertByKey(init, e, EntryKey), last);
      PathsOfSnoc(init, last);
      assert entries == init + [last];
    }
  }

  lemma {:induction false} SortPaths(entries: seq<PathEntry>)
    ensures multiset(PathsOf(SortByKey(entries, EntryKey))) == multiset(PathsOf(entries))
  {
    if entries != [] {
      var init, last := entries[..|entries| - 1], entries[|entries| - 1];
      var sorted := SortByKey(init, EntryKey);
      calc {
        multiset(PathsOf(SortByKey(entries, EntryKey)));
        multiset(PathsOf(InsertByKey(sorted, last, EntryKey)));
        { InsertPaths(sorted, last); }
        multiset(PathsOf(sorted)) + multiset{last.path};
        { SortPaths(init); }
        multiset(PathsOf(init)) + multiset{last.path};
        multiset(PathsOf(init) + [last.path]);
        { PathsOfSnoc(init, last); assert entries == init + [last]; }
        multiset(PathsOf(entries));
      }
    }
  }

  lemma SortNoDuplicates(entries: seq<PathEntry>)
    ensures NoDuplicates(PathsOf(SortByKey(entries, EntryKey))) <==> NoDuplicates(PathsOf(entries))
  {
    SortPaths(entries);
    NoDuplicatesCounts(PathsOf(SortByKey(entries, EntryKey)));
    NoDuplicatesCounts(PathsOf(entries));
  }

  lemma SortedIffNoDuplicates(entries: seq<PathEntry>)
    requires SortedByKey(entries, EntryKey)
    ensures StrictlySorted(PathsOf(entries)) <==> NoDuplicates(PathsOf(entries))
  {
    var paths := PathsOf(entries);
    forall i, j | 0 <= i < j < |paths| ensures Less(paths[i], paths[j]) <==> paths[i] != paths[j] {
      assert !Less(EntryKey(entries[j]), EntryKey(entries[i]));
      LessTotal(paths[i], paths[j]);
      LessIrreflexive(paths[i]);
    }
  }

  /** The published path state is well formed exactly when libgit2 reported every path once. */
  lemma WellFormedIffDistinct(isBare: bool, statuses: seq<StatusEntry>, index: seq<IndexEntry>,
                              conflicts: seq<IndexConflict>, diffs: map<string, PathDiffSummary>)
    ensures WellFormed(PathStateOf(isBare, statuses, index, conflicts, diffs)) <==>
              isBare || NoDuplicates(StatusPaths(statuses))
  {
    var state := PathStateOf(isBare, statuses, index, conflicts, diffs);
    assert WellFormed(state) <==> StrictlySorted(PathsOf(state.entries)) by {
      EntriesDetermineLists(isBare, statuses, index, conflicts, diffs);
    }
    if !isBare {
      var entries := StatusEntries(statuses, diffs);
      var flagged := IncludeFlags(entries, index, diffs);
      assert NoDuplicates(PathsOf(flagged)) <==> NoDuplicates(StatusPaths(statuses)) by {
        StatusEntriesPaths(statuses, diffs);
        IncludeFlagsPaths(entries, index, diffs);
      }
      SortNoDuplicates(flagged);
      SortByKeySorted(flagged, EntryKey);
      SortedIffNoDuplicates(state.entries);
    }
  }

  // ---------------------------------------------------------------- what the entries are

  predicate IsFlagged(flags: IndexEntry) {
    flags.assumeUnchanged || flags.skipWorktree
  }

  /** The last flagged index entry with the path. */
  function LastFlags(index: seq<IndexEntry>, path: string): (r: Option<IndexEntry>)
    ensures r.Some? ==> r.value in index && r.value.path == path && IsFlagged(r.value)
  {
    if index == [] then None
    else
      var last := index[|index| - 1];
      if IsFlagged(last) && last.path == path then Some(last) else LastFlags(index[..|index| - 1], path)
  }

  /** `e` is what is published for its path: the status entry with the flags of the index, or an
      entry for the flags alone. */
  ghost predicate IsPublished(e: PathEntry, entries: seq<PathEntry>, index: seq<IndexEntry>, diffs: map<string, PathDiffSummary>) {
    var flags := LastFlags(index, e.path);
    if e.path in PathsOf(entries) then
      exists base :: base in entries && base.path == e.path && e == Flagged(base, flags)
    else flags.Some? && e == FlagEntry(flags.value, diffs)
  }

  lemma PathOfMember(entries: seq<PathEntry>, e: PathEntry)
    requires e in entries
    ensures e.path in PathsOf(entries)
  {
  }

  lemma MemberWithPath(entries: seq<PathEntry>, path: string) returns (e: PathEntry)
    requires path in PathsOf(entries)
    ensures e in entries && e.path == path
  {
    var i :| 0 <= i < |PathsOf(entries)| && PathsOf(entries)[i] == path;
    e := entries[i];
  }

  ghost predicate Reflagged(e: PathEntry, entries: seq<PathEntry>, flags: IndexEntry) {
    exists base :: base in entries && base.path == e.path && e == WithFlags(base, flags)
  }

  /** One flagged index entry replaces the flags of its path and leaves every other path alone. */
  lemma IncludeFlagStep(entries: seq<PathEntry>, flags: IndexEntry, diffs: map<string, PathDiffSummary>, e: PathEntry)
    requires NoDuplicates(PathsOf(entries)) && IsFlagged(flags)
    ensures e.path != flags.path ==> (e in IncludeFlag(entries, flags, diffs) <==> e in entries)
    ensures e.path == flags.path ==> (e in IncludeFlag(entries, flags, diffs) <==>
      if e.path in PathsOf(entries)
      then Reflagged(e, entries, flags) else e == FlagEntry(flags, diffs))
  {
    var i := FindEntry(entries, flags.path);
    var r := IncludeFlag(entries, flags, diffs);
    if i < |entries| {
      PathOfMember(entries, entries[i]);
      assert r[i] == WithFlags(entries[i], flags);
      forall j | 0 <= j < |entries| && j != i ensures entries[j].path != flags.path && r[j] == entries[j] {
        assert PathsOf(entries)[j] != PathsOf(entries)[i];
      }
    } else {
      assert r == entries + [FlagEntry(flags, diffs)];
      forall x | x in entries ensures x.path != flags.path {}
      assert flags.path !in PathsOf(entries);
    }
  }

  function Flagged(base: PathEntry, flags: Option<IndexEntry>): PathEntry {
    if flags.Some? then WithFlags(base, flags.value) else base
  }

  lemma FlagTwice(base: PathEntry, before: Option<IndexEntry>, flags: IndexEntry)
    ensures WithFlags(Flagged(base, before), flags) == WithFlags(base, flags)
    ensures Flagged(base, before).path == base.path
  {
  }

  /** Flagging again what was published for a path with a status entry. */
  lemma ReflagOwn(entries: seq<PathEntry>, init: seq<IndexEntry>, diffs: map<string, PathDiffSummary>,
                  merged: seq<PathEntry>, flags: IndexEntry, e: PathEntry)
    requires e.path in PathsOf(entries)
    requires forall base :: base in merged <==> IsPublished(base, entries, init, diffs)
    ensures e.path in PathsOf(merged)
    ensures Reflagged(e, merged, flags) <==> Reflagged(e, entries, flags)
  {
    var before := LastFlags(init, e.path);
    var own := MemberWithPath(entries, e.path);
    assert IsPublished(Flagged(own, before), entries, init, diffs);
    PathOfMember(merged, Flagged(own, before));
    if Reflagged(e, entries, flags) {
      var base :| base in entries && base.path == e.path && e == WithFlags(base, flags);
      assert IsPublished(Flagged(base, before), entries, init, diffs);
      FlagTwice(base, before, flags);
    }
    if Reflagged(e, merged, flags) {
      var base' :| base' in merged && base'.path == e.path && e == WithFlags(base', flags);
      assert IsPublished(base', entries, init, diffs);
      var base :| base in entries && base.path == e.path && base' == Flagged(base, before);
      FlagTwice(base, before, flags);
    }
  }

  /** Flagging again what was published for a path without one. */
  lemma ReflagAlone(entries: seq<PathEntry>, init: seq<IndexEntry>, diffs: map<string, PathDiffSummary>,
                    merged: seq<PathEntry>, flags: IndexEntry, e: PathEntry)
    requires e.path !in PathsOf(entries) && e.path == flags.path
    requires forall base :: base in merged <==> IsPublished(base, entries, init, diffs)
    ensures e.path in PathsOf(merged) ==> (Reflagged(e, merged, flags) <==> e == FlagEntry(flags, diffs))
  {
    var before := LastFlags(init, e.path);
    if e.path in PathsOf(merged) {
      var own := MemberWithPath(merged, e.path);
      assert IsPublished(own, entries, init, diffs);
      assert own == FlagEntry(before.value, diffs);
      assert WithFlags(own, flags) == FlagEntry(flags, diffs);
    }
  }

  /** The case of the last index entry: it is flagged, and `e` has its path. */
  lemma IncludeLastFlag(entries: seq<PathEntry>, init: seq<IndexEntry>, flags: IndexEntry,
                        diffs: map<string, PathDiffSummary>, e: PathEntry)
    requires NoDuplicates(PathsOf(entries)) && IsFlagged(flags) && e.path == flags.path
    requires forall base :: base in IncludeFlags(entries, init, diffs) <==> IsPublished(base, entries, init, diffs)
    ensures e in IncludeFlag(IncludeFlags(entries, init, diffs), flags, diffs) <==>
      if e.path in PathsOf(entries) then Reflagged(e, entries, flags) else e == FlagEntry(flags, diffs)
  {
    var merged := IncludeFlags(entries, init, diffs);
    IncludeFlagsPaths(entries, init, diffs);
    IncludeFlagStep(merged, flags, diffs, e);
    if e.path in PathsOf(entries) {
      ReflagOwn(entries, init, diffs, merged, flags, e);
    } else {
      ReflagAlone(entries, init, diffs, merged, flags, e);
    }
  }

  /** The entries after the index flags have been merged in: every status path and every flagged
      path has one, it is the status entry of the path if there is one, and it carries the flags
      of the last flagged index entry of the path. */
  lemma {:induction false} IncludeFlagsMeaning(entries: seq<PathEntry>, index: seq<IndexEntry>,
                                               diffs: map<string, PathDiffSummary>)
    requires NoDuplicates(PathsOf(entries))
    ensures forall e :: e in IncludeFlags(entries, index, diffs) <==> IsPublished(e, entries, index, diffs)
  {
    if index == [] {
      forall e | e in entries ensures e.path in PathsOf(entries) { PathOfMember(entries, e); }
    } else {
      var init, last := index[..|index| - 1], index[|index| - 1];
      IncludeFlagsMeaning(entries, init, diffs);
      if IsFlagged(last) {
        IncludeFlagsPaths(entries, init, diffs);
        forall e ensures e in IncludeFlags(entries, index, diffs) <==> IsPublished(e, entries, index, diffs) {
          if e.path == last.path {
            IncludeLastFlag(entries, init, last, diffs, e);
          } else {
            IncludeFlagStep(IncludeFlags(entries, init, diffs), last, diffs, e);
            assert IsPublished(e, entries, index, diffs) <==> IsPublished(e, entries, init, diffs);
          }
        }
      }
    }
  }

  /** What a path state publishes when libgit2 reports every path once: exactly the reported
      entries and the flagged index entries, merged by path. */
  lemma PublishedEntries(statuses: seq<StatusEntry>, index: seq<IndexEntry>, conflicts: seq<IndexConflict>,
                         diffs: map<string, PathDiffSummary>)
    requires NoDuplicates(StatusPaths(statuses))
    ensures forall e :: e in PathStateOf(false, statuses, index, conflicts, diffs).entries <==>
                        IsPublished(e, StatusEntries(statuses, diffs), index, diffs)
  {
    var entries := StatusEntries(statuses, diffs);
    StatusEntriesPaths(statuses, diffs);
    IncludeFlagsMeaning(entries, index, diffs);
    var merged := IncludeFlags(entries, index, diffs);
    forall e ensures e in SortByKey(merged, EntryKey) <==> e in merged {
      assert e in multiset(SortByKey(merged, EntryKey)) <==> e in multiset(merged);
    }
  }
}
