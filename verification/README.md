# Gitseer in Dafny

Gitseer watches one Git repository, keeps a snapshot of it in memory and streams versioned deltas
of that snapshot to a client over JSON-RPC. This project models the parts of it that are hard to
get right and proves what they keep:

- **Refresh pipeline** (`Repository`, `Classify`, `EventQueue`, `Pipeline`, `Convergence`,
  `PipelineRuns`, `Overflow`). The repository changes at any moment, file-system events go through a bounded
  queue, and the server rereads only the domains that the events ask for, one reader at a time.
  `Pipeline` is the whole as a step system, `Convergence` what its invariant gives: with nothing
  pending the cached snapshot is right in every sound domain (`Convergence.Convergence`), and a
  quiet repository is reached in a bounded number of steps (`Convergence.Settles`).
- **Delta protocol** (`Deltas`, `Protocol`, `Replica`, `Server`). `ProcessState` assigns versions
  and encodes changes; a client keeps a copy by applying patches over a channel that may lose,
  repeat and reorder messages (`ClientHoldsItsVersion`). `Server` is the loop with its four modes.
- **End to end** (`EndToEnd`). A run of the server is a run of the protocol, a turn of its loop is
  a run of the pipeline, and a client that receives everything holds the repository's full
  snapshot once nothing is pending.
- **Path state** (`Ordered`, `Paths`, `PathScan`). Five sorted lists and an entry list built from
  what libgit2 reports, and what their delta can and cannot see.
- **Watch set** (`Roots`, `Watch`). Discovery of directories in a finite tree, and the watcher
  object that keeps its queue, flag and watch list up to date in place.
- **Licence check** (`Spdx`, `SpdxLexer`). The lexer and the evaluating parser of the CI script,
  with the grammar they accept and the meaning of the answer.

`Model` holds the values that all of them share, `Wrappers` the usual `Option` and `Result`. The
modules named after answers (`ClassifierAnswers`, `PathAnswers`, `ReadAnswers`, `WatchAnswers`,
`ProtocolAnswers`, `ServerAnswers`, `SpdxAnswers`) say what each operation answers in terms of what
it is given, by names, bits, fields and literals.

Git is a `World` with one reader per query. `World.upstreamOf` and `World.commitOf` take the head
they are asked about, because the code asks about the head that the snapshot under construction
happens to hold. What libgit2 and the configuration answer while an event is classified is an
`Environment`; what the disk answers to the watcher is a `Disk`. JSON comes in parsed. Code that
updates an object or a local step by step is a class or a method with loops, proved against a
specification function; the lemmas are about those functions.

## What convergence rests on

No step of the pipeline is forbidden: the repository may change in any way and raise any events or
none. The state keeps a ledger instead. A domain is *sound* as long as each change of what a full
read would see in it, since the domain was last read, raised an event that asks for it
(`Pipeline.Reported`), and no such event was thrown away. Events are thrown away when nobody is
subscribed and when a line on stdin cancels `next_event`. A change of the lookups that the
classifier makes counts as a change of the domain too if it can take the domain out of the plan
of a waiting event. `Convergence.Convergence` is about the sound domains;
`Convergence.HandoffConverges` says on which runs all of them are.

Which changes are reported is a matter of what the readers look at. `Classify.Consults` lists the
git files that each reader in src/repository looks at, with git's own layout: HEAD names a branch
or a commit, and remote-tracking references lie under refs/remotes, or under refs/heads for the
remote `.`. Objects are among them: what an object id names never changes, but the object may be
missing at first. `Classify.ConsultsWorktree` does the same for paths of the worktree.
`Classify.ReadersAreCovered` and `Classify.WorktreeReadersAreCovered` say where the classifier asks
for the domain and where it does not, and `PipelineRuns.GapsGoStale` and
`PipelineRuns.WorktreeGapsGoStale` that the snapshot goes stale exactly where it does not.

The replication theorems are about snapshots with well-formed path states;
`PathScan.WellFormedIffDistinct` says when `path_state` builds one.

## Where the code and its description differ

- A change of the conflict stages alone is stored but never sent (`Deltas.ConflictOnlyChangeIsSilent`,
  the repository's README.md:70-72 says that every observed change is). Client and server agree up
  to `paths.conflicts`.
- `next_event` waits for another thread after it has received an event that changes the ignore
  rules, asks for a rescan or brings a new directory, and it does so inside a `select!` with stdin.
  A line that arrives then loses the event (`PipelineRuns.LosingForgets`). Every other event is
  safe (`PipelineRuns.CancellationExact`).
- A refresh with ignored paths becomes the baseline of later default refreshes
  (`PipelineRuns.IgnoredBaselineExact`).
- A subscription whose read fails keeps an older baseline (`PipelineRuns.FailedSubscribeStaysStale`,
  `PipelineRuns.SubscribeFreshExactly`), although the repository's README.md:67-68 says that it
  establishes a new one.
- A refresh without an id advances the version and its response is dropped; the client notices with
  the next delta (`Replica.InStepExact`, `Replica.DeltaTellsWhatItIs`).
- The classifier's gaps (`Classify.CoverageGap`): the identity, whose `is_empty` asks for HEAD and
  for any reference, is reread for none of the references listed, nor for `config`; the submodules
  are not reread for `index`, HEAD, branches, `packed-refs` or `config`; the paths not for
  `packed-refs` or for a branch that is not current when the event is classified, such as one that has just been deleted;
  the stashes not for `packed-refs`; the operation not for references outside refs/bisect, which
  `BISECT_START` may name; and `config.worktree` asks for the paths only.
- Nothing is reread when an object appears that was missing, although a commit, a tag or a tree may
  now be found (`Classify.CoverageGap`).
- A tracked file that an ignore rule matches is filtered as ignored, while the status scan reports
  it: the server goes on with a stale path state (`PipelineRuns.TrackedIgnoredFileGoesStale`;
  ignored directories are not even watched, `Roots.TraversalExact`). The other gaps of the worktree
  (`Classify.WorktreeGap`): an ignored attributes file asks for nothing, an ignore-rule file inside
  a submodule for the paths only, and a `.git` file for the identity and the worktrees only.
- Configuring a path as the excludes file shrinks the plan of its events from everything to the
  path state (`Classify.ReconfiguredExcludesShrinksPlan`).
- Reconciling the watch set leaves a path that is watched already in its old mode
  (`Watch.ReconcileIsRestartExact`). A new directory inside a nested repository, or behind a
  symbolic link, is watched when it appears but not after a rebuild
  (`Roots.NestedRepositoryIsNotRebuilt`, `Roots.LinkIsNotRebuilt`).
- Queue overflow makes the server read everything, but does not reconcile the watch set
  (the repository's README.md:70-72 speaks of recovery): a directory that appears when 4096 events
  are queued stays unwatched, although with nothing pending the server holds a full read
  (`Overflow.OverflowForgetsDirectory`, exactly when in `Overflow.NewDirectoryIsWatchedExactly`).
  `Watch.ReconcileIsNeededExactly` says when reconciling would have changed nothing.
- A plan that rereads the upstream keeps the head it had. If that head's upstream cannot be read
  any more, because its branch has been renamed, the refresh fails and the server of a readable
  repository ends (`PipelineRuns.StaleHeadStops`, exactly when in `PipelineRuns.TurnStopsExactly`).
  Batching can save it (`Repository.BatchingRescuesExactly`).
- The lexer tries keywords before identifiers, so `ORacle` is `OR` and `acle`
  (`SpdxLexer.TokenizeRoundTrip`), and any token may follow `WITH` (`Spdx.ParserCorrect`).
- `gitseer/refresh` accepts its option by position in an array as well (`Protocol.SnapshotOptionsOf`).

## Model

| member | source | states |
|---|---|---|
| Model.CombineAllMeaning | src/repository/model.rs:155-178 | Folding `combine` over plans gives everything iff the start or some plan asks for everything, nothing iff none asks for anything, and otherwise exactly the union of the named domains. |
| Model.CombineAllOrderIndependent | src/watch.rs:258-279 | The combined plan of a debounce turn is the same for every order of its events' plans. |
| Model.CombineAllCovers | src/repository/model.rs:169-178 | A combined plan promises a domain iff the start or one of its parts does. |
| Model.PlanOf | src/repository/model.rs:156-163 | A plan of domains promises exactly these, and refreshes iff it promises any. |
| Ordered.Insert | src/repository/paths.rs:82-86 | Inserting into a strictly sorted path list keeps it strictly sorted and adds exactly that path. |
| Ordered.FromSeq | src/repository/paths.rs:49-50 | Collecting paths into an ordered set gives the one strictly sorted list of exactly these paths. |
| Ordered.Difference | src/repository/paths.rs:52-53 | The difference of two strictly sorted lists is strictly sorted and holds exactly the paths of the first that the second lacks. |
| Paths.PathSetDeltaRoundTrip | src/repository/paths.rs:48-55 | Previous minus `removed` plus `added` is the current list; both are strictly sorted; the delta is empty iff the lists are equal. |
| Paths.PathSetDeltaMinimal | src/repository/paths.rs:48-55 | Whatever additions and removals lead from the previous to the current list contain those of the delta. |
| Paths.EntriesChangedExact | src/repository/paths.rs:20-35 | `entries_changed` is the strictly sorted list of exactly the paths whose entries differ, including paths that only one side has. |
| Paths.EntriesChangedTriangle | src/repository/paths.rs:20-35 | A path changed from a to c is changed from a to b or from b to c. |
| Paths.EntriesUnchanged | src/repository/paths.rs:20-62 | For entries sorted by path, no entry changed iff the entry lists are equal. |
| Paths.PathDeltaBlindness | src/repository/paths.rs:20-46 | For well-formed path states a path delta is empty iff the states agree on everything but the conflict stages. |
| Paths.StatusKeepsLists | src/repository/paths.rs:288-325 | The published status bits answer membership in each of the five lists as the raw libgit2 bits do. |
| PathAnswers.EntriesTell | src/repository/paths.rs:100-140 | When every path is reported once, a published entry tells the status of its path: each of the thirteen status fields iff that bit was reported, the two flags of the last flagged index entry, the four old and new paths of the two deltas, and the line counts; an entry without a status tells its flags alone. |
| PathAnswers.EveryPathIsPublished | src/repository/paths.rs:100-140 | A path has an entry iff it was reported or an index entry flags it. |
| PathAnswers.ListsTell | src/repository/paths.rs:90-125 | A path is on a list iff it was reported with one of that list's bits, which the statement names. |
| PathAnswers.BareIsEmpty | src/repository/paths.rs:68-70 | A bare repository publishes nothing. |
| Paths.SortByKeySorted | src/repository/paths.rs:129 | Sorting entries or conflicts by path leaves them sorted by path. |
| PathScan.AccumulateDiffLines | src/repository/paths.rs:236-265 | Over any list of diff lines every touched path gets its old counts plus the sum of its added and of its deleted lines, and no other path gets an entry. |
| PathAnswers.LineCounts | src/repository/paths.rs:243-261 | A line adds to the total of its origin for its new path, or for its old path if it has no new one, and for no other. |
| PathScan.DiffSummaries | src/repository/paths.rs:209-274 | Added plus changed lines are the additions of both diffs, removed plus changed lines the deletions, never both added and removed remain, and exactly the touched paths are reported. |
| PathScan.ConflictSummaries | src/repository/paths.rs:143-169 | The summaries are the conflicts that have a side, each once, sorted by path. |
| PathAnswers.SummariesTell | src/repository/paths.rs:145-167 | The summaries are the conflicts with a side, in order, each with its three sides and the path of the ancestor, or else of our side, or else of theirs. |
| PathAnswers.ConflictsTell | src/repository/paths.rs:166-167 | Published are exactly these, none before one of a smaller path. |
| PathAnswers.PathOrder | src/repository/paths.rs:129 | Paths are ordered like strings: a proper prefix comes first, and otherwise the smaller character at the first difference decides. |
| PathAnswers.SortIsStable | src/repository/paths.rs:129 | What is sorted by path keeps its order within one path. |
| PathScan.IncludeIndexFlagEntries | src/repository/paths.rs:171-207 | The in-place merge of index flags into the entries is the fold of `IncludeFlag`, whose meaning is `IncludeFlagsMeaning`. |
| PathScan.IncludeFlagsMeaning | src/repository/paths.rs:171-207 | For distinct paths an entry is in the merged list iff it is the status entry of its path with the flags of the last flagged index entry of the path, or, without a status entry, the bare entry of those flags. |
| PathScan.PublishedEntries | src/repository/paths.rs:100-140 | A path state publishes exactly the reported entries and the flagged index entries, merged by path. |
| PathScan.BuildPathState | src/repository/paths.rs:64-141 | The loop over the statuses fills the five lists and the entries as the specification `PathStateOf` says; a bare repository has an empty state. |
| PathScan.EntriesDetermineLists | src/repository/paths.rs:90-140 | Whatever libgit2 reports, each of the five lists is the sorted projection of the published entries by their status bits, flags included. |
| PathScan.EntriesDecideDelta | src/repository/model.rs:205-214 | For such path states a path delta reports a change iff `entries_changed` is not empty. |
| PathScan.WellFormedIffDistinct | src/repository/paths.rs:90-140 | A path state is well formed iff the repository is bare or libgit2 reported every path once. |
| Deltas.ApplyPatchToSnapshot | src/protocol/tests/mod.rs:220-261 | The reference client's field-by-field overwrite is `ApplyPatch`, which `PatchRoundTrip` and `PatchOnEquivalent` are about. |
| Deltas.DeltaBlindness | src/repository.rs:113-131 | For well-formed snapshots `has_changes` is false iff they agree on everything but `paths.conflicts`. |
| Deltas.PatchRoundTrip | src/repository/model.rs:103-119 | Applying the patch of a delta to the old snapshot gives the new one iff the path delta is not empty or the conflict stages are equal. |
| Deltas.PatchOnEquivalent | src/repository/model.rs:103-119 | A client whose copy agrees up to conflict stages agrees up to conflict stages after the patch. |
| Deltas.ConflictChangesAreSilent | src/repository/paths.rs:143-169 | Between the path states of the same statuses, flags and line counts but any two lists of index conflicts the delta is silent and its patch does nothing, although the snapshots differ whenever the published conflicts do. |
| Deltas.ConflictOnlyChangeIsSilent | src/repository/model.rs:50-64 | A conflict one side of which is staged anew gives a different snapshot, whose delta has no changes. |
| Repository.RefreshDomains | src/repository.rs:133-174 | The assignments one after the other, with an error return after each read, are the field-by-field read `ReadFrom`. |
| Repository.RefreshRepositoryWithPlan | src/repository.rs:70-111 | Without a previous snapshot or for a full plan a full read, for an empty plan the previous snapshot, otherwise the planned read; the plan reported is the one carried out. |
| Repository.ReadFromMeaning | src/repository.rs:133-174 | A partial read ends in a snapshot iff that snapshot keeps every unplanned field and holds in every planned one what its reader answers for the head the snapshot ends up with. |
| ReadAnswers.PartialReadAnswers | src/repository.rs:133-174 | A partial read gives a snapshot iff, field by field and named one by one, it holds the reader's answer where the domain is read and the old value where it is not. |
| ReadAnswers.RefreshAnswers | src/repository.rs:70-111 | A refresh is a full read without a snapshot or for a full plan, the old snapshot for an empty plan, and otherwise that partial read, and reports the plan carried out. |
| ReadAnswers.UnopenedFails | src/repository.rs:93-102 | A repository that does not open fails every refresh but an empty one with its own error. |
| Repository.FullReadIffFresh | src/repository.rs:26-68 | A full read yields a snapshot iff the repository opens and every field is what its reader answers. |
| ReadAnswers.FullReadAnswers | src/repository.rs:26-68 | A full read gives a snapshot iff the repository opens and each of the twelve readers, named one by one, answers its field: commit and upstream asked about the snapshot's head, the paths with the given options. |
| Repository.FullReadIsReadFrom | src/repository.rs:26-68 | Reading all domains into any snapshot whatever is a full read. |
| Repository.PartialRefreshExact | src/repository.rs:133-174 | A partial refresh equals a full read iff every field outside its domains was still right. |
| Repository.PartialRefreshRefinesFull | src/repository.rs:70-111 | From a full read of an earlier world, refreshing any set of domains that contains those whose readings differ is a full read of the present world, `upstream` included. |
| Repository.TwoReadsMerge | src/repository.rs:142-148 | Two partial reads in a row are one read of both domain sets unless only the second reads the head and only the first the upstream. |
| Repository.MergeExact | src/repository.rs:142-148 | Two reads always merge iff that exception does not occur. |
| Repository.LateHeadBreaksMerge | src/repository.rs:142-148 | In the exceptional case there is a repository where one read of both sets differs from the two reads. |
| Repository.PartialReadFails | src/repository.rs:142-148 | When a full read succeeds, a partial read fails iff it asks for the upstream but not for the head and the upstream of the head it keeps cannot be read; otherwise the head afterwards is the current one if it was asked for, the old one if not. |
| Repository.BatchingInvisible | src/watch.rs:264-266 | If every plan that rereads the head rereads the upstream, then refreshing once with the combined plan succeeds with the same snapshot wherever refreshing with each plan in turn succeeds. |
| Repository.RunPlansFails | src/main.rs:111-116 | When a full read succeeds, refreshing with each plan in turn fails iff a plan asks for the upstream before any asks for the head and the upstream of the first head cannot be read. |
| Repository.BatchingRescuesExactly | src/watch.rs:264-266 | One at a time fails although the combined refresh succeeds iff that is so and some plan asks for the head. |
| Repository.GroupingInvisible | src/watch.rs:264-273 | The same for every way to group the plans into debounce turns. |
| Classify.RefreshPlanForEvent | src/watch/classify.rs:16-45 | The loop over the paths of an event computes the fold of their plans, with the cases of failed, rescan, non-mutating and pathless events. |
| ClassifierAnswers.EventAnswers | src/watch/classify.rs:79-88 | An event with paths passes the callback, and asks for what its paths ask for, iff it is not one of three accesses: reading, opening, closing after reading. Those ask for nothing. |
| ClassifierAnswers.KindAnswers | src/watch/classify.rs:79-88 | Creations, modifications, removals, unknown kinds and closing after anything but reading pass the callback. |
| ClassifierAnswers.UnspecificAnswers | src/watch/classify.rs:23-44 | Failed notifications and rescans ask for everything, and so does an event without paths that passes the callback. |
| ClassifierAnswers.GitPathAnswers | src/watch/classify.rs:153-163 | A path below the git directory, or else below the common directory, is asked about by its text relative to it. |
| ClassifierAnswers.TextJoins | src/watch/classify.rs:157 | The text of a path is its components joined by slashes. |
| ClassifierAnswers.OutsideAnswers | src/watch/classify.rs:100-110 | A path outside the git directories and the worktree asks for everything, unless it is the excludes file. |
| ClassifierAnswers.WorktreeAnswers | src/watch/classify.rs:116-137 | Exactly what each kind of worktree path asks for, and nothing more. |
| ClassifierAnswers.FileAnswers | src/watch/classify.rs:164-287 | Each kind of git file, known by its name, asks for exactly the domains of a table, a branch for the paths iff it is HEAD's. |
| ClassifierAnswers.EarlySideFiles | src/watch/classify.rs:164-191 | The same for `ORIG_HEAD`, other index files, the rerere cache and commit messages. |
| ClassifierAnswers.FetchFile | src/watch/classify.rs:227-233 | The same for `FETCH_HEAD`. |
| ClassifierAnswers.LateSideFiles | src/watch/classify.rs:237-264 | The same for `packed-refs.new` and for logs other than that of the stash. |
| ClassifierAnswers.OperationSideFiles | src/watch/classify.rs:277-336 | The same for operation files that no reader looks at. |
| ClassifierAnswers.LockAnswers | src/watch/classify.rs:344-364 | A lock asks for what its file asks for iff the file is on the list of known locks, written out, and for nothing otherwise. |
| ClassifierAnswers.IgnoreRuleAnswers | src/watch/classify.rs:47-77 | An event may change the ignore rules iff one of its paths is the excludes file, `info/exclude`, `config` or `config.worktree` below a git directory, or a `.gitignore` of the worktree. |
| Classify.EventPlanClosed | src/watch/classify.rs:147-288 | For every path string and every event, a plan that names domains is not empty, contains upstream iff branches, and both whenever it contains the head. |
| Classify.CombineAllClosed | src/repository/model.rs:169-178 | That closure survives combining any list of plans. |
| Classify.EventPlanCovers | src/watch/classify.rs:26-42 | An event with paths asks for a domain iff one of its paths does. |
| Classify.FilteredEventHasNoPlan | src/watch/classify.rs:9-14 | An event that the callback filters out would have asked for nothing. |
| Classify.LockIsItsTarget | src/watch/classify.rs:344-364 | Taking or releasing the lock of a file that the lock table knows, under either git directory, asks for exactly what the file itself asks for. |
| Classify.EventPlanDrift | src/watch/classify.rs:366-377 | While the configured excludes file stays, an event's plan can lose between raising and classifying only the path state, when the branch that was current is not any more or the ignore rules changed, and path state or submodules, when the submodules changed. |
| Classify.PathLosesExactly | src/watch/classify.rs:90-137 | For any two environments, the excludes file included, a path's plan loses a domain iff: under the git directories, it is the path state of a branch that was current and is not; outside the worktree, any domain but the path state of a path that becomes the excludes file; in the worktree, by whether the path is the excludes file, ignored or in a submodule before and after. |
| Classify.EventLosesExactly | src/watch/classify.rs:26-42 | An event loses a domain iff some path asked for it, every path that did loses it, and no other path asks for it now. |
| Classify.HeadEventCovers | src/watch/classify.rs:184-191 | The event of HEAD or of its lock asks for head, upstream, branches and path state in every environment. |
| Classify.ReconfiguredExcludesShrinksPlan | src/watch/classify.rs:100-110 | A path outside the worktree asks for everything until it becomes the excludes file, then for the path state only. |
| Classify.FileArea | src/watch/classify.rs:147-288 | For every kind of git file that a reader looks at, by its own description of the file's text, the decision list finds the area of that kind. |
| Classify.ReadersAreCovered | src/watch/classify.rs:147-288 | The plan of a git file asks for a domain whose reader looks at the file iff the two are not one of the listed gaps; for the path state and a branch that is iff the branch is current. |
| Classify.EventCoversReaders | src/watch/classify.rs:147-163 | An event on a git file, or on its lock, asks for every domain whose reader looks at the file, outside the gaps. |
| Classify.WorktreeReadersAreCovered | src/watch/classify.rs:90-145 | The plan of a worktree path asks for a domain whose reader looks at the path, tracked or not, iff the two are not one of the listed gaps, among them tracked paths that are ignored. |
| Classify.WorktreePathCovers | src/watch/classify.rs:100-137 | A worktree path asks for the path state iff it holds ignore rules, belongs to an inner repository or is not ignored (a `.git` file aside), and for the submodules iff it holds no ignore rules and belongs to an inner repository. |
| EventQueue.DrainMeaning | src/watch.rs:262-273 | The drain loop takes the queue's first events up to what is left of its budget, leaves the rest in order, and combines exactly their plans in order. |
| EventQueue.DrainPendingPlanMeaning | src/watch.rs:258-279 | A turn takes a prefix of at most 256 events; its plan is everything iff the flag was set or a part asks for everything, and otherwise promises exactly what its parts promise. |
| EventQueue.DrainedPlanClosed | src/watch.rs:258-279 | A drained plan rereads the upstream and the branches whenever it rereads the head. |
| Pipeline.PendingSurvives | src/watch/classify.rs:216-226 | A domain that a waiting event asks for is still asked for after a change that is reported for it, although the event is classified anew then: late classification is safe. |
| Pipeline.DeliverKeepsPending | src/watch.rs:115-123 | Filtering an event out, or dropping it into the full queue, loses nothing that was pending. |
| Pipeline.TakeOverflowKeepsInv | src/watch.rs:82-87 | Taking the flag, whether or not an event was taken before it, puts everything into the plan in flight. |
| Pipeline.HandledKeepsInv | src/watch.rs:82-93 | What an event asked for when it left the queue is in the plan in flight, or no longer sound if the server throws it away. |
| Pipeline.CancelKeepsInv | src/main.rs:89-97 | A cancelled `next_event` takes what its event asked for out of what is sound, and nothing else. |
| Pipeline.MutateKeepsInv | src/repository.rs:133-174 | Any change of the repository at any moment, also between two reads, keeps the invariant: what it does not report is no longer sound. |
| Pipeline.PendingHeadIsPendingUpstream | src/repository.rs:142-148 | While a reread of the head is pending, so is one of the upstream. |
| Pipeline.ReadNextCovered | src/repository.rs:133-174 | Reading one field, while the repository may have changed since the field before, leaves every field of a sound domain fresh, still to be read or pending, and makes its domain sound. |
| Pipeline.StepKeepsInv | src/main.rs:97-121 | Every step keeps: each stale field of a sound domain of the cached snapshot is in the plan in flight, asked for by a waiting event, or covered by the overflow flag. |
| Pipeline.RunKeepsInv | src/main.rs:87-123 | The same for every run. |
| Convergence.Convergence | src/main.rs:97-121 | On every run of changes, deliveries, drops, cancellations, requests and single reads: with nothing pending the cached snapshot holds what a full read would see now in every sound domain, and is a full read if all are. |
| Convergence.RunStaysOnCourse | src/main.rs:97-121 | On a run on which each change is reported, no event is thrown away and no request reads with other options, everything stays sound, or becomes so when the full read in flight gets to it. |
| Convergence.HandoffConverges | src/main.rs:133-145 | After the full read at the handoff to the watcher, on every such run, also if changes fall into that read, the server holds a full read whenever nothing is pending: each change precedes the reading of its domain or raised an event. |
| Convergence.StepStaysSteady | src/main.rs:111-116 | If the repository can be read in full, the read in flight succeeds and the upstream of the head it leaves can be read, that stays so over every step of the server, and the server does not stop. |
| Convergence.QuietRun | src/watch.rs:258-279 | When the repository holds still, each step of the server uses up some of a bounded amount of work and takes nothing out of what is sound. |
| Convergence.Settles | src/main.rs:97-121 | From any reachable state of a subscribed server, a quiet repository that can be read in full, with the upstream of the head that the server holds, leaves at most `Work` steps, after which the server runs and the cached snapshot is fresh in all that was sound. |
| PipelineRuns.UndisturbedRead | src/repository.rs:133-174 | The reading steps without a change in between amount to the sequential partial read, failures included. |
| PipelineRuns.UndisturbedJob | src/repository.rs:70-111 | The same for opening, reading and storing. |
| PipelineRuns.UndisturbedDrain | src/watch.rs:262-273 | The draining steps without a change in between amount to the drain loop. |
| PipelineRuns.UndisturbedTurn | src/main.rs:102-121 | A turn during which nothing happens stores what `refresh_repository_with_plan` returns for the plan of `drain_pending_plan`, with or without a snapshot to start from, or ends the server where it fails. |
| PipelineRuns.TurnStopsExactly | src/main.rs:111-116 | When the repository can be read in full, such a turn ends the server iff there is a cached snapshot, the drained plan rereads the upstream but not the head, and the upstream of the cached head cannot be read. |
| PipelineRuns.StaleHeadStops | src/repository/identity.rs:104-137 | For every snapshot and other head there is a run on which a fetch and then a rename of the current branch end the server although a full read would succeed. |
| PipelineRuns.UndisturbedRequest | src/protocol.rs:238-267 | A refresh or subscribe request during which nothing happens stores a full read, or leaves the cache alone. |
| PipelineRuns.UndisturbedFullRead | src/main.rs:194-212 | A full read for a subscriber, without a request and undisturbed, stores the snapshot or ends the server. |
| PipelineRuns.LosingForgets | src/watch.rs:82-93 | For every event that suspends its handling and asks for something there is a run, with everything sound until then, on which a line cancels its handling and leaves a stale snapshot with nothing pending. |
| PipelineRuns.CancellationKeepsPrefix | src/watch.rs:170-206 | An interrupted event leaves the watch set that an event with the paths handled so far would leave; an interrupted reconciliation leaves the old one. |
| PipelineRuns.CancellationExact | src/main.rs:89-97 | A line that comes as soon as it can is harmless on all runs iff the event asks for nothing or is handled without an await. |
| PipelineRuns.OneChangeExact | src/main.rs:97-121 | After a change of one field that raises one event, when all has been dealt with, the server holds a full read iff the event asks for the field's domain. |
| PipelineRuns.GapsGoStale | src/watch/classify.rs:147-288 | For every git file, reader and snapshot: after a change that the event on the file announces, the server holds a full read iff the reader and the file are not a gap. |
| PipelineRuns.WorktreeGapsGoStale | src/watch/classify.rs:90-145 | The same for every worktree path, tracked or not. |
| PipelineRuns.TrackedIgnoredFileGoesStale | src/watch/classify.rs:130-145 | For every ignored path outside inner repositories there is a run on which its modification, which a status scan reports if it is tracked, leaves a stale path state with nothing pending. |
| Overflow.EnqueueAllMeaning | src/watch.rs:115-123 | Of any events the queue takes the first ones up to 4096 in all, and the flag is set iff there were more. |
| Overflow.WorksOff | src/main.rs:97-121 | A steady server whose events have been delivered reaches, by its own steps, a state with nothing pending, where a directory is watched iff it was or its event was waiting. |
| Overflow.NewDirectoryIsWatchedExactly | src/watch.rs:83-87 | A directory that appears after a burst of events that have nothing to do with it: on a run that ends subscribed, with nothing pending and a full read, it is watched iff the burst has fewer than 4096 events. |
| Overflow.OverflowForgetsDirectory | src/watch.rs:83-87 | Such a burst exists, so that overflow recovery can leave a directory unwatched. |
| PipelineRuns.SubscribeFreshExactly | src/protocol.rs:253-267 | An undisturbed subscribe with nothing pending leaves the cache fresh iff its read succeeds or the cache was fresh already. |
| PipelineRuns.FailedSubscribeStaysStale | src/protocol.rs:253-267 | The second case occurs: there is a run that ends subscribed, with nothing pending and a stale snapshot, because a subscribe could not read. |
| PipelineRuns.IgnoredBaselineExact | src/protocol.rs:238-243 | After a refresh with ignored paths the cached snapshot is a default full read iff ignored paths make no difference. |
| Roots.CollectWorktreeWatchDirs | src/watch/roots.rs:88-115 | The recursion appends to the shared vector exactly the traversal of its directory, keeping what was there. |
| Roots.WorktreeWatchDirsFrom | src/watch/roots.rs:74-82 | Nothing for an ignored start, otherwise the traversal from it, links on the way followed. |
| Roots.TraversalExact | src/watch/roots.rs:70-115 | A full traversal visits each directory that can be reached without entering an ignored directory, `.git`, an unreadable directory or the inside of a nested repository, once, and nothing else. |
| Roots.TraversalByEntries | src/watch/roots.rs:88-115 | A path is visited iff entries lead to it from the worktree: each a directory of that name, not `.git` and not ignored, in a directory that can be read and is the worktree itself or has no `.git` inside. |
| Roots.BelowIsTraversal | src/watch/roots.rs:88-115 | Of a traversal, the part at or below a start that it reaches is, in order, the traversal from the start; below any other start it has nothing. |
| Roots.IncrementalDiscoveryExact | src/watch/roots.rs:74-82 | Discovery from a start agrees with a rebuild below it iff the start is itself watched or ignored. |
| Roots.NestedRepositoryIsNotRebuilt | src/watch/roots.rs:95-97 | A directory inside a nested repository is discovered from itself and missing from a rebuild. |
| Roots.LinkIsNotRebuilt | src/watch/roots.rs:107-112 | A link to a directory is traversed when it is the start, and left out of a rebuild. |
| Roots.InsertTargetsMeaning | src/watch/roots.rs:131-146 | A path is a target iff it was inserted, and recursive iff some insertion asked for that, in every order. |
| Roots.WatchTargetsMeaning | src/watch/roots.rs:22-53 | The targets are the existing ones of worktree directories, git and common directory and excludes file; exactly the git and common directory are recursive. |
| Watch.StartWatcher | src/watch.rs:43-76 | There is no watcher iff the repository cannot be read or one of its targets cannot be watched; a new one has an empty queue and watches all its targets. |
| Watch.RepositoryWatcher.constructor | src/watch.rs:66-75 | A new watcher has an empty queue, no overflow, and watches its targets in their modes. |
| Watch.RepositoryWatcher.EnqueueEvent | src/watch.rs:115-123 | A queue of fewer than 4096 events grows at its end; a full one stays and the flag is set. |
| WatchAnswers.EnqueueAnswers | src/watch.rs:115-123 | The bound of the queue is 4096. |
| Watch.RepositoryWatcher.TakeQueueOverflow | src/watch.rs:95-97 | Returns the flag and clears it. |
| Watch.RepositoryWatcher.NextEvent | src/watch.rs:82-93 | The flag becomes an error event without touching queue or watch set; otherwise the oldest event, after the watch set has been updated for it. |
| Watch.RepositoryWatcher.UpdateWatchesForEvent | src/watch.rs:126-145 | Rescans and changed ignore rules reconcile, other events add directories, and the roots stay in step with the backend. |
| WatchAnswers.ReconcilingEvents | src/watch.rs:126-143 | A rescan, or a path of ignore rules, replaces targets and directories by those found, if any are; a failed notification changes nothing. |
| WatchAnswers.FoundDirectoriesClassify | src/watch.rs:262-273 | Once a drained event has made the watcher look for its targets, that event and all drained after it are classified by the directories found. |
| WatchAnswers.DiscoveringKinds | src/watch.rs:247-256 | Otherwise the paths are discovered iff there is a worktree and the event is of any kind, creates anything or a folder, or modifies anything or a name. |
| WatchAnswers.SuspendingEvents | src/watch.rs:82-93 | Handling waits for another thread iff the event is a rescan, is on a file of ignore rules, or is of one of these kinds with a directory of the worktree that is not yet watched when its turn comes. |
| WatchAnswers.PassedOver | src/watch.rs:184-189 | Paths under the git directories, outside the worktree or of no directory change nothing. |
| WatchAnswers.EveryDirectoryIsWatched | src/watch.rs:177-181 | Every path of such an event that is a directory of the worktree and can be watched is watched afterwards. |
| Watch.RepositoryWatcher.ReconcileWatchTargets | src/watch.rs:147-168 | If the repository can be read, targets and directories are replaced; otherwise nothing changes. |
| Watch.RepositoryWatcher.AddWorktreeWatchesForEvent | src/watch.rs:170-181 | The paths of an event that can create a directory are handled in order. |
| Watch.RepositoryWatcher.AddWorktreeWatchIfNeeded | src/watch.rs:183-206 | Directories that are gone are forgotten before the new one is looked for and discovered. |
| Watch.RepositoryWatcher.ReplaceWatchTargets | src/watch.rs:208-224 | The watch set becomes the old one cut down to the targets and then extended by them. |
| Watch.RepositoryWatcher.WatchRoot | src/watch.rs:226-233 | A watched path stays as it is; another is added if the backend accepts it. |
| Watch.RepositoryWatcher.RetainRoots | src/watch.rs:213-220 | Exactly the roots to keep remain, in order, and the others are unwatched. |
| Watch.RepositoryWatcher.PruneStaleWorktreeWatchRoots | src/watch.rs:235-244 | Exactly the roots of the worktree that are gone are unwatched and forgotten. |
| Watch.RepositoryWatcher.DrainPendingPlan | src/watch.rs:258-279 | The drain loop with its updates of the watch set is `DrainWatching`; a set flag gives the full plan and leaves the queue. |
| Watch.AddTargetsMeaning | src/watch.rs:221-223 | After adding targets exactly the old paths and the acceptable targets are watched, old ones in their old mode, new ones in that of their first target. |
| Watch.RetainMeaning | src/watch.rs:213-220 | Retaining keeps exactly the paths to keep, and list and backend stay in step. |
| Watch.ReplaceMeaning | src/watch.rs:208-224 | After replacing exactly the targets that were watched or can be watched are, the former in their old mode. |
| Watch.ReconcileIsRestartExact | src/watch.rs:208-233 | Reconciling leaves what a restarted watcher would watch iff every target that was watched before has its new mode and could be watched anew. |
| Watch.ReconcileIsNeededExactly | src/watch.rs:208-233 | Not reconciling leaves what reconciling would iff every watched path is a target and every target that can be watched is watched. |
| Watch.DiscoveryMeaning | src/watch.rs:183-206 | The event of a directory that is to be discovered leaves watched what was and is not gone, in its mode, and what is discovered from it and can be watched, each nonrecursively, and nothing else. |
| Watch.DirectoryEventIsRestartExact | src/watch.rs:183-206 | After the event of a new worktree directory the watch set agrees with a restart's, at and below the directory, iff a rebuild would watch it or it is ignored. |
| Watch.DrainWatchingDrains | src/watch.rs:258-279 | While the repository's directories stay where they are, a drain of the watcher is the drain of its queue, whatever happens to the watch set. |
| Watch.HandledAtOnceOnlyPrunes | src/watch.rs:126-206 | An event that is handled without an await adds no watch and moves no directory; at most it forgets directories that are gone. |
| Protocol.ProcessState.constructor | src/protocol.rs:99-106 | Not subscribed, no snapshot, version 0. |
| Protocol.ProcessState.NextVersion | src/protocol.rs:120-123 | The version advances by one and is returned. |
| Protocol.ProcessState.RecordBaselineInPlace | src/protocol.rs:125-132 | The state and parameters of a new baseline. |
| Protocol.ProcessState.RecordUpdateInPlace | src/protocol.rs:138-163 | The state and delta of an update: silent when nothing changed, a baseline when there was none. |
| Protocol.ProcessState.SnapshotUpdateMessages | src/protocol.rs:309-330 | The messages of an update, as `Replica.UpdateCases` classifies them. |
| Protocol.ProcessState.DispatchInPlace | src/protocol.rs:223-282 | Each method's effect on the state and its messages. |
| Protocol.ProcessState.HandleRequest | src/protocol.rs:166-283 | The order of the checks of a line, and the suppression of responses without an id. |
| Protocol.DeserializationNeverFails | src/protocol.rs:216-221 | After the checks the deserialization of a request succeeds: its error branch is dead. |
| Protocol.MalformedLine | src/protocol.rs:167-214 | A malformed line gets one error response and leaves the state alone. |
| ProtocolAnswers.ValidLines | src/protocol.rs:190-214 | A line is taken for a request iff it is an object with version "2.0", a string method, an id that is null, string or number if there is one, and params that are null, object or array if there are any. |
| ProtocolAnswers.InvalidAnswers | src/protocol.rs:167-214 | Any other line is answered by one error, -32700 or -32600, with its id if that is valid and null otherwise. |
| ProtocolAnswers.InvalidDetails | src/protocol.rs:167-214 | The detail of that error is the first thing wrong with the line. |
| ProtocolAnswers.OptionsAnswers | src/protocol.rs:369-387 | The params give ignored paths or not by name, by position or by absence, or they are refused with -32602. |
| ProtocolAnswers.SubscribeAnswers | src/protocol.rs:253-268 | "gitseer/subscribe" leaves the process subscribed whatever the read answers; a snapshot read with default options becomes the next version and is sent after the reply. |
| ProtocolAnswers.UnsubscribeAnswers | src/protocol.rs:269-272 | "gitseer/unsubscribe" leaves it unsubscribed and changes nothing else. |
| ProtocolAnswers.SubscriptionFlag | src/protocol.rs:253-272 | After any other line the process is subscribed iff it was. |
| ProtocolAnswers.GetSnapshotAnswers | src/protocol.rs:226-237 | "gitseer/getSnapshot" answers what the read gives for the options of the params, and changes nothing. |
| ProtocolAnswers.RefreshAnswers | src/protocol.rs:238-252 | "gitseer/refresh" answers the same snapshot as the next version, which it becomes. |
| ProtocolAnswers.InitializeAnswers | src/protocol.rs:225 | "initialize" answers the capabilities. |
| ProtocolAnswers.OtherMethodAnswers | src/protocol.rs:273-280 | Every other method is refused with -32601. |
| ProtocolAnswers.FailedReads | src/protocol.rs:229-234 | A failed read is answered by -32603 and the reason. |
| ProtocolAnswers.FirstUpdate | src/protocol.rs:313-320 | Without a baseline a new snapshot is sent in full as the next version. |
| ProtocolAnswers.LaterUpdate | src/protocol.rs:147-162 | With one, each flag of the delta that is sent tells whether its field changed, and the patch carries the fields that did and no others. |
| Protocol.RequestDiscipline | src/protocol.rs:166-307 | Every line gets at most one response, first, with either a result or an error; with an id it is one response with that id, without an id none; the version never goes back (sections 4.1 and 5 of the JSON-RPC 2.0 Specification). |
| Protocol.NotificationsStay | src/protocol.rs:298-307 | Without an id no response is left and every notification is. |
| Replica.UpdateCases | src/protocol.rs:309-330 | An update sends a baseline if there was none, and otherwise nothing exactly in the cases where the client need not see it, or one delta to the next version whose patch carries every equivalent copy along. |
| Replica.ServeCases | src/protocol.rs:166-330 | Every line and every refresh keeps the version without sending state, or starts a new baseline, or sends one delta against the last version. |
| Replica.RunKeepsInv | src/protocol.rs:120-163 | On every run each message ever sent stays true of the versions it names and the client's copy is that of its version. |
| Replica.ClientHoldsItsVersion | src/protocol.rs:138-163 | Over a channel that loses, repeats and reorders, and with suppressed responses, a client's copy is the server's snapshot of that version up to conflict stages, and the current one at the current version. |
| Replica.VersionsAreMonotonic | src/protocol.rs:120-123 | Versions never go back, a version never changes its snapshot, and a client never returns to an older one. |
| Replica.DeltaTellsWhatItIs | src/protocol.rs:153-162 | From the versions alone a client tells a delta it needs, one it has had, and one that shows it missed another. |
| Replica.RefreshRecovers | src/protocol.rs:238-243 | Whatever a client missed, the response to a refresh with an id puts it in step. |
| Replica.InStepExact | src/protocol.rs:298-307 | A client that receives everything stays in step across an action iff the action is not a refresh without an id. |
| Server.ServeScript | src/main.rs:75-178 | The loop over its mutable variables, for any finite script of what the selects pick, emits and ends as `RunLoop`. |
| Server.IterateInPlace | src/main.rs:87-175 | One iteration in each of the four modes. |
| ServerAnswers.EndAnswers | src/main.rs:91-101 | The end of the input or of the watcher ends the server with its goodbye in every mode. |
| ServerAnswers.GoodbyeAtEnd | src/main.rs:168-171 | Whatever a run has done, its output ends with that goodbye when the input ends. |
| ServerAnswers.LineAnswers | src/main.rs:151-174 | After a line a watcher is being started iff one was or, without one, the process is subscribed; polling goes on only while it is. |
| ServerAnswers.SubscriptionStartsWatcher | src/main.rs:166-173 | After a valid "gitseer/subscribe" there is a watcher or one being started. |
| ServerAnswers.WatchEventAnswers | src/main.rs:102-121 | An event updates a subscriber iff it and the debounced plan ask for something; a failed refresh ends the server. |
| ServerAnswers.HandoffAnswers | src/main.rs:133-149 | A started watcher replaces the one being started, a failed one leaves polling, and with either and every tick a subscriber is updated by a full read. |
| ServerAnswers.SubscriberIsServed | src/main.rs:88-165 | A subscriber is offered ticks exactly until it has a watcher, its start exactly while it is being started, and then the watcher's events; a line always. |
| Server.RefreshIfSubscribed | src/main.rs:194-214 | Nothing without a subscriber; otherwise the update of a full read, whose failure ends the server. |
| Server.SubscriberAlwaysCovered | src/main.rs:87-175 | At every loop head a subscriber has a watcher, one being started, or polling, and an active watcher excludes one being started. |
| Server.WatcherStays | src/main.rs:88-123 | An active watcher stays active over every run. |
| Server.HandoffReadsEverything | src/main.rs:133-149 | The handoff to a watcher or to polling, and each tick, leave a running server with exactly what was read in full. |
| Server.ScriptServes | src/main.rs:87-175 | The output of a run is what the stream contract sends for the run's actions, up to a final goodbye. |
| EndToEnd.ScriptIsReplicaRun | src/main.rs:87-175 | Every run of the server with sound reads is a run of the stream contract with the same end, so that the replication theorems hold of it. |
| EndToEnd.ScriptKeepsClientInStep | src/main.rs:87-175 | After every run a client that received all output, without a refresh without an id, is in step with the server. |
| EndToEnd.IterationIsPipelineRun | src/main.rs:102-121 | An undisturbed iteration in watcher mode, from the classified event on, is a run of the pipeline: both end with the same snapshot, or both end the server. |
| EndToEnd.LineIsPipelineRun | src/main.rs:90-96 | Any line, with reads of the repository as it is, is a run of the pipeline that ends with the same snapshot and the same subscription. |
| EndToEnd.FullReadIsPipelineRun | src/main.rs:131-164 | A tick, or the start of the watcher or of polling, is for a subscriber a run of the pipeline that ends in the same state. |
| EndToEnd.ClientHoldsTheRepository | src/main.rs:87-175 | On every run of the pipeline with its process and client: the client holds the cached snapshot up to conflict stages, and, with nothing pending and everything sound, what a full read of the repository returns now. |
| Spdx.Parser.ParseAll | scripts/ci/check-licenses.py:47-51 | The in-place parser returns the evaluation of the parsed tree, or the error of the parse, which does not depend on the approved sets. |
| Spdx.Parser.ParseDisjunction | scripts/ci/check-licenses.py:53-58 | The loop over alternatives returns the value of the tree parsed from the position and stops behind it. |
| Spdx.Parser.ParseConjunction | scripts/ci/check-licenses.py:60-65 | The same for requirements. |
| Spdx.Parser.ParseException | scripts/ci/check-licenses.py:67-72 | The same for an operand of AND with its exception. |
| Spdx.Parser.ParseAtom | scripts/ci/check-licenses.py:74-83 | The same for a licence or a parenthesised expression. |
| Spdx.Parser.Accept | scripts/ci/check-licenses.py:85-89 | Advances by one iff the expected token stands at the position. |
| Spdx.Parser.Take | scripts/ci/check-licenses.py:96-101 | Returns the token at the position and advances, or fails at the end without advancing. |
| Spdx.OrIsSound | scripts/ci/check-licenses.py:53-58 | What is parsed from a position is a tree of the grammar whose rendering is exactly the tokens consumed. |
| Spdx.ParseRendered | scripts/ci/check-licenses.py:47-83 | Parsing the rendering of a tree of the grammar gives the tree back. |
| Spdx.ParserCorrect | scripts/ci/check-licenses.py:47-83 | The parser accepts a token list iff it renders some tree, and returns a tree iff the list is its rendering, so no list has two trees. |
| Spdx.AndBindsTighter | scripts/ci/check-licenses.py:53-65 | AND binds tighter than OR on either side. |
| SpdxAnswers.Groups | scripts/ci/check-licenses.py:67-78 | Parentheses hold an expression, and WITH takes the token after it. |
| SpdxAnswers.SingleToken | scripts/ci/check-licenses.py:80-83 | A single token is a licence unless it is AND, OR, WITH or a parenthesis, with the error of each. |
| SpdxAnswers.MalformedTokens | scripts/ci/check-licenses.py:47-51 | The errors of no tokens, of two licences in a row and of a missing exception. |
| SpdxAnswers.UnclosedParenthesis | scripts/ci/check-licenses.py:91-94 | The error of a parenthesis that is not closed, with what stands there. |
| Spdx.EvalIsApprovedChoice | THIRD_PARTY.md:7-23 | An expression evaluates to true iff some choice of one alternative per OR needs only approved licences and exceptions. |
| Spdx.EvalMonotone | THIRD_PARTY.md:7-23 | Approving more never turns a pass into a failure. |
| SpdxLexer.Tokenize | scripts/ci/check-licenses.py:25-39 | Jumping from match to match and inspecting the gaps is lexing character by character. |
| SpdxLexer.SkipToMatch | scripts/ci/check-licenses.py:30-37 | From any place lexing goes on at the next match iff there is only white space before it, and fails otherwise with the rest from the last token on. |
| SpdxLexer.TokenizeConserves | scripts/ci/check-licenses.py:25-39 | The tokens put together are the slash-normalised text without its white space. |
| SpdxAnswers.SlashIsOr | scripts/ci/check-licenses.py:26 | A slash between any two texts is lexed as OR. |
| SpdxAnswers.OtherCharactersFail | scripts/ci/check-licenses.py:22-37 | An expression with a character other than letters, digits, white space and `().+-/` is refused. |
| SpdxAnswers.PunctuationDoesNotBegin | scripts/ci/check-licenses.py:22 | An expression that begins with a dot, a plus or a hyphen is refused. |
| SpdxAnswers.BlankIsEmpty | scripts/ci/check-licenses.py:104-107 | A blank expression is refused as empty. |
| SpdxLexer.TokenizeRoundTrip | scripts/ci/check-licenses.py:22 | Lexing tokens joined with spaces gives them back iff no identifier begins with a keyword. |
| SpdxLexer.Compatible | scripts/ci/check-licenses.py:104-108 | The check as a whole: lexical errors, the empty expression, parse errors, and the value. |
| SpdxLexer.CompatibleMeaning | THIRD_PARTY.md:7-23 | An expression passes iff its tokens render a tree with a complete path of approved licences and exceptions, and gets an answer at all iff they render a tree. |
| SpdxLexer.CompatibleOfRendered | scripts/ci/check-licenses.py:104-108 | A written-out tree whose identifiers hide no keyword is answered with its value. |
| SpdxAnswers.OneLicence | scripts/ci/check-licenses.py:12-20 | An identifier without a keyword at its start is compatible iff it is one of the seven licences, which the statement names. |
| SpdxAnswers.Alternative | scripts/ci/check-licenses.py:26 | Two of them with OR or a slash between are compatible iff one is among the seven. |
| SpdxAnswers.Conjunction | scripts/ci/check-licenses.py:60-65 | With AND, iff both are. |
| SpdxAnswers.Exception | scripts/ci/check-licenses.py:67-72 | With WITH, iff the first is among the seven and the second is `LLVM-exception`. |

## Left out

- Convergence.Convergence: speaks of sound domains only, because a change that raises no event for a domain cannot be noticed before its next read; the locations of the repository's directories are fixed.
- Convergence.Settles: asks that the read in flight succeeds and the upstream of the head it leaves can be read, because a failed refresh ends the server.
- Pipeline.StepKeepsInv: speaks of the watcher mode only; polling reads everything at every tick (`Server.HandoffReadsEverything`).
- Replica.ClientHoldsItsVersion: up to `paths.conflicts`, because deltas do not carry a change of the conflict stages alone.
- Watch.RepositoryWatcher.constructor: does not fail; `Watch.StartWatcher` does when a target cannot be watched, and the server then falls back to polling (`Server.IterateInPlace`).
- Watch.RepositoryWatcher.NextEvent: neither waits nor is cancelled; an empty queue returns no event, cancellation is `Pipeline.Cancelled`, and the end of the channel is `Server.WatcherStopped`.
- Watch.RepositoryWatcher.DrainPendingPlan: takes the queue as it is at the start of the turn; events that arrive or overflow during the turn are in `Pipeline`.
- Roots.WatchTargetsMeaning: the targets are a map here; the source lists them in path order.
- PathScan.ConflictSummaries: does not state that sorting is stable among conflicts of one path.
- Protocol.ProcessState.NextVersion: versions are unbounded, the source's wrap at 64 bits.
- Protocol.ProcessState.HandleRequest: parsing and printing JSON, and the texts of serde's errors, are left to the library; duplicate members of an object are gone when the model sees it.
- SpdxLexer.Tokenize: characters are code points, and Python's white space is spelt out.
- libgit2 queries behind the domains (identity, refs, operations, submodules, worktrees) are readers of a `World`; how they compute their answers is not modelled.
- Gitignore matching, submodule lookup, path canonicalisation and the configured excludes file are predicates of an `Environment` or parameters.
- Real time, tokio scheduling and the 50 ms debounce delay are nondeterministic steps.
- Non-UTF-8 paths are those without text; lossy conversion of git paths is not modelled.
- The command line, stdout, the capabilities text, `cargo metadata` and the shell scripts are plumbing.
