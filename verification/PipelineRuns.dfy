/** Particular runs of the pipeline: an undisturbed turn is exactly the sequential code, and the
    runs on which the snapshot stays stale although nothing is pending. */
module PipelineRuns {
  import opened Wrappers
  import opened Model
  import opened Repository
  import opened Classify
  import opened EventQueue
  import opened Watch
  import opened Pipeline
  import opened Convergence

  lemma {:induction false} RunConcat(layout: Layout, s: State, a: seq<Step>, b: seq<Step>)
    requires ValidRun(layout, s, a) && ValidRun(layout, Run(layout, s, a), b)
    ensures ValidRun(layout, s, a + b)
    ensures Run(layout, s, a + b) == Run(layout, Run(layout, s, a), b)
    decreases |a|
  {
    if a == [] {
      assert a + b == b;
    } else {
      RunConcat(layout, Apply(layout, s, a[0]), a[1..], b);
      assert (a + b)[1..] == a[1..] + b;
    }
  }

  lemma RunOne(layout: Layout, s: State, step: Step)
    requires Enabled(layout, s, step)
    ensures ValidRun(layout, s, [step]) && Run(layout, s, [step]) == Apply(layout, s, step)
  {
  }

  lemma RunThen(layout: Layout, s: State, a: seq<Step>, step: Step)
    requires ValidRun(layout, s, a) && Enabled(layout, Run(layout, s, a), step)
    ensures ValidRun(layout, s, a + [step])
    ensures Run(layout, s, a + [step]) == Apply(layout, Run(layout, s, a), step)
  {
    RunOne(layout, Run(layout, s, a), step);
    RunConcat(layout, s, a, [step]);
  }

  // ---------------------------------------------------------------- undisturbed turns

  /** What is sound after reading from `at` on. */
  ghost function KeptFrom(job: Job, at: nat, kept: set<RefreshDomain>): set<RefreshDomain>
    requires at <= FIELDS
    decreases FIELDS - at
  {
    if at == FIELDS then kept
    else KeptFrom(job, at + 1, if DomainOf(FieldAt(at)) in job.domains then KeptAfter(kept, FieldAt(at), job.options) else kept)
  }

  /** A full read with default options makes everything sound. */
  lemma {:induction false} KeptOfFull(job: Job, at: nat, kept: set<RefreshDomain>)
    requires at <= FIELDS && job.domains == ALL_DOMAINS && job.options == DEFAULT_OPTIONS
    requires forall d: RefreshDomain :: d in kept || FirstIndex(d) >= at
    ensures KeptFrom(job, at, kept) == ALL_DOMAINS
    decreases FIELDS - at
  {
    AllDomains(kept);
    if at < FIELDS {
      EveryDomain(FieldAt(at));
      var next := KeptAfter(kept, FieldAt(at), job.options);
      forall d: RefreshDomain ensures d in next || FirstIndex(d) >= at + 1 {
        if FirstIndex(d) == at { assert DomainOf(FieldAt(at)) == d; }
        assert Head in kept || FirstIndex(Head) >= at;
      }
      KeptOfFull(job, at + 1, next);
    }
  }

  ghost function AfterRead(s: State, job: Job, result: Result<RepositorySnapshot, SnapshotError>, kept: set<RefreshDomain>): State {
    match result
    case Ok(r) => s.(phase := Reading(job, FIELDS, r, kept))
    case Err(_) => FailJob(s, job)
  }

  lemma ReadOneStep(s: State)
    requires s.phase.Reading? && s.phase.at < FIELDS
    ensures var Reading(job, at, next, kept) := s.phase;
      var s' := ReadOne(s);
      var result := ReadFrom(s.world, next, at, job.domains, job.options);
      && (s'.phase.Reading? ==>
            && s' == s.(phase := Reading(job, at + 1, s'.phase.next, s'.phase.kept))
            && result == ReadFrom(s.world, s'.phase.next, at + 1, job.domains, job.options)
            && KeptFrom(job, at, kept) == KeptFrom(job, at + 1, s'.phase.kept))
      && (!s'.phase.Reading? ==> result.Err? && s' == FailJob(s, job))
  {
  }

  /** Reading field by field without a change in between is `ReadFrom`, failures included. */
  lemma {:induction false} UndisturbedRead(layout: Layout, s: State) returns (steps: seq<Step>)
    requires s.phase.Reading? && s.phase.at <= FIELDS
    ensures ValidRun(layout, s, steps)
    ensures var Reading(job, at, next, kept) := s.phase;
      Run(layout, s, steps)
        == AfterRead(s, job, ReadFrom(s.world, next, at, job.domains, job.options), KeptFrom(job, at, kept))
    decreases FIELDS - s.phase.at
  {
    if s.phase.at == FIELDS {
      steps := [];
    } else {
      var s' := Apply(layout, s, ReadNext);
      RunOne(layout, s, ReadNext);
      ReadOneStep(s);
      steps := [ReadNext];
      if s'.phase.Reading? {
        var rest := UndisturbedRead(layout, s');
        RunConcat(layout, s, [ReadNext], rest);
        steps := steps + rest;
      }
    }
  }

  ghost function SoundAfter(s: State, job: Job): set<RefreshDomain> {
    KeptFrom(job, 0, if s.cached.Some? then s.sound else {})
  }

  /** A job that is carried out undisturbed ends with the snapshot of the sequential code, or
      fails where it fails. */
  lemma UndisturbedJob(layout: Layout, s: State) returns (steps: seq<Step>)
    requires s.phase.Opening?
    ensures ValidRun(layout, s, steps)
    ensures var job := s.phase.job;
      var result := if s.world.discover.Some? then Err(s.world.discover.value)
                    else ReadFrom(s.world, s.cached.UnwrapOr(BLANK), 0, job.domains, job.options);
      Run(layout, s, steps) ==
        match result
        case Ok(r) => s.(cached := Some(r), phase := Idle, sound := SoundAfter(s, job))
        case Err(_) => FailJob(s, job)
  {
    steps := [Open];
    RunOne(layout, s, Open);
    if s.world.discover.None? {
      var begun := Apply(layout, s, Open);
      var rest := UndisturbedRead(layout, begun);
      RunConcat(layout, s, steps, rest);
      steps := steps + rest;
      if ReadFrom(s.world, s.cached.UnwrapOr(BLANK), 0, s.phase.job.domains, s.phase.job.options).Ok? {
        RunThen(layout, s, steps, Commit);
        steps := steps + [Commit];
      }
    }
  }

  lemma {:induction false} UndisturbedDrain(layout: Layout, s: State) returns (steps: seq<Step>)
    requires s.phase.Draining?
    ensures ValidRun(layout, s, steps)
    ensures var (box, plan) := Drain(s.env, layout, s.box, s.phase.plan, s.phase.drained);
      var last := Run(layout, s, steps);
      && last.phase.Draining? && last == s.(box := box, phase := Draining(plan, last.phase.drained), watches := last.watches)
      && Enabled(layout, last, EndDrain)
    decreases |s.box.queue|
  {
    if s.box.queue == [] || s.phase.drained >= MAX_DEBOUNCE_DRAIN_EVENTS {
      steps := [];
    } else {
      var s' := Apply(layout, s, DrainOne);
      RunOne(layout, s, DrainOne);
      var rest := UndisturbedDrain(layout, s');
      steps := [DrainOne] + rest;
      RunConcat(layout, s, [DrainOne], rest);
    }
  }

  lemma DrainedPlanRefreshes(layout: Layout, s: State, initial: RefreshPlan)
    requires initial.ShouldRefresh()
    ensures DrainPendingPlan(s.env, layout, s.box, initial).1.ShouldRefresh()
  {
    if !s.box.overflowed {
      DrainMeaning(s.env, layout, s.box, initial, 0);
      var n := if |s.box.queue| < MAX_DEBOUNCE_DRAIN_EVENTS then |s.box.queue| else MAX_DEBOUNCE_DRAIN_EVENTS;
      CombineAllMeaning(initial, PlansForEvents(s.env, layout, s.box.queue[..n]));
    }
  }

  lemma UndisturbedDebounce(layout: Layout, s: State) returns (steps: seq<Step>)
    requires s.phase.Debouncing? && s.phase.plan.ShouldRefresh()
    ensures ValidRun(layout, s, steps)
    ensures var (box, plan) := DrainPendingPlan(s.env, layout, s.box, s.phase.plan);
      var last := Run(layout, s, steps);
      last == Start(s.(box := box, watches := last.watches), WatchJob(s, plan))
  {
    RunOne(layout, s, BeginDrain);
    steps := [BeginDrain];
    if !s.box.overflowed {
      var draining := Apply(layout, s, BeginDrain);
      var drains := UndisturbedDrain(layout, draining);
      var drained := Run(layout, draining, drains);
      RunConcat(layout, s, steps, drains);
      RunThen(layout, s, steps + drains, EndDrain);
      steps := steps + drains + [EndDrain];
      DrainedPlanRefreshes(layout, s, s.phase.plan);
      DrainMeaning(s.env, layout, s.box, s.phase.plan, 0);
      var (box, plan) := DrainPendingPlan(s.env, layout, s.box, s.phase.plan);
      assert drained.box == box && !box.overflowed && drained.phase.plan == plan;
      assert FinishDrain(drained, plan) == Start(s.(box := box, watches := drained.watches), WatchJob(s, plan));
    }
  }

  /** A full read as a job is the full read of src/repository.rs. */
  lemma FullJobReads(w: World, before: RepositorySnapshot, options: SnapshotOptions)
    requires w.discover.None?
    ensures var read := ReadFrom(w, before, 0, ALL_DOMAINS, options);
      var full := SnapshotRepository(w, options);
      read.Ok? == full.Ok? && (read.Ok? ==> read == full)
  {
    var read := ReadFrom(w, before, 0, ALL_DOMAINS, options);
    var full := SnapshotRepository(w, options);
    if read.Ok? { FullReadIsReadFrom(w, before, options, read.value); }
    if full.Ok? { FullReadIsReadFrom(w, before, options, full.value); }
  }

  /** A debounce turn during which nothing happens refreshes with the plan that
      `drain_pending_plan` computes, as `refresh_repository_with_plan` does. */
  lemma UndisturbedTurn(layout: Layout, s: State) returns (steps: seq<Step>)
    requires s.phase.Debouncing? && s.phase.plan.ShouldRefresh()
    ensures ValidRun(layout, s, steps)
    ensures var (box, plan) := DrainPendingPlan(s.env, layout, s.box, s.phase.plan);
      var refresh := Refresh(s.world, s.cached, plan, DEFAULT_OPTIONS);
      var last := Run(layout, s, steps);
      last ==
        if refresh.Ok?
        then s.(box := box, watches := last.watches, cached := Some(refresh.value.snapshot), phase := Idle,
                sound := SoundAfter(s, WatchJob(s, plan)))
        else s.(box := box, watches := last.watches, phase := Stopped)
  {
    var (box, plan) := DrainPendingPlan(s.env, layout, s.box, s.phase.plan);
    DrainedPlanRefreshes(layout, s, s.phase.plan);
    steps := UndisturbedDebounce(layout, s);
    var begun := Run(layout, s, steps);
    var job := UndisturbedJob(layout, begun);
    RunConcat(layout, s, steps, job);
    steps := steps + job;
    if (plan.Full? || s.cached.None?) && s.world.discover.None? {
      FullJobReads(s.world, s.cached.UnwrapOr(BLANK), DEFAULT_OPTIONS);
    }
  }

  /** When the repository can be read in full, such a turn ends the server exactly when there is a
      cached snapshot, the drained plan rereads the upstream but not the head, and the upstream of
      the cached head cannot be read. */
  lemma TurnStopsExactly(layout: Layout, s: State) returns (steps: seq<Step>)
    requires s.phase.Debouncing? && s.phase.plan.ShouldRefresh()
    requires SnapshotRepository(s.world, DEFAULT_OPTIONS).Ok?
    ensures ValidRun(layout, s, steps)
    ensures var plan := DrainPendingPlan(s.env, layout, s.box, s.phase.plan).1;
      Run(layout, s, steps).phase.Stopped? <==>
        s.cached.Some? && plan.Covers(Upstream) && !plan.Covers(Head) && s.world.upstreamOf(s.cached.value.head).Err?
  {
    steps := UndisturbedTurn(layout, s);
    if s.cached.Some? {
      RefreshFails(s.world, s.cached.value, DrainPendingPlan(s.env, layout, s.box, s.phase.plan).1, DEFAULT_OPTIONS);
    }
  }

  /** A full read on request, undisturbed. */
  lemma UndisturbedRequest(layout: Layout, s: State, options: SnapshotOptions, subscribe: bool) returns (steps: seq<Step>)
    requires s.phase.Idle? && (subscribe ==> options == DEFAULT_OPTIONS)
    ensures ValidRun(layout, s, steps)
    ensures Run(layout, s, steps) ==
      var asked := s.(subscribed := s.subscribed || subscribe);
      match SnapshotRepository(s.world, options)
      case Ok(r) => asked.(cached := Some(r), sound := SoundAfter(s, Job(ALL_DOMAINS, true, options)))
      case Err(_) => asked
  {
    var step := if subscribe then Subscribe else RefreshRequest(options);
    RunOne(layout, s, step);
    var begun := Apply(layout, s, step);
    var job := UndisturbedJob(layout, begun);
    steps := [step] + job;
    RunConcat(layout, s, [step], job);
    if s.world.discover.None? {
      FullJobReads(s.world, s.cached.UnwrapOr(BLANK), options);
    }
  }

  /** A full read of the server's own accord, undisturbed: unlike a request's, its failure ends the
      server. */
  lemma UndisturbedFullRead(layout: Layout, s: State) returns (steps: seq<Step>)
    requires s.phase.Idle? && s.subscribed
    ensures ValidRun(layout, s, steps)
    ensures Run(layout, s, steps) ==
      match SnapshotRepository(s.world, DEFAULT_OPTIONS)
      case Ok(r) => s.(cached := Some(r), sound := SoundAfter(s, Job(ALL_DOMAINS, false, DEFAULT_OPTIONS)))
      case Err(_) => s.(phase := Stopped)
  {
    RunOne(layout, s, FullRefresh);
    var job := UndisturbedJob(layout, Apply(layout, s, FullRefresh));
    steps := [FullRefresh] + job;
    RunConcat(layout, s, [FullRefresh], job);
    if s.world.discover.None? {
      FullJobReads(s.world, s.cached.UnwrapOr(BLANK), DEFAULT_OPTIONS);
    }
  }

  /** An undisturbed subscription leaves the cached snapshot right in every domain exactly when
      its read succeeds or the snapshot was right already. */
  lemma SubscribeFreshExactly(layout: Layout, s: State) returns (steps: seq<Step>)
    requires NothingPending(s)
    ensures ValidRun(layout, s, steps)
    ensures var last := Run(layout, s, steps);
      && NothingPending(last) && last.subscribed && last.world == s.world
      && (FreshIn(last, ALL_DOMAINS) <==> SnapshotRepository(s.world, DEFAULT_OPTIONS).Ok? || FreshIn(s, ALL_DOMAINS))
  {
    steps := UndisturbedRequest(layout, s, DEFAULT_OPTIONS, true);
    var read := SnapshotRepository(s.world, DEFAULT_OPTIONS);
    if read.Ok? { FullReadIffFresh(s.world, read.value, DEFAULT_OPTIONS); }
  }

  // ---------------------------------------------------------------- a world with given contents

  /** The repository in which every reader answers with the fields of `t`. */
  ghost function WorldOf(t: RepositorySnapshot): World {
    World(None, Ok(t.identity), Ok(t.head), (_: HeadState) => Ok(t.headCommit), (_: HeadState) => Ok(t.upstream),
          (_: SnapshotOptions) => Ok(t.paths), t.operation, Ok(t.remotes), Ok(t.branches), Ok(t.tags), Ok(t.stashes),
          Ok(t.worktrees), Ok(t.submodules))
  }

  lemma WorldOfReads(t: RepositorySnapshot, f: Field)
    ensures FreshReading(WorldOf(t), f, DEFAULT_OPTIONS) == Ok(FieldOf(t, f))
    ensures SnapshotRepository(WorldOf(t), DEFAULT_OPTIONS) == Ok(t)
  {
  }

  ghost function More(o: Option<string>): Option<string> {
    if o.Some? then Some(o.value + "+") else Some("")
  }

  /** A snapshot that differs from `s` in `f` alone. */
  ghost function Altered(s: RepositorySnapshot, f: Field): RepositorySnapshot {
    match f
    case IdentityField => s.(identity := s.identity.(isEmpty := !s.identity.isEmpty))
    case HeadField => s.(head := s.head.(oid := More(s.head.oid)))
    case HeadCommitField => s.(headCommit := if s.headCommit.Some? then None else Some(CommitSummary("", [], None, None, None, 0)))
    case UpstreamField => s.(upstream := if s.upstream.Some? then None else Some(UpstreamState("", None, 0, 0)))
    case PathsField => s.(paths := s.paths.(staged := s.paths.staged + [""]))
    case OperationField => s.(operation := s.operation.(message := More(s.operation.message)))
    case RemotesField => s.(remotes := s.remotes + [RemoteSummary("", None, None, None, [], [])])
    case BranchesField => s.(branches := s.branches + [BranchSummary("", Local, false, None, None, None, None, None)])
    case TagsField => s.(tags := s.tags + [TagSummary("", "", Lightweight, "", None, None, None, None, None)])
    case StashesField => s.(stashes := s.stashes + [StashSummary(0, "", "")])
    case WorktreesField => s.(worktrees := s.worktrees + [WorktreeSummary("", [], false, None)])
    case SubmodulesField => s.(submodules := s.submodules + [SubmoduleSummary("", [], None, None, None, None, None,
        SubmoduleState(false, false, false, false, false, false, false, false, false, false, false, false, false))])
  }

  lemma Longer<T>(s: seq<T>, x: T)
    ensures s + [x] != s
  {
  }

  lemma AlteredDiffers(s: RepositorySnapshot, f: Field)
    ensures forall g: Field :: FieldOf(Altered(s, f), g) == FieldOf(s, g) <==> g != f
  {
    if s.head.oid.Some? { Longer(s.head.oid.value, '+'); }
    if s.operation.message.Some? { Longer(s.operation.message.value, '+'); }
    Longer(s.paths.staged, "");
    var a := Altered(s, f);
    assert |a.remotes| == |s.remotes| <==> f != RemotesField;
    assert |a.branches| == |s.branches| <==> f != BranchesField;
    assert |a.tags| == |s.tags| <==> f != TagsField;
    assert |a.stashes| == |s.stashes| <==> f != StashesField;
    assert |a.worktrees| == |s.worktrees| <==> f != WorktreesField;
    assert |a.submodules| == |s.submodules| <==> f != SubmodulesField;
  }

  // ---------------------------------------------------------------- runs that end stale

  /** A server that has read `t` from a repository with exactly that content and subscribed. */
  ghost function Subscribed(t: RepositorySnapshot, env: Environment, disk: Disk, watches: Watches): State {
    State(WorldOf(t), env, disk, [], Mailbox([], false), watches, Some(t), true, Idle, ALL_DOMAINS)
  }

  lemma SubscribedTo(layout: Layout, env: Environment, disk: Disk, watches: Watches, t: RepositorySnapshot)
    returns (start: State, steps: seq<Step>)
    ensures Init(start) && ValidRun(layout, start, steps)
    ensures Run(layout, start, steps) == Subscribed(t, env, disk, watches)
  {
    start := State(WorldOf(t), env, disk, [], Mailbox([], false), watches, None, false, Idle, {});
    steps := UndisturbedRequest(layout, start, DEFAULT_OPTIONS, true);
    WorldOfReads(t, HeadField);
    KeptOfFull(Job(ALL_DOMAINS, true, DEFAULT_OPTIONS), 0, {});
  }

  /** A field that `plan` asks for. */
  lemma SomeField(plan: RefreshPlan) returns (f: Field)
    requires plan.ShouldRefresh() && Closed(plan)
    ensures plan.Covers(DomainOf(f))
  {
    if plan.Full? {
      f := HeadField;
    } else {
      var d :| d in plan.domains;
      match d
      case Identity => f := IdentityField;
      case Head => f := HeadField;
      case Upstream => f := UpstreamField;
      case Paths => f := PathsField;
      case Operation => f := OperationField;
      case Remotes => f := RemotesField;
      case Branches => f := BranchesField;
      case Tags => f := TagsField;
      case Stashes => f := StashesField;
      case Worktrees => f := WorktreesField;
      case Submodules => f := SubmodulesField;
    }
  }

  /** A change of one field that raises `e` alone is fully reported when `e` asks for the field. */
  lemma OneFieldReported(layout: Layout, s: State, w: World, t: RepositorySnapshot, f: Field, e: WatchEvent)
    requires SnapshotRepository(w, DEFAULT_OPTIONS).Ok? && s.world == WorldOf(t)
    requires t == Altered(SnapshotRepository(w, DEFAULT_OPTIONS).value, f)
    requires PlanForEvent(s.env, layout, e).Covers(DomainOf(f))
    ensures forall d: RefreshDomain :: Reported(layout, s, w, s.env, [e], d)
  {
    var full := SnapshotRepository(w, DEFAULT_OPTIONS).value;
    FullReadIffFresh(w, full, DEFAULT_OPTIONS);
    AlteredDiffers(full, f);
    RaisedOne(layout, s.env, e, DomainOf(f));
    forall g: Field | FreshReading(w, g, DEFAULT_OPTIONS) != FreshReading(WorldOf(t), g, DEFAULT_OPTIONS)
      ensures g == f
    {
      WorldOfReads(t, g);
      assert Fresh(w, full, g, DEFAULT_OPTIONS);
    }
  }

  /** Then everything stays sound. */
  lemma OneFieldChanges(layout: Layout, s: State, w: World, t: RepositorySnapshot, f: Field, e: WatchEvent)
    requires SnapshotRepository(w, DEFAULT_OPTIONS).Ok? && s.world == WorldOf(t) && s.phase.Idle?
    requires t == Altered(SnapshotRepository(w, DEFAULT_OPTIONS).value, f)
    requires PlanForEvent(s.env, layout, e).Covers(DomainOf(f))
    ensures Apply(layout, s, Mutate(w, s.env, s.disk, [e])) == s.(world := w, undelivered := s.undelivered + [e])
  {
    OneFieldReported(layout, s, w, t, f, e);
    StaysAllSound(layout, s, w, s.env, [e], s.sound);
  }

  lemma Then(layout: Layout, s: State, before: seq<Step>, step: Step) returns (steps: seq<Step>)
    requires ValidRun(layout, s, before) && Enabled(layout, Run(layout, s, before), step)
    ensures ValidRun(layout, s, steps)
    ensures Run(layout, s, steps) == Apply(layout, Run(layout, s, before), step)
  {
    steps := before + [step];
    RunThen(layout, s, before, step);
  }

  // ---------------------------------------------------------------- losing an event in `next_event`

  /** The server is about to take `e`, the only event there is. */
  ghost predicate AboutToTake(s: State, e: WatchEvent) {
    s.phase.Idle? && s.subscribed && s.box == Mailbox([e], false) && s.undelivered == []
  }

  /** The server takes an event, and a line comes in as soon as it can cancel that. */
  ghost function Interrupted(layout: Layout, s: State): State
    requires Enabled(layout, s, Take)
  {
    var taken := Apply(layout, s, Take);
    if taken.phase.Received? && taken.phase.event.Notified? then Apply(layout, taken, Cancel(0)) else taken
  }

  /** For every event whose handling suspends and that asks for something there is a run on which
      it is lost: the server goes on with a stale snapshot and nothing pending. */
  lemma LosingForgets(layout: Layout, w: World, env: Environment, disk: Disk, watches: Watches, e: WatchEvent)
    returns (start: State, steps: seq<Step>)
    requires SnapshotRepository(w, DEFAULT_OPTIONS).Ok?
    requires PlanForEvent(env, layout, e).ShouldRefresh() && Suspends(watches, layout, env, disk, e)
    ensures Init(start) && ValidRun(layout, start, steps)
    ensures var s := Run(layout, start, steps);
      && s.world == w && s.env == env && s.disk == disk && s.watches == watches
      && AboutToTake(s, e) && s.sound == ALL_DOMAINS
      && NothingPending(Interrupted(layout, s)) && Interrupted(layout, s).subscribed && !HoldsFullRead(Interrupted(layout, s))
  {
    var t, f := StaleInOneField(layout, env, w, e);
    start, steps := SubscribedTo(layout, env, disk, watches, t);
    var before := Subscribed(t, env, disk, watches);
    var queued := ChangeQueued(layout, before, w, t, f, e);
    RunConcat(layout, start, steps, queued);
    steps := steps + queued;
    InterruptionLoses(layout, before.(world := w, box := Mailbox([e], false)), e);
  }

  /** A snapshot that a full read of `w` would change in one field, which `e` asks for. */
  lemma StaleInOneField(layout: Layout, env: Environment, w: World, e: WatchEvent) returns (t: RepositorySnapshot, f: Field)
    requires SnapshotRepository(w, DEFAULT_OPTIONS).Ok? && PlanForEvent(env, layout, e).ShouldRefresh()
    ensures t == Altered(SnapshotRepository(w, DEFAULT_OPTIONS).value, f) && PlanForEvent(env, layout, e).Covers(DomainOf(f))
    ensures SnapshotRepository(w, DEFAULT_OPTIONS) != Ok(t)
  {
    EventPlanClosed(env, layout, e);
    f := SomeField(PlanForEvent(env, layout, e));
    t := Altered(SnapshotRepository(w, DEFAULT_OPTIONS).value, f);
    AlteredDiffers(SnapshotRepository(w, DEFAULT_OPTIONS).value, f);
    assert FieldOf(t, f) != FieldOf(SnapshotRepository(w, DEFAULT_OPTIONS).value, f);
  }

  /** That change happens, and its event reaches the queue. */
  lemma ChangeQueued(layout: Layout, s: State, w: World, t: RepositorySnapshot, f: Field, e: WatchEvent) returns (steps: seq<Step>)
    requires SnapshotRepository(w, DEFAULT_OPTIONS).Ok? && s.world == WorldOf(t) && NothingPending(s)
    requires t == Altered(SnapshotRepository(w, DEFAULT_OPTIONS).value, f)
    requires PlanForEvent(s.env, layout, e).Covers(DomainOf(f))
    ensures ValidRun(layout, s, steps)
    ensures Run(layout, s, steps) == s.(world := w, box := Mailbox([e], false))
  {
    FilteredEventHasNoPlan(s.env, layout, e);
    OneFieldChanges(layout, s, w, t, f, e);
    steps := Then(layout, s, [], Mutate(w, s.env, s.disk, [e]));
    steps := Then(layout, s, steps, Deliver);
  }

  lemma InterruptionLoses(layout: Layout, s: State, e: WatchEvent)
    requires AboutToTake(s, e) && Suspends(s.watches, layout, s.env, s.disk, e)
    ensures var i := Interrupted(layout, s);
      NothingPending(i) && i.subscribed && i.cached == s.cached && i.world == s.world
  {
  }

  /** A line that interrupts the handling of an event after so many of its paths leaves the watch set
      that an event with these paths would leave; one that interrupts a reconciliation, the old one. */
  lemma CancellationKeepsPrefix(layout: Layout, s: State, event: Event, handled: nat)
    requires s.phase == Received(Notified(event)) && handled <= |event.paths|
    requires Suspends(s.watches, layout, s.env, s.disk, Notified(event))
    ensures Apply(layout, s, Cancel(handled)).watches ==
      if Reconciles(s.env, layout, Notified(event)) then s.watches
      else AfterEvent(s.watches, layout, s.env, s.disk, Notified(event.(paths := event.paths[..handled]))).0
  {
    if !Reconciles(s.env, layout, Notified(event)) {
      FewerPaths(s.watches, layout, s.env, s.disk, event, event.(paths := event.paths[..handled]));
    }
  }

  lemma FewerPaths(ws: Watches, layout: Layout, env: Environment, disk: Disk, event: Event, fewer: Event)
    requires Suspends(ws, layout, env, disk, Notified(event)) && !Reconciles(env, layout, Notified(event))
    requires fewer.kind == event.kind && fewer.rescan == event.rescan && fewer.paths <= event.paths
    ensures layout.worktreeRoot.Some?
    ensures AfterEvent(ws, layout, env, disk, Notified(fewer)).0
              == AddAllIfNeeded(ws, layout, layout.worktreeRoot.value, disk, fewer.paths)
  {
    assert EventCanCreateDirectoryWatch(fewer) == EventCanCreateDirectoryWatch(event);
    assert forall path :: path in fewer.paths ==> path in event.paths;
  }

  /** Interrupting the server when it takes an event is harmless on every run exactly when the
      event asks for nothing or is handled without an await. */
  lemma CancellationExact(layout: Layout, w: World, env: Environment, disk: Disk, watches: Watches, e: WatchEvent)
    requires SnapshotRepository(w, DEFAULT_OPTIONS).Ok?
    ensures (forall start, steps :: Init(start) && ValidRun(layout, start, steps) ==>
               var s := Run(layout, start, steps);
               s.world == w && s.env == env && s.disk == disk && s.watches == watches
               && AboutToTake(s, e) && s.sound == ALL_DOMAINS && NothingPending(Interrupted(layout, s)) ==>
                 HoldsFullRead(Interrupted(layout, s)))
            <==> PlanForEvent(env, layout, e) == NoRefresh || !Suspends(watches, layout, env, disk, e)
  {
    if PlanForEvent(env, layout, e) == NoRefresh || !Suspends(watches, layout, env, disk, e) {
      forall start, steps | Init(start) && ValidRun(layout, start, steps)
        ensures var s := Run(layout, start, steps);
               s.world == w && s.env == env && s.disk == disk && s.watches == watches
               && AboutToTake(s, e) && s.sound == ALL_DOMAINS && NothingPending(Interrupted(layout, s)) ==>
                 HoldsFullRead(Interrupted(layout, s))
      {
        var s := Run(layout, start, steps);
        RunKeepsInv(layout, start, steps);
        if s.world == w && s.env == env && s.disk == disk && s.watches == watches && AboutToTake(s, e)
           && s.sound == ALL_DOMAINS && NothingPending(Interrupted(layout, s))
        {
          InterruptionIsHarmless(layout, s, e);
        }
      }
    } else {
      var start, steps := LosingForgets(layout, w, env, disk, watches, e);
    }
  }

  lemma InterruptionIsHarmless(layout: Layout, s: State, e: WatchEvent)
    requires Inv(layout, s) && AboutToTake(s, e) && s.sound == ALL_DOMAINS && NothingPending(Interrupted(layout, s))
    requires SnapshotRepository(s.world, DEFAULT_OPTIONS).Ok?
    requires PlanForEvent(s.env, layout, e) == NoRefresh || !Suspends(s.watches, layout, s.env, s.disk, e)
    ensures HoldsFullRead(Interrupted(layout, s))
  {
    var taken := Apply(layout, s, Take);
    StepKeepsInv(layout, s, Take);
    if taken.phase.Received? {
      StepKeepsInv(layout, taken, Cancel(0));
      assert Without(s.sound, NoRefresh) == s.sound;
    }
    QuiescentIsFresh(layout, Interrupted(layout, s));
  }

  // ---------------------------------------------------------------- a stale head ends the server

  ghost function ModifiedEvent(path: Path): WatchEvent {
    Notified(Event(Modify(ModifyData), [path], false))
  }

  lemma FetchTextPlan(env: Environment, text: string)
    requires text == "FETCH_HEAD"
    ensures PlanForRelative(env, text) == PlanOf({Upstream, Branches, Remotes})
  {
    assert |text| == 10 && text[0] == 'F' && text[2] == 'T' && text[5] == '_';
    NotEarly(text);
    assert RefArea(text) == Some(RemotesArea);
  }

  lemma CombineOne(plan: RefreshPlan)
    ensures CombineAll(NoRefresh, [plan]) == plan
  {
    assert [plan][1..] == [];
    assert CombineAll(NoRefresh, [plan]) == CombineAll(NoRefresh.Combine(plan), []);
  }

  lemma OnePathPlan(env: Environment, layout: Layout, path: Path)
    ensures PlanForEvent(env, layout, ModifiedEvent(path)) == PlanForPath(env, layout, path)
  {
    var plan := PlanForPath(env, layout, path);
    assert PlansForPaths(env, layout, [path]) == [plan];
    CombineOne(plan);
  }

  lemma FetchPlan(env: Environment, layout: Layout)
    ensures PlanForEvent(env, layout, ModifiedEvent(layout.gitDir + ["FETCH_HEAD"])) == PlanOf({Upstream, Branches, Remotes})
  {
    OnePathPlan(env, layout, layout.gitDir + ["FETCH_HEAD"]);
    assert StripGitDir(layout, layout.gitDir + ["FETCH_HEAD"]) == ["FETCH_HEAD"];
    FetchTextPlan(env, Text(["FETCH_HEAD"]));
  }

  /** The repository with the contents of `t`, but on another head; the branch of the old head
      is gone, so that its upstream cannot be read. */
  ghost function OnOtherHead(t: RepositorySnapshot, head: HeadState): World {
    WorldOf(t).(head := Ok(head), upstreamOf := (h: HeadState) => if h == t.head then Err(Git("branch not found")) else Ok(t.upstream))
  }

  lemma OnOtherHeadReads(t: RepositorySnapshot, head: HeadState)
    requires head != t.head
    ensures SnapshotRepository(OnOtherHead(t, head), DEFAULT_OPTIONS) == Ok(t.(head := head))
  {
  }

  /** The server of a readable repository can end: there is a fetch, and before the server has
      read for it the current branch is renamed. */
  lemma StaleHeadStops(layout: Layout, env: Environment, disk: Disk, watches: Watches, t: RepositorySnapshot, head: HeadState)
    returns (start: State, steps: seq<Step>)
    requires head != t.head
    ensures Init(start) && ValidRun(layout, start, steps)
    ensures var s := Run(layout, start, steps);
      s.phase.Stopped? && SnapshotRepository(s.world, DEFAULT_OPTIONS) == Ok(t.(head := head)) && s.cached == Some(t)
  {
    FetchPlan(env, layout);
    start, steps := SubscribedTo(layout, env, disk, watches, t);
    var rest := StaleHeadStopsFrom(layout, Subscribed(t, env, disk, watches), ModifiedEvent(layout.gitDir + ["FETCH_HEAD"]), t, head);
    RunConcat(layout, start, steps, rest);
    steps := steps + rest;
  }

  lemma StaleHeadStopsFrom(layout: Layout, s: State, e: WatchEvent, t: RepositorySnapshot, head: HeadState)
    returns (steps: seq<Step>)
    requires NothingPending(s) && s.subscribed && s.cached == Some(t) && head != t.head
    requires PlanForEvent(s.env, layout, e).Domains? && KeepsHeadForUpstream(PlanForEvent(s.env, layout, e))
    ensures ValidRun(layout, s, steps)
    ensures var last := Run(layout, s, steps);
      last.phase.Stopped? && SnapshotRepository(last.world, DEFAULT_OPTIONS) == Ok(t.(head := head)) && last.cached == Some(t)
  {
    steps := TurnBegins(layout, s, e);
    var late := HeadMovesBeforeRead(layout, Run(layout, s, steps), t, PlanForEvent(s.env, layout, e), head);
    RunConcat(layout, s, steps, late);
    steps := steps + late;
  }

  /** The head moves before a read that keeps the old one. */
  lemma HeadMovesBeforeRead(layout: Layout, s: State, t: RepositorySnapshot, plan: RefreshPlan, head: HeadState)
    returns (steps: seq<Step>)
    requires s.phase == Opening(Job(PlanDomains(plan), false, DEFAULT_OPTIONS)) && s.cached == Some(t) && head != t.head
    requires KeepsHeadForUpstream(plan)
    ensures ValidRun(layout, s, steps)
    ensures var last := Run(layout, s, steps);
      last.phase.Stopped? && SnapshotRepository(last.world, DEFAULT_OPTIONS) == Ok(t.(head := head)) && last.cached == Some(t)
  {
    var w := OnOtherHead(t, head);
    OnOtherHeadReads(t, head);
    steps := Then(layout, s, [], Mutate(w, s.env, s.disk, [ModifiedEvent(layout.gitDir + ["HEAD"])]));
    PartialReadFails(w, t, PlanDomains(plan), DEFAULT_OPTIONS);
    var job := UndisturbedJob(layout, Run(layout, s, steps));
    RunConcat(layout, s, steps, job);
    steps := steps + job;
  }

  /** The repository changes, and the only event there is reaches the server. */
  lemma EventReaches(layout: Layout, s: State, w: World, e: WatchEvent) returns (steps: seq<Step>)
    requires NothingPending(s) && s.subscribed
    ensures ValidRun(layout, s, steps)
    ensures var last := Run(layout, s, steps);
      var plan := PlanForEvent(s.env, layout, e);
      && last.phase == (if plan.ShouldRefresh() then Debouncing(plan) else Idle) && last.box == Mailbox([], false)
      && last.undelivered == [] && last.subscribed
      && last.world == w && last.env == s.env && last.disk == s.disk && last.cached == s.cached
  {
    FilteredEventHasNoPlan(s.env, layout, e);
    steps := Then(layout, s, [], Mutate(w, s.env, s.disk, [e]));
    steps := Then(layout, s, steps, Deliver);
    if ShouldRefreshForEvent(e) {
      steps := Then(layout, s, steps, Take);
      if Run(layout, s, steps).phase.Received? { steps := Then(layout, s, steps, Resume); }
    }
  }

  /** And a debounce turn during which no other comes. */
  lemma TurnBegins(layout: Layout, s: State, e: WatchEvent) returns (steps: seq<Step>)
    requires NothingPending(s) && s.subscribed && s.cached.Some? && PlanForEvent(s.env, layout, e).Domains?
    ensures ValidRun(layout, s, steps)
    ensures var last := Run(layout, s, steps);
      && last.phase == Opening(Job(PlanForEvent(s.env, layout, e).domains, false, DEFAULT_OPTIONS))
      && last.world == s.world && last.cached == s.cached
  {
    steps := EventReaches(layout, s, s.world, e);
    steps := Then(layout, s, steps, BeginDrain);
    steps := Then(layout, s, steps, EndDrain);
  }

  // ---------------------------------------------------------------- changes without the right event

  lemma EmptyDrain(env: Environment, layout: Layout, plan: RefreshPlan)
    ensures DrainPendingPlan(env, layout, Mailbox([], false), plan) == (Mailbox([], false), plan)
  {
  }

  lemma RefreshOfAltered(t: RepositorySnapshot, f: Field, plan: RefreshPlan)
    ensures var refresh := Refresh(WorldOf(Altered(t, f)), Some(t), plan, DEFAULT_OPTIONS);
      refresh.Ok? && (refresh.value.snapshot == Altered(t, f) <==> plan.Covers(DomainOf(f)))
  {
    var w := WorldOf(Altered(t, f));
    WorldOfReads(Altered(t, f), f);
    AlteredDiffers(t, f);
    RefreshFails(w, t, plan, DEFAULT_OPTIONS);
    assert FieldOf(t, f) != FieldOf(Altered(t, f), f);
    if plan.Domains? {
      PartialRefreshExact(w, t, plan.domains, DEFAULT_OPTIONS);
      forall g: Field ensures Fresh(w, t, g, DEFAULT_OPTIONS) <==> g != f { WorldOfReads(Altered(t, f), g); }
    }
  }

  /** A change of one field that raises one event only: once everything has been dealt with, the
      server holds a full read exactly when the event asks for the field's domain. */
  lemma OneChangeExact(layout: Layout, env: Environment, disk: Disk, watches: Watches, t: RepositorySnapshot, f: Field, e: WatchEvent)
    returns (start: State, steps: seq<Step>)
    ensures Init(start) && ValidRun(layout, start, steps)
    ensures var last := Run(layout, start, steps);
      && NothingPending(last) && last.subscribed && last.world == WorldOf(Altered(t, f))
      && (HoldsFullRead(last) <==> PlanForEvent(env, layout, e).Covers(DomainOf(f)))
  {
    var w, plan := WorldOf(Altered(t, f)), PlanForEvent(env, layout, e);
    RefreshOfAltered(t, f, plan);
    WorldOfReads(Altered(t, f), f);
    AlteredDiffers(t, f);
    start, steps := SubscribedTo(layout, env, disk, watches, t);
    var reached := EventReaches(layout, Subscribed(t, env, disk, watches), w, e);
    RunConcat(layout, start, steps, reached);
    steps := steps + reached;
    if plan.ShouldRefresh() {
      EmptyDrain(env, layout, plan);
      var turn := UndisturbedTurn(layout, Run(layout, start, steps));
      RunConcat(layout, start, steps, turn);
      steps := steps + turn;
    }
  }

  /** So a reader that looks at a git file is kept up to date by the events on that file exactly
      outside the gaps of the classifier. */
  lemma GapsGoStale(layout: Layout, env: Environment, disk: Disk, watches: Watches, t: RepositorySnapshot, f: Field,
                    path: Path, file: GitFile)
    returns (start: State, steps: seq<Step>)
    requires InGitDir(layout, path) && FileText(layout, path).Some? && IsFile(file, FileText(layout, path).value)
    requires Consults(DomainOf(f), file)
    ensures Init(start) && ValidRun(layout, start, steps)
    ensures var last := Run(layout, start, steps);
      && NothingPending(last) && last.subscribed && last.world == WorldOf(Altered(t, f))
      && (HoldsFullRead(last) <==> !CoverageGap(env, DomainOf(f), file, FileText(layout, path).value))
  {
    OnePathPlan(env, layout, path);
    PathPlanOfFile(env, layout, path);
    ReadersAreCovered(env, file, FileText(layout, path).value, DomainOf(f));
    start, steps := OneChangeExact(layout, env, disk, watches, t, f, ModifiedEvent(path));
  }

  /** The same for worktree paths. */
  lemma WorktreeGapsGoStale(layout: Layout, env: Environment, disk: Disk, watches: Watches, t: RepositorySnapshot, f: Field,
                            path: Path, tracked: bool)
    returns (start: State, steps: seq<Step>)
    requires InWorktree(layout, path) && ConsultsWorktree(env, DomainOf(f), path, Relative(layout, path), tracked)
    ensures Init(start) && ValidRun(layout, start, steps)
    ensures var last := Run(layout, start, steps);
      && NothingPending(last) && last.subscribed && last.world == WorldOf(Altered(t, f))
      && (HoldsFullRead(last) <==> !WorktreeGap(env, DomainOf(f), path, Relative(layout, path)))
  {
    OnePathPlan(env, layout, path);
    WorktreeReadersAreCovered(env, layout, path, DomainOf(f), tracked);
    start, steps := OneChangeExact(layout, env, disk, watches, t, f, ModifiedEvent(path));
  }

  /** A tracked file that an ignore rule matches: the event of its modification is filtered as
      ignored, and the server goes on with a stale path state. */
  lemma TrackedIgnoredFileGoesStale(layout: Layout, env: Environment, disk: Disk, watches: Watches, t: RepositorySnapshot, path: Path)
    returns (start: State, steps: seq<Step>)
    requires InWorktree(layout, path) && env.shouldBeIgnored(Relative(layout, path))
    requires !env.isExcludesFile(path) && !IsIgnoreRulePath(Relative(layout, path))
    requires !IsAboutInnerRepository(env, Relative(layout, path))
    ensures PlanForEvent(env, layout, ModifiedEvent(path)) == NoRefresh
    ensures Init(start) && ValidRun(layout, start, steps)
    ensures var last := Run(layout, start, steps);
      && NothingPending(last) && last.subscribed && last.world == WorldOf(Altered(t, PathsField)) && !HoldsFullRead(last)
  {
    OnePathPlan(env, layout, path);
    start, steps := WorktreeGapsGoStale(layout, env, disk, watches, t, PathsField, path, true);
  }

  // ---------------------------------------------------------------- failing and foreign baselines

  /** A change that a server misses because nobody is subscribed when its event is taken. */
  lemma MissedWhileUnsubscribed(layout: Layout, env: Environment, disk: Disk, watches: Watches, w: World,
                                t: RepositorySnapshot, f: Field, e: WatchEvent)
    returns (start: State, steps: seq<Step>)
    requires SnapshotRepository(w, DEFAULT_OPTIONS).Ok? && t == Altered(SnapshotRepository(w, DEFAULT_OPTIONS).value, f)
    requires PlanForEvent(env, layout, e).Covers(DomainOf(f))
    ensures Init(start) && ValidRun(layout, start, steps)
    ensures var s := Run(layout, start, steps);
      NothingPending(s) && !s.subscribed && s.world == w && s.env == env && s.disk == disk && s.cached == Some(t)
  {
    start, steps := SubscribedTo(layout, env, disk, watches, t);
    steps := Then(layout, start, steps, Unsubscribe);
    var queued := ChangeQueued(layout, Run(layout, start, steps), w, t, f, e);
    RunConcat(layout, start, steps, queued);
    steps := Then(layout, start, steps + queued, Take);
    if Run(layout, start, steps).phase.Received? { steps := Then(layout, start, steps, Resume); }
  }

  /** A subscription whose snapshot cannot be read keeps the baseline of an earlier one: the
      server ends subscribed, with nothing pending and a stale snapshot. */
  lemma FailedSubscribeStaysStale(layout: Layout, env: Environment, disk: Disk, watches: Watches, w: World, e: WatchEvent)
    returns (start: State, steps: seq<Step>)
    requires SnapshotRepository(w, DEFAULT_OPTIONS).Ok? && PlanForEvent(env, layout, e).ShouldRefresh()
    ensures Init(start) && ValidRun(layout, start, steps)
    ensures var s := Run(layout, start, steps);
      s.world == w && s.subscribed && NothingPending(s) && s.cached.Some? && !HoldsFullRead(s)
  {
    var t, f := StaleInOneField(layout, env, w, e);
    start, steps := MissedWhileUnsubscribed(layout, env, disk, watches, w, t, f, e);
    var failing := SubscribeFails(layout, Run(layout, start, steps));
    RunConcat(layout, start, steps, failing);
    steps := steps + failing;
  }

  /** The repository cannot be opened while the server subscribes. */
  lemma SubscribeFails(layout: Layout, s: State) returns (steps: seq<Step>)
    requires NothingPending(s)
    ensures ValidRun(layout, s, steps)
    ensures var last := Run(layout, s, steps);
      NothingPending(last) && last.subscribed && last.world == s.world && last.cached == s.cached
  {
    var broken := s.world.(discover := Some(Git("unreadable")));
    steps := Then(layout, s, [], Mutate(broken, s.env, s.disk, []));
    var request := UndisturbedRequest(layout, Run(layout, s, steps), DEFAULT_OPTIONS, true);
    RunConcat(layout, s, steps, request);
    steps := Then(layout, s, steps + request, Mutate(s.world, s.env, s.disk, []));
  }

  /** A baseline recorded with ignored paths is what default-options refreshes are compared with;
      it is the default full read exactly when ignored paths make no difference. */
  lemma IgnoredBaselineExact(layout: Layout, s: State) returns (steps: seq<Step>)
    requires NothingPending(s) && SnapshotRepository(s.world, DEFAULT_OPTIONS).Ok?
    requires SnapshotRepository(s.world, SnapshotOptions(true)).Ok?
    ensures ValidRun(layout, s, steps)
    ensures var last := Run(layout, s, steps);
      && NothingPending(last) && last.world == s.world && last.cached.Some?
      && (HoldsFullRead(last) <==> s.world.pathsOf(SnapshotOptions(true)) == s.world.pathsOf(DEFAULT_OPTIONS))
  {
    steps := UndisturbedRequest(layout, s, SnapshotOptions(true), false);
    IgnoredPathsMatter(s.world);
  }

  lemma IgnoredPathsMatter(w: World)
    requires SnapshotRepository(w, DEFAULT_OPTIONS).Ok? && SnapshotRepository(w, SnapshotOptions(true)).Ok?
    ensures SnapshotRepository(w, SnapshotOptions(true)) == SnapshotRepository(w, DEFAULT_OPTIONS) <==>
              w.pathsOf(SnapshotOptions(true)) == w.pathsOf(DEFAULT_OPTIONS)
  {
  }
}
