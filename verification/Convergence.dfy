/** What the pipeline's invariant gives: with nothing pending the cached snapshot is right in
    every sound domain, and a quiet repository gets there. */
module Convergence {
  import opened Wrappers
  import opened Model
  import opened Repository
  import opened Classify
  import opened EventQueue
  import opened Watch
  import opened Pipeline

  // ---------------------------------------------------------------- convergence

  ghost predicate NothingPending(s: State) {
    s.phase.Idle? && s.box == Mailbox([], false) && s.undelivered == []
  }

  /** The cached snapshot holds what a full read would put into these domains. */
  ghost predicate FreshIn(s: State, domains: set<RefreshDomain>) {
    && (domains != {} ==> s.cached.Some?)
    && forall f: Field :: DomainOf(f) in domains ==> Fresh(s.world, s.cached.value, f, DEFAULT_OPTIONS)
  }

  ghost predicate HoldsFullRead(s: State) {
    s.cached.Some? && SnapshotRepository(s.world, DEFAULT_OPTIONS) == Ok(s.cached.value)
  }

  lemma FreshEverywhere(s: State)
    requires s.world.discover.None? && FreshIn(s, ALL_DOMAINS)
    ensures HoldsFullRead(s)
  {
    forall f: Field ensures Fresh(s.world, s.cached.value, f, DEFAULT_OPTIONS) { EveryDomain(f); }
    FullReadIffFresh(s.world, s.cached.value, DEFAULT_OPTIONS);
  }

  lemma QuiescentIsFresh(layout: Layout, s: State)
    requires Inv(layout, s) && NothingPending(s)
    ensures FreshIn(s, s.sound)
    ensures s.sound == ALL_DOMAINS && s.world.discover.None? ==> HoldsFullRead(s)
  {
    assert Waiting(s) == [];
    assert forall d: RefreshDomain :: !Pending(layout, s, d);
    if s.sound == ALL_DOMAINS && s.world.discover.None? { FreshEverywhere(s); }
  }

  /** On every run, whatever interleaving of changes, deliveries, losses, requests and single
      reads it takes: with nothing pending, the cached snapshot holds what a full read would see
      now in every domain each change of which, since the domain was last read, raised an event
      for it that was not thrown away. */
  lemma Convergence(layout: Layout, start: State, steps: seq<Step>)
    requires Init(start) && ValidRun(layout, start, steps)
    ensures var s := Run(layout, start, steps);
      NothingPending(s) ==> FreshIn(s, s.sound) && (s.sound == ALL_DOMAINS && s.world.discover.None? ==> HoldsFullRead(s))
  {
    RunKeepsInv(layout, start, steps);
    var s := Run(layout, start, steps);
    if NothingPending(s) { QuiescentIsFresh(layout, s); }
  }

  // ---------------------------------------------------------------- runs that keep everything sound

  function FirstIndex(d: RefreshDomain): nat {
    match d
    case Identity => 0 case Head => 1 case Upstream => 3 case Paths => 4 case Operation => 5 case Remotes => 6
    case Branches => 7 case Tags => 8 case Stashes => 9 case Worktrees => 10 case Submodules => 11
  }

  /** Everything is sound, or will be once the read in flight has come to it. */
  ghost predicate OnCourse(s: State) {
    match s.phase
    case Opening(job) =>
      job.options == DEFAULT_OPTIONS && (s.sound == ALL_DOMAINS || (!job.onRequest && job.domains == ALL_DOMAINS))
    case Reading(job, at, next, kept) =>
      && job.options == DEFAULT_OPTIONS && at <= FIELDS && (job.onRequest ==> s.sound == ALL_DOMAINS)
      && forall d: RefreshDomain :: d in kept || (d in job.domains && FirstIndex(d) >= at)
    case Stopped => true
    case _ => s.sound == ALL_DOMAINS
  }

  /** The change is reported for every domain, no event that asks for something is thrown away,
      and no request reads with other options. */
  ghost predicate Careful(layout: Layout, s: State, step: Step) {
    match step
    case Mutate(w, env, disk, events) => forall d: RefreshDomain :: Reported(layout, s, w, env, events, d)
    case TakeOverflow => s.subscribed
    case Take => s.subscribed
    case Resume => s.subscribed
    case Cancel(_) => s.phase.Received? && PlanForEvent(s.env, layout, s.phase.event) == NoRefresh
    case RefreshRequest(options) => options == DEFAULT_OPTIONS
    case _ => true
  }

  ghost predicate CarefulRun(layout: Layout, s: State, steps: seq<Step>)
    requires ValidRun(layout, s, steps)
    decreases |steps|
  {
    steps != [] ==> Careful(layout, s, steps[0]) && CarefulRun(layout, Apply(layout, s, steps[0]), steps[1..])
  }

  lemma AllDomains(domains: set<RefreshDomain>)
    ensures domains == ALL_DOMAINS <==> forall d: RefreshDomain :: d in domains
  {
    forall d: RefreshDomain ensures d in ALL_DOMAINS {
      match d { case Identity => case Head => case Upstream => case Paths => case Operation => case Remotes =>
                case Branches => case Tags => case Stashes => case Worktrees => case Submodules => }
    }
  }

  lemma StaysAllSound(layout: Layout, s: State, w: World, env: Environment, events: seq<WatchEvent>, sound: set<RefreshDomain>)
    requires forall d: RefreshDomain :: Reported(layout, s, w, env, events, d)
    ensures StillSound(layout, s, w, env, events, sound) == sound
  {
  }

  lemma ReadNextStaysOnCourse(s: State)
    requires OnCourse(s) && s.phase.Reading? && s.phase.at < FIELDS
    ensures OnCourse(ReadOne(s))
  {
    var Reading(job, at, next, kept) := s.phase;
    var s' := ReadOne(s);
    if s'.phase.Reading? {
      forall d: RefreshDomain ensures d in s'.phase.kept || (d in job.domains && FirstIndex(d) >= at + 1) {
        if FirstIndex(d) == at { assert DomainOf(FieldAt(at)) == d; }
        assert Head in kept || FirstIndex(Head) >= at;
      }
    }
  }

  lemma TakeStaysOnCourse(layout: Layout, s: State)
    requires OnCourse(s) && s.subscribed && Enabled(layout, s, Take)
    ensures OnCourse(TakeEvent(layout, s))
  {
  }

  lemma StepStaysOnCourse(layout: Layout, s: State, step: Step)
    requires OnCourse(s) && Inv(layout, s) && Enabled(layout, s, step) && Careful(layout, s, step)
    ensures OnCourse(Apply(layout, s, step))
  {
    AllDomains(s.sound);
    match step
    case Mutate(w, env, disk, events) =>
      StaysAllSound(layout, s, w, env, events, s.sound);
      if s.phase.Reading? { StaysAllSound(layout, s, w, env, events, s.phase.kept); }
    case ReadNext => ReadNextStaysOnCourse(s);
    case Take => TakeStaysOnCourse(layout, s);
    case Open => AllDomains(s.phase.job.domains);
    case Commit => AllDomains(s.phase.kept);
    case Cancel(handled) => assert Without(s.sound, NoRefresh) == s.sound;
    case _ =>
  }

  lemma {:induction false} RunStaysOnCourse(layout: Layout, s: State, steps: seq<Step>)
    requires OnCourse(s) && Inv(layout, s) && ValidRun(layout, s, steps) && CarefulRun(layout, s, steps)
    ensures OnCourse(Run(layout, s, steps))
    decreases |steps|
  {
    if steps != [] {
      StepStaysOnCourse(layout, s, steps[0]);
      StepKeepsInv(layout, s, steps[0]);
      RunStaysOnCourse(layout, Apply(layout, s, steps[0]), steps[1..]);
    }
  }

  /** The handoff: a server that reads everything for its subscriber when the watcher has started
      holds a full read whenever nothing is pending, on every run on which each change, also one
      that falls into that read, is reported and no event is thrown away. */
  lemma HandoffConverges(layout: Layout, start: State, steps: seq<Step>)
    requires Init(start) && start.subscribed && ValidRun(layout, start, [FullRefresh] + steps)
    requires CarefulRun(layout, start, [FullRefresh] + steps)
    ensures var s := Run(layout, start, [FullRefresh] + steps);
      NothingPending(s) ==> FreshIn(s, ALL_DOMAINS) && (s.world.discover.None? ==> HoldsFullRead(s))
  {
    var run := [FullRefresh] + steps;
    assert run[0] == FullRefresh && run[1..] == steps;
    var begun := Apply(layout, start, FullRefresh);
    StepKeepsInv(layout, start, FullRefresh);
    RunStaysOnCourse(layout, begun, steps);
    RunKeepsInv(layout, begun, steps);
    var s := Run(layout, begun, steps);
    if NothingPending(s) { QuiescentIsFresh(layout, s); }
  }

  // ---------------------------------------------------------------- settling

  /** What the server and the watcher do by themselves. */
  predicate IsServerStep(step: Step) {
    match step
    case Deliver => true case TakeOverflow => true case Take => true case Resume => true case BeginDrain => true case DrainOne => true
    case EndDrain => true case Open => true case ReadNext => true case Commit => true
    case _ => false
  }

  /** A subscribed server that is not in the middle of a request. */
  ghost predicate Serving(s: State) {
    && s.subscribed
    && (s.phase.Opening? ==> !s.phase.job.onRequest && s.phase.job.options == DEFAULT_OPTIONS)
    && (s.phase.Reading? ==> !s.phase.job.onRequest && s.phase.job.options == DEFAULT_OPTIONS && s.phase.at <= FIELDS)
  }

  ghost function PhaseWork(phase: Phase): nat {
    match phase
    case Idle => 0
    case Stopped => 0
    case Reading(_, at, _, _) => if at <= FIELDS then 1 + FIELDS - at else 0
    case Opening(_) => 2 + FIELDS
    case Draining(_, _) => 3 + FIELDS
    case Debouncing(_) => 4 + FIELDS
    case Received(_) => 5 + FIELDS
  }

  /** An upper bound on the steps left when nothing changes any more. */
  ghost function Work(s: State): nat {
    PhaseWork(s.phase) + (6 + FIELDS) * |s.box.queue| + (if s.box.overflowed then 6 + FIELDS else 0)
    + (7 + FIELDS) * |s.undelivered|
  }

  lemma TakeWorks(layout: Layout, s: State)
    requires Serving(s) && Enabled(layout, s, Take)
    ensures Serving(TakeEvent(layout, s)) && Work(TakeEvent(layout, s)) < Work(s) && TakeEvent(layout, s).world == s.world
  {
  }

  lemma ServerStepWorks(layout: Layout, s: State, step: Step)
    requires Serving(s) && Enabled(layout, s, step) && IsServerStep(step)
    ensures Serving(Apply(layout, s, step))
    ensures Work(Apply(layout, s, step)) < Work(s)
    ensures Apply(layout, s, step).world == s.world
  {
    if step == Take { TakeWorks(layout, s); }
  }

  /** The snapshot that the server holds once the read in flight, if any, has succeeded. */
  ghost function Held(s: State): Result<RepositorySnapshot, SnapshotError> {
    match s.phase
    case Opening(job) => ReadFrom(s.world, s.cached.UnwrapOr(BLANK), 0, job.domains, DEFAULT_OPTIONS)
    case Reading(job, at, next, _) =>
      if at <= FIELDS then ReadFrom(s.world, next, at, job.domains, DEFAULT_OPTIONS) else Ok(next)
    case _ => Ok(s.cached.UnwrapOr(BLANK))
  }

  /** The repository can be read in full, the read in flight succeeds, and the upstream of the
      head that the server then holds can be read. */
  ghost predicate Steady(s: State) {
    && SnapshotRepository(s.world, DEFAULT_OPTIONS).Ok?
    && Held(s).Ok? && s.world.upstreamOf(Held(s).value.head).Ok?
  }

  lemma ReadOneHolds(s: State)
    requires s.phase.Reading? && s.phase.at < FIELDS && s.phase.job.options == DEFAULT_OPTIONS && Held(s).Ok?
    ensures ReadOne(s).phase.Reading? && Held(ReadOne(s)) == Held(s)
  {
  }

  /** Starting to read for a plan does not unsettle a steady server. */
  lemma StartStaysSteady(s: State, plan: RefreshPlan)
    requires SnapshotRepository(s.world, DEFAULT_OPTIONS).Ok?
    requires s.world.upstreamOf(s.cached.UnwrapOr(BLANK).head).Ok?
    ensures Steady(Start(s, WatchJob(s, plan)))
  {
    PartialReadFails(s.world, s.cached.UnwrapOr(BLANK), WatchJob(s, plan).domains, DEFAULT_OPTIONS);
    FullReadIffFresh(s.world, SnapshotRepository(s.world, DEFAULT_OPTIONS).value, DEFAULT_OPTIONS);
    assert s.world.head.Ok? && s.world.upstreamOf(s.world.head.value).Ok?;
  }

  lemma StepStaysSteady(layout: Layout, s: State, step: Step)
    requires Serving(s) && Steady(s) && !s.phase.Stopped? && Enabled(layout, s, step) && IsServerStep(step)
    ensures Steady(Apply(layout, s, step)) && !Apply(layout, s, step).phase.Stopped?
  {
    match step
    case BeginDrain => if s.box.overflowed { StartStaysSteady(s.(box := s.box.(overflowed := false)), Full); }
    case EndDrain => StartStaysSteady(s.(box := s.box.(overflowed := false)), if s.box.overflowed then Full else s.phase.plan);
    case ReadNext => ReadOneHolds(s);
    case _ =>
  }

  /** A server step takes no domain out of what is sound. */
  lemma StepKeepsSound(layout: Layout, s: State, step: Step)
    requires Serving(s) && Inv(layout, s) && Enabled(layout, s, step) && IsServerStep(step)
    ensures s.sound <= Apply(layout, s, step).sound
  {
  }

  /** When the repository holds still, each step of the server uses up some of its work and
      keeps what is sound, and a steady server does not stop. */
  lemma {:induction false} QuietRun(layout: Layout, s: State, steps: seq<Step>)
    requires Serving(s) && Inv(layout, s) && ValidRun(layout, s, steps) && forall step :: step in steps ==> IsServerStep(step)
    ensures var last := Run(layout, s, steps);
      && Serving(last) && last.world == s.world && |steps| + Work(last) <= Work(s) && s.sound <= last.sound
      && (Steady(s) && !s.phase.Stopped? ==> Steady(last) && !last.phase.Stopped?)
    decreases |steps|
  {
    if steps != [] {
      assert IsServerStep(steps[0]) by { assert steps[0] in steps; }
      var next := Apply(layout, s, steps[0]);
      ServerStepWorks(layout, s, steps[0]);
      StepKeepsInv(layout, s, steps[0]);
      StepKeepsSound(layout, s, steps[0]);
      if Steady(s) && !s.phase.Stopped? { StepStaysSteady(layout, s, steps[0]); }
      QuietRun(layout, next, steps[1..]);
    }
  }

  /** A server that could take no step has stopped or has nothing pending. */
  lemma StuckIsQuiescent(layout: Layout, s: State)
    requires Serving(s) && !s.phase.Stopped?
    requires forall step :: IsServerStep(step) ==> !Enabled(layout, s, step)
    ensures NothingPending(s)
  {
    assert !Enabled(layout, s, Deliver) && !Enabled(layout, s, Take) && !Enabled(layout, s, BeginDrain);
    assert !Enabled(layout, s, DrainOne) && !Enabled(layout, s, EndDrain) && !Enabled(layout, s, Open);
    assert !Enabled(layout, s, ReadNext) && !Enabled(layout, s, Commit) && !Enabled(layout, s, Resume);
    assert !Enabled(layout, s, TakeOverflow);
  }

  /** Once the repository holds still, a steady server settles: from any reachable state of a
      subscribed server its own steps number at most `Work`, and when none is left it has not
      stopped and the cached snapshot is right in every domain that was sound. */
  lemma Settles(layout: Layout, start: State, past: seq<Step>, steps: seq<Step>)
    requires Init(start) && ValidRun(layout, start, past)
    requires var s := Run(layout, start, past); Serving(s) && Steady(s) && !s.phase.Stopped?
    requires ValidRun(layout, Run(layout, start, past), steps) && forall step :: step in steps ==> IsServerStep(step)
    ensures var s := Run(layout, start, past);
      var last := Run(layout, s, steps);
      && |steps| <= Work(s) && !last.phase.Stopped?
      && ((forall step :: IsServerStep(step) ==> !Enabled(layout, last, step)) ==>
            FreshIn(last, s.sound) && (s.sound == ALL_DOMAINS ==> HoldsFullRead(last)))
  {
    var s := Run(layout, start, past);
    var last := Run(layout, s, steps);
    RunKeepsInv(layout, start, past);
    RunKeepsInv(layout, s, steps);
    QuietRun(layout, s, steps);
    if forall step :: IsServerStep(step) ==> !Enabled(layout, last, step) {
      StuckIsQuiescent(layout, last);
      QuiescentIsFresh(layout, last);
      if s.sound == ALL_DOMAINS { FreshEverywhere(last); }
    }
  }
}
