/** The incremental refresh pipeline as a step system: the repository changes and raises events
    at any moment, the watcher callback queues or drops them, and the server takes an event,
    debounces, drains and rereads the planned domains one reader at a time (src/main.rs,
    src/watch.rs, src/repository.rs, src/protocol.rs). */
module Pipeline {
  import opened Wrappers
  import opened Model
  import opened Repository
  import opened Classify
  import opened EventQueue
  import opened Watch

  // ---------------------------------------------------------------- states and steps

  /** A read in progress: on behalf of a request, or of the watcher (whose failure ends the
      server). A full read reads every domain. */
  datatype Job = Job(domains: set<RefreshDomain>, onRequest: bool, options: SnapshotOptions)

  /** `Received` is `next_event` waiting for another thread after it has received an event. */
  datatype Phase =
    | Idle
    | Received(event: WatchEvent)
    | Debouncing(plan: RefreshPlan)
    | Draining(plan: RefreshPlan, drained: nat)
    | Opening(job: Job)
    | Reading(job: Job, at: nat, next: RepositorySnapshot, kept: set<RefreshDomain>)
    | Stopped

  /** `sound` records the domains of the cached snapshot every change of which, since they were
      last read, has been reported by an event that the server did not throw away; `kept` does
      so for the snapshot under construction. */
  datatype State = State(
    world: World, env: Environment, disk: Disk, undelivered: seq<WatchEvent>, box: Mailbox, watches: Watches,
    cached: Option<RepositorySnapshot>, subscribed: bool, phase: Phase, sound: set<RefreshDomain>)

  /** A `next_event` that starts after an overflow takes the flag first (`TakeOverflow`); one that
      has been waiting takes an event (`Take`) and leaves the flag to its successor.
      `Cancel` is a line on stdin that cancels a waiting `next_event`, after the watch set has
      been updated for so many of the event's paths. */
  datatype Step =
    | Mutate(world: World, env: Environment, disk: Disk, events: seq<WatchEvent>)
    | Deliver
    | TakeOverflow | Take | Resume | Cancel(handled: nat)
    | BeginDrain | DrainOne | EndDrain
    | Open | ReadNext | Commit
    | Subscribe | Unsubscribe | RefreshRequest(options: SnapshotOptions)
    | FullRefresh

  const BLANK := RepositorySnapshot(
    RepositoryIdentity("", None, [], [], None, false, false, false, false),
    HeadState(Missing, None, None, None), None, None, PathState([], [], [], [], [], [], []),
    OperationState(Clean, None, [], None), [], [], [], [], [], [])

  /** Some event in `events` asks for `d` when classified in `env`. */
  ghost predicate Raised(layout: Layout, env: Environment, events: seq<WatchEvent>, d: RefreshDomain) {
    exists e :: e in events && PlanForEvent(env, layout, e).Covers(d)
  }

  /** The events that have not been classified yet, oldest first. */
  ghost function Waiting(s: State): seq<WatchEvent> {
    (if s.phase.Received? then [s.phase.event] else []) + s.box.queue + s.undelivered
  }

  /** `d` will be reread because of something that has not been classified yet. */
  ghost predicate Pending(layout: Layout, s: State, d: RefreshDomain) {
    s.box.overflowed || Raised(layout, s.env, Waiting(s), d)
  }

  /** The lookups of the classifier change in a way that may take `d` out of a waiting event's
      plan (`Classify.EventPlanDrift`). */
  ghost predicate MayReclassify(before: Environment, now: Environment, d: RefreshDomain) {
    || !SameExcludes(before, now)
    || (d == Paths && before.headShorthand.Some? && before.headShorthand != now.headShorthand)
    || (d == Paths && !SameIgnores(before, now))
    || (d in {Paths, Submodules} && !SameSubmodules(before, now))
  }

  /** The change raises an event that asks for `d`, if a full read would see another answer in
      that domain or a waiting event may lose it. */
  ghost predicate Reported(layout: Layout, s: State, w: World, env: Environment, events: seq<WatchEvent>, d: RefreshDomain) {
    && (forall f: Field ::
          DomainOf(f) == d && FreshReading(s.world, f, DEFAULT_OPTIONS).Ok?
          && FreshReading(w, f, DEFAULT_OPTIONS) != FreshReading(s.world, f, DEFAULT_OPTIONS) ==>
            Raised(layout, env, events, d))
    && (Pending(layout, s, d) && MayReclassify(s.env, env, d) ==> Raised(layout, env, events, d))
  }

  /** The domains that stay sound over a change. What the upstream is depends on the head. */
  ghost function StillSound(layout: Layout, s: State, w: World, env: Environment, events: seq<WatchEvent>,
                            sound: set<RefreshDomain>): set<RefreshDomain>
  {
    set d | d in sound && Reported(layout, s, w, env, events, d)
            && (d == Upstream ==> Reported(layout, s, w, env, events, Head))
  }

  /** The domains that stay sound when what `plan` asks for is thrown away. */
  ghost function Without(sound: set<RefreshDomain>, plan: RefreshPlan): set<RefreshDomain> {
    set d | d in sound && !plan.Covers(d)
  }

  /** Reading a field makes its domain sound: the head with its first field, the upstream only
      if the head is, and the paths only with the options that later refreshes use. */
  ghost function KeptAfter(kept: set<RefreshDomain>, f: Field, options: SnapshotOptions): set<RefreshDomain> {
    match f
    case HeadCommitField => kept
    case UpstreamField => if Head in kept then kept + {Upstream} else kept
    case PathsField => if options == DEFAULT_OPTIONS then kept + {Paths} else kept - {Paths}
    case _ => kept + {DomainOf(f)}
  }

  ghost function Start(s: State, job: Job): State { s.(phase := Opening(job)) }

  ghost function WatchJob(s: State, plan: RefreshPlan): Job {
    if plan.Full? || s.cached.None? then Job(ALL_DOMAINS, false, DEFAULT_OPTIONS)
    else Job(PlanDomains(plan), false, DEFAULT_OPTIONS)
  }

  ghost function FailJob(s: State, job: Job): State {
    s.(phase := if job.onRequest then Idle else Stopped)
  }

  ghost predicate Enabled(layout: Layout, s: State, step: Step) {
    match step
    case Mutate(_, _, _, _) => true
    case Deliver => s.undelivered != []
    case TakeOverflow => s.phase.Idle? && s.box.overflowed
    case Take => s.phase.Idle? && s.box.queue != []
    case Resume => s.phase.Received?
    case Cancel(handled) => s.phase.Received? && s.phase.event.Notified? && handled <= |s.phase.event.event.paths|
    case BeginDrain => s.phase.Debouncing?
    case DrainOne => s.phase.Draining? && s.box.queue != [] && s.phase.drained < MAX_DEBOUNCE_DRAIN_EVENTS
    case EndDrain => s.phase.Draining? && (s.box.queue == [] || s.phase.drained >= MAX_DEBOUNCE_DRAIN_EVENTS)
    case Open => s.phase.Opening?
    case ReadNext => s.phase.Reading? && s.phase.at < FIELDS
    case Commit => s.phase.Reading? && s.phase.at == FIELDS
    case Subscribe => s.phase.Idle?
    case Unsubscribe => s.phase.Idle?
    case RefreshRequest(_) => s.phase.Idle?
    case FullRefresh => s.phase.Idle? && s.subscribed
  }

  /** The watch set is updated for the event, and the server classifies it, or throws it away
      when nobody is subscribed. */
  ghost function Handled(layout: Layout, s: State, event: WatchEvent): State {
    var plan := PlanForEvent(s.env, layout, event);
    var updated := s.(watches := AfterEvent(s.watches, layout, s.env, s.disk, event).0);
    if !s.subscribed then updated.(phase := Idle, sound := Without(s.sound, plan))
    else if !plan.ShouldRefresh() then updated.(phase := Idle)
    else updated.(phase := Debouncing(plan))
  }

  /** `next_event` on a queued event, up to where it waits for another thread. */
  ghost function TakeEvent(layout: Layout, s: State): State
    requires s.box.queue != []
  {
    var event := s.box.queue[0];
    var taken := s.(box := s.box.(queue := s.box.queue[1..]));
    if Suspends(s.watches, layout, s.env, s.disk, event) then taken.(phase := Received(event))
    else Handled(layout, taken, event)
  }

  /** The received event is gone, and what it asked for with it. */
  ghost function Cancelled(layout: Layout, s: State, handled: nat): State
    requires s.phase.Received? && s.phase.event.Notified? && handled <= |s.phase.event.event.paths|
  {
    var event := s.phase.event;
    s.(phase := Idle, sound := Without(s.sound, PlanForEvent(s.env, layout, event)),
       watches := if Reconciles(s.env, layout, event) || layout.worktreeRoot.None? then s.watches
                  else AddAllIfNeeded(s.watches, layout, layout.worktreeRoot.value, s.disk, event.event.paths[..handled]))
  }

  ghost function FinishDrain(s: State, plan: RefreshPlan): State {
    var result := if s.box.overflowed then Full else plan;
    var quiet := s.(box := s.box.(overflowed := false));
    if !result.ShouldRefresh() then quiet.(phase := Idle) else Start(quiet, WatchJob(s, result))
  }

  ghost function ReadOne(s: State): State
    requires s.phase.Reading? && s.phase.at < FIELDS
  {
    var Reading(job, at, next, kept) := s.phase;
    if DomainOf(FieldAt(at)) in job.domains then
      var v := ReadField(s.world, next.head, FieldAt(at), job.options);
      if v.Err? then FailJob(s, job)
      else s.(phase := Reading(job, at + 1, WithField(next, v.value), KeptAfter(kept, FieldAt(at), job.options)))
    else s.(phase := Reading(job, at + 1, next, kept))
  }

  ghost function Mutated(layout: Layout, s: State, w: World, env: Environment, disk: Disk, events: seq<WatchEvent>): State {
    State(w, env, disk, s.undelivered + events, s.box, s.watches, s.cached, s.subscribed,
          if s.phase.Reading? then s.phase.(kept := StillSound(layout, s, w, env, events, s.phase.kept)) else s.phase,
          StillSound(layout, s, w, env, events, s.sound))
  }

  ghost function Delivered(s: State): State
    requires s.undelivered != []
  {
    var rest := s.(undelivered := s.undelivered[1..]);
    if ShouldRefreshForEvent(s.undelivered[0]) then rest.(box := Enqueue(s.box, s.undelivered[0])) else rest
  }

  ghost function Apply(layout: Layout, s: State, step: Step): State
    requires Enabled(layout, s, step)
  {
    match step
    case Mutate(w, env, disk, events) => Mutated(layout, s, w, env, disk, events)
    case Deliver => Delivered(s)
    case TakeOverflow => Handled(layout, s.(box := s.box.(overflowed := false)), Failed)
    case Take => TakeEvent(layout, s)
    case Resume => Handled(layout, s, s.phase.event)
    case Cancel(handled) => Cancelled(layout, s, handled)
    case BeginDrain =>
      if s.box.overflowed then Start(s.(box := s.box.(overflowed := false)), WatchJob(s, Full))
      else s.(phase := Draining(s.phase.plan, 0))
    case DrainOne =>
      s.(box := s.box.(queue := s.box.queue[1..]),
         watches := AfterEvent(s.watches, layout, s.env, s.disk, s.box.queue[0]).0,
         phase := Draining(s.phase.plan.Combine(PlanForEvent(s.env, layout, s.box.queue[0])), s.phase.drained + 1))
    case EndDrain => FinishDrain(s, s.phase.plan)
    case Open =>
      if s.world.discover.Some? then FailJob(s, s.phase.job)
      else s.(phase := Reading(s.phase.job, 0, s.cached.UnwrapOr(BLANK), if s.cached.Some? then s.sound else {}))
    case ReadNext => ReadOne(s)
    case Commit => s.(cached := Some(s.phase.next), phase := Idle, sound := s.phase.kept)
    case Subscribe => Start(s.(subscribed := true), Job(ALL_DOMAINS, true, DEFAULT_OPTIONS))
    case Unsubscribe => s.(subscribed := false)
    case RefreshRequest(options) => Start(s, Job(ALL_DOMAINS, true, options))
    case FullRefresh => Start(s, Job(ALL_DOMAINS, false, DEFAULT_OPTIONS))
  }

  ghost predicate ValidRun(layout: Layout, s: State, steps: seq<Step>)
    decreases |steps|
  {
    steps == [] || (Enabled(layout, s, steps[0]) && ValidRun(layout, Apply(layout, s, steps[0]), steps[1..]))
  }

  ghost function Run(layout: Layout, s: State, steps: seq<Step>): State
    requires ValidRun(layout, s, steps)
    decreases |steps|
  {
    if steps == [] then s else Run(layout, Apply(layout, s, steps[0]), steps[1..])
  }

  /** A watcher has just started; nothing is known about an older snapshot. */
  ghost predicate Init(s: State) {
    s.phase.Idle? && s.sound == {}
  }

  // ---------------------------------------------------------------- the invariant

  /** Every field of a sound domain is what a full read would see, or promised, or pending. */
  ghost predicate Covered(layout: Layout, s: State, snapshot: RepositorySnapshot, sound: set<RefreshDomain>, promised: set<Field>) {
    forall f: Field :: DomainOf(f) in sound ==>
      Fresh(s.world, snapshot, f, DEFAULT_OPTIONS) || f in promised || Pending(layout, s, DomainOf(f))
  }

  ghost function FieldsOfPlan(plan: RefreshPlan): set<Field> {
    set f: Field | plan.Covers(DomainOf(f))
  }

  /** The fields that a read standing at `at` has still to read. */
  ghost function Unread(job: Job, at: nat): set<Field> {
    set f: Field | Index(f) >= at && DomainOf(f) in job.domains
  }

  ghost predicate CachedCovered(layout: Layout, s: State, promised: set<Field>) {
    s.cached.Some? ==> Covered(layout, s, s.cached.value, s.sound, promised)
  }

  ghost predicate HeadWithUpstream(sound: set<RefreshDomain>) {
    Upstream in sound ==> Head in sound
  }

  /** No stale field of a sound domain is ever forgotten. */
  ghost predicate Inv(layout: Layout, s: State) {
    && HeadWithUpstream(s.sound) && (s.sound != {} ==> s.cached.Some?)
    && match s.phase
       case Idle => CachedCovered(layout, s, {})
       case Received(_) => CachedCovered(layout, s, {})
       case Debouncing(plan) => CachedCovered(layout, s, FieldsOfPlan(plan))
       case Draining(plan, _) => CachedCovered(layout, s, FieldsOfPlan(plan))
       case Opening(job) => CachedCovered(layout, s, if job.onRequest then {} else Unread(job, 0))
       case Reading(job, at, next, kept) =>
         && at <= FIELDS && HeadWithUpstream(kept)
         && (job.options == DEFAULT_OPTIONS ==> s.sound <= kept)
         && (job.onRequest ==> CachedCovered(layout, s, {}))
         && Covered(layout, s, next, kept, Unread(job, at))
       case Stopped => true
  }

  // ---------------------------------------------------------------- preservation

  lemma RaisedConcat(layout: Layout, env: Environment, a: seq<WatchEvent>, b: seq<WatchEvent>, d: RefreshDomain)
    ensures Raised(layout, env, a + b, d) <==> Raised(layout, env, a, d) || Raised(layout, env, b, d)
  {
  }

  lemma RaisedOne(layout: Layout, env: Environment, e: WatchEvent, d: RefreshDomain)
    ensures Raised(layout, env, [e], d) <==> PlanForEvent(env, layout, e).Covers(d)
  {
  }

  /** Late classification is safe: what was pending before a reported change is pending after
      it, although the waiting events are now classified in a different environment. */
  lemma PendingSurvives(layout: Layout, s: State, w: World, env: Environment, disk: Disk, events: seq<WatchEvent>, d: RefreshDomain)
    requires Pending(layout, s, d) && Reported(layout, s, w, env, events, d)
    ensures Pending(layout, Mutated(layout, s, w, env, disk, events), d)
  {
    var s' := Mutated(layout, s, w, env, disk, events);
    if !s.box.overflowed {
      assert Waiting(s') == Waiting(s) + events;
      RaisedConcat(layout, env, Waiting(s), events, d);
      var e :| e in Waiting(s) && PlanForEvent(s.env, layout, e).Covers(d);
      if !PlanForEvent(env, layout, e).Covers(d) && SameExcludes(s.env, env) {
        EventPlanDrift(s.env, env, layout, e, d);
      }
    }
  }

  lemma CoveredSurvives(layout: Layout, s: State, w: World, env: Environment, disk: Disk, events: seq<WatchEvent>,
                        snapshot: RepositorySnapshot, sound: set<RefreshDomain>, promised: set<Field>)
    requires Covered(layout, s, snapshot, sound, promised)
    ensures Covered(layout, Mutated(layout, s, w, env, disk, events), snapshot, StillSound(layout, s, w, env, events, sound), promised)
  {
    var s' := Mutated(layout, s, w, env, disk, events);
    forall f: Field | DomainOf(f) in sound && Reported(layout, s, w, env, events, DomainOf(f))
      ensures Fresh(w, snapshot, f, DEFAULT_OPTIONS) || f in promised || Pending(layout, s', DomainOf(f))
    {
      if Fresh(s.world, snapshot, f, DEFAULT_OPTIONS) {
        if !Fresh(w, snapshot, f, DEFAULT_OPTIONS) {
          assert Waiting(s') == Waiting(s) + events;
          RaisedConcat(layout, env, Waiting(s), events, DomainOf(f));
        }
      } else if f !in promised {
        PendingSurvives(layout, s, w, env, disk, events, DomainOf(f));
      }
    }
  }

  lemma MutateKeepsInv(layout: Layout, s: State, w: World, env: Environment, disk: Disk, events: seq<WatchEvent>)
    requires Inv(layout, s)
    ensures Inv(layout, Mutated(layout, s, w, env, disk, events))
  {
    forall snapshot, sound, promised | Covered(layout, s, snapshot, sound, promised)
      ensures Covered(layout, Mutated(layout, s, w, env, disk, events), snapshot,
                      StillSound(layout, s, w, env, events, sound), promised)
    {
      CoveredSurvives(layout, s, w, env, disk, events, snapshot, sound, promised);
    }
  }

  lemma WaitingDelivered(s: State)
    requires s.undelivered != []
    ensures ShouldRefreshForEvent(s.undelivered[0]) && !Delivered(s).box.overflowed ==> Waiting(Delivered(s)) == Waiting(s)
    ensures forall e :: e in Waiting(s) && e != s.undelivered[0] ==> Delivered(s).box.overflowed || e in Waiting(Delivered(s))
  {
    assert s.undelivered == [s.undelivered[0]] + s.undelivered[1..];
  }

  /** Dropping into the full queue, or filtering out, loses nothing that was pending. */
  lemma DeliverKeepsPending(layout: Layout, s: State, d: RefreshDomain)
    requires s.undelivered != [] && Pending(layout, s, d)
    ensures Pending(layout, Delivered(s), d)
  {
    WaitingDelivered(s);
    FilteredEventHasNoPlan(s.env, layout, s.undelivered[0]);
  }

  lemma DeliverKeepsInv(layout: Layout, s: State)
    requires Inv(layout, s) && s.undelivered != []
    ensures Inv(layout, Delivered(s))
  {
    forall snapshot, sound, promised | Covered(layout, s, snapshot, sound, promised)
      ensures Covered(layout, Delivered(s), snapshot, sound, promised)
    {
      forall f: Field | DomainOf(f) in sound
        ensures Fresh(s.world, snapshot, f, DEFAULT_OPTIONS) || f in promised || Pending(layout, Delivered(s), DomainOf(f))
      {
        if Pending(layout, s, DomainOf(f)) { DeliverKeepsPending(layout, s, DomainOf(f)); }
      }
    }
  }

  /** A state and an event that has left the queue: what was pending before is asked for by the
      event or pending still. */
  ghost predicate TakenFrom(layout: Layout, s: State, rest: State, event: WatchEvent) {
    forall d: RefreshDomain :: Pending(layout, s, d) ==>
      PlanForEvent(s.env, layout, event).Covers(d) || Pending(layout, rest, d)
  }

  lemma WithoutKeepsHead(layout: Layout, env: Environment, event: WatchEvent, sound: set<RefreshDomain>)
    requires HeadWithUpstream(sound)
    ensures HeadWithUpstream(Without(sound, PlanForEvent(env, layout, event)))
  {
    EventPlanClosed(env, layout, event);
  }

  /** Handling an event puts what it asks for into the plan in flight, or out of what is sound. */
  lemma HandledKeepsInv(layout: Layout, s: State, rest: State, event: WatchEvent)
    requires Inv(layout, s) && (s.phase.Idle? || s.phase.Received?)
    requires rest == s.(box := rest.box, phase := rest.phase) && !rest.phase.Received?
    requires TakenFrom(layout, s, rest, event)
    ensures Inv(layout, Handled(layout, rest, event))
  {
    var s' := Handled(layout, rest, event);
    var plan := PlanForEvent(s.env, layout, event);
    WithoutKeepsHead(layout, s.env, event, s.sound);
    assert Waiting(s') == Waiting(rest);
    if s.cached.Some? {
      forall f: Field | DomainOf(f) in s.sound
        ensures Fresh(s.world, s.cached.value, f, DEFAULT_OPTIONS) || plan.Covers(DomainOf(f)) || Pending(layout, s', DomainOf(f))
      {
        assert Pending(layout, s, DomainOf(f)) ==> plan.Covers(DomainOf(f)) || Pending(layout, rest, DomainOf(f));
      }
    }
  }

  lemma OverflowTaken(layout: Layout, s: State)
    requires s.phase.Idle? && s.box.overflowed
    ensures TakenFrom(layout, s, s.(box := s.box.(overflowed := false)), Failed)
  {
  }

  lemma QueueTaken(layout: Layout, s: State)
    requires s.phase.Idle? && s.box.queue != []
    ensures TakenFrom(layout, s, s.(box := s.box.(queue := s.box.queue[1..])), s.box.queue[0])
  {
    var rest := s.(box := s.box.(queue := s.box.queue[1..]));
    assert Waiting(s) == [s.box.queue[0]] + Waiting(rest);
    forall d: RefreshDomain | Pending(layout, s, d)
      ensures PlanForEvent(s.env, layout, s.box.queue[0]).Covers(d) || Pending(layout, rest, d)
    {
      RaisedConcat(layout, s.env, [s.box.queue[0]], Waiting(rest), d);
      RaisedOne(layout, s.env, s.box.queue[0], d);
    }
  }

  lemma TakeOverflowKeepsInv(layout: Layout, s: State)
    requires Inv(layout, s) && Enabled(layout, s, TakeOverflow)
    ensures Inv(layout, Apply(layout, s, TakeOverflow))
  {
    OverflowTaken(layout, s);
    HandledKeepsInv(layout, s, s.(box := s.box.(overflowed := false)), Failed);
  }

  lemma TakeKeepsInv(layout: Layout, s: State)
    requires Inv(layout, s) && Enabled(layout, s, Take)
    ensures Inv(layout, TakeEvent(layout, s))
  {
    var event, taken := s.box.queue[0], s.(box := s.box.(queue := s.box.queue[1..]));
    QueueTaken(layout, s);
    if Suspends(s.watches, layout, s.env, s.disk, event) {
      assert Waiting(taken.(phase := Received(event))) == Waiting(s);
    } else {
      HandledKeepsInv(layout, s, taken, event);
    }
  }

  /** What the received event asked for leaves the waiting events with it. */
  lemma ReceivedTaken(layout: Layout, s: State)
    requires s.phase.Received?
    ensures TakenFrom(layout, s, s.(phase := Idle), s.phase.event)
  {
    assert Waiting(s) == [s.phase.event] + Waiting(s.(phase := Idle));
    forall d: RefreshDomain | Pending(layout, s, d)
      ensures PlanForEvent(s.env, layout, s.phase.event).Covers(d) || Pending(layout, s.(phase := Idle), d)
    {
      RaisedConcat(layout, s.env, [s.phase.event], Waiting(s.(phase := Idle)), d);
      RaisedOne(layout, s.env, s.phase.event, d);
    }
  }

  lemma ResumeKeepsInv(layout: Layout, s: State)
    requires Inv(layout, s) && s.phase.Received?
    ensures Inv(layout, Handled(layout, s, s.phase.event))
  {
    ReceivedTaken(layout, s);
    HandledKeepsInv(layout, s, s.(phase := Idle), s.phase.event);
    assert Handled(layout, s, s.phase.event) == Handled(layout, s.(phase := Idle), s.phase.event);
  }

  lemma CancelKeepsInv(layout: Layout, s: State, handled: nat)
    requires Inv(layout, s) && Enabled(layout, s, Cancel(handled))
    ensures Inv(layout, Cancelled(layout, s, handled))
  {
    var s' := Cancelled(layout, s, handled);
    ReceivedTaken(layout, s);
    WithoutKeepsHead(layout, s.env, s.phase.event, s.sound);
    assert Waiting(s') == Waiting(s.(phase := Idle));
    if s.cached.Some? {
      forall f: Field | DomainOf(f) in s'.sound
        ensures Fresh(s.world, s.cached.value, f, DEFAULT_OPTIONS) || Pending(layout, s', DomainOf(f))
      {
        assert Pending(layout, s, DomainOf(f)) ==> Pending(layout, s.(phase := Idle), DomainOf(f));
      }
    }
  }

  lemma DrainOneKeepsInv(layout: Layout, s: State)
    requires Inv(layout, s) && Enabled(layout, s, DrainOne)
    ensures Inv(layout, Apply(layout, s, DrainOne))
  {
    var s' := Apply(layout, s, DrainOne);
    var event := s.box.queue[0];
    assert Waiting(s) == [event] + Waiting(s');
    if s.cached.Some? {
      forall f: Field | DomainOf(f) in s.sound
        ensures Fresh(s.world, s.cached.value, f, DEFAULT_OPTIONS) || f in FieldsOfPlan(s'.phase.plan) || Pending(layout, s', DomainOf(f))
      {
        RaisedConcat(layout, s.env, [event], Waiting(s'), DomainOf(f));
        RaisedOne(layout, s.env, event, DomainOf(f));
        CombineCovers(s.phase.plan, PlanForEvent(s.env, layout, event), DomainOf(f));
      }
    }
  }

  lemma EveryFieldUnread(job: Job)
    requires job.domains == ALL_DOMAINS
    ensures forall f: Field :: f in Unread(job, 0)
  {
    forall f: Field { EveryDomain(f); }
  }

  lemma PlannedIsUnread(s: State, plan: RefreshPlan)
    ensures FieldsOfPlan(plan) <= Unread(WatchJob(s, plan), 0)
  {
    if WatchJob(s, plan).domains == ALL_DOMAINS { EveryFieldUnread(WatchJob(s, plan)); }
  }

  /** The plan with which a debounce turn ends covers what its parts covered. */
  lemma StartKeepsInv(layout: Layout, s: State, plan: RefreshPlan)
    requires HeadWithUpstream(s.sound) && (s.sound != {} ==> s.cached.Some?)
    requires CachedCovered(layout, s, FieldsOfPlan(plan)) && !s.phase.Received?
    requires s.box.overflowed ==> plan.Full?
    ensures Inv(layout, Start(s.(box := s.box.(overflowed := false)), WatchJob(s, plan)))
  {
    var s' := Start(s.(box := s.box.(overflowed := false)), WatchJob(s, plan));
    PlannedIsUnread(s, plan);
    if plan.Full? { EveryFieldUnread(WatchJob(s, plan)); }
    assert Waiting(s') == Waiting(s);
  }

  lemma DrainEndsKeepInv(layout: Layout, s: State, step: Step)
    requires Inv(layout, s) && Enabled(layout, s, step)
    requires step == BeginDrain || step == EndDrain
    ensures Inv(layout, Apply(layout, s, step))
  {
    var plan := s.phase.plan;
    if s.box.overflowed {
      assert CachedCovered(layout, s, FieldsOfPlan(Full)) by {
        assert forall f: Field :: f in FieldsOfPlan(Full);
      }
      StartKeepsInv(layout, s, Full);
    } else if step == EndDrain {
      assert s.(box := s.box.(overflowed := false)) == s;
      if plan.ShouldRefresh() {
        StartKeepsInv(layout, s, plan);
      } else {
        assert FieldsOfPlan(plan) == {};
      }
    }
  }

  /** A pending reread of the head is a pending reread of `upstream`: the closure of the
      classifier's plans at work. */
  lemma PendingHeadIsPendingUpstream(layout: Layout, s: State)
    requires Pending(layout, s, Head)
    ensures Pending(layout, s, Upstream)
  {
    if !s.box.overflowed {
      var e :| e in Waiting(s) && PlanForEvent(s.env, layout, e).Covers(Head);
      EventPlanClosed(s.env, layout, e);
    }
  }

  /** Reading a field leaves the others alone. */
  lemma ReadOneSets(s: State)
    requires s.phase.Reading? && s.phase.at < FIELDS && ReadOne(s).phase.Reading?
    ensures forall f: Field :: f != FieldAt(s.phase.at) || DomainOf(f) !in s.phase.job.domains ==>
      FieldOf(ReadOne(s).phase.next, f) == FieldOf(s.phase.next, f)
  {
    var v := ReadField(s.world, s.phase.next.head, FieldAt(s.phase.at), s.phase.job.options);
    if v.Ok? { WithFieldSets(s.phase.next, v.value); }
  }

  /** The read field is what a full read would see, unless it was asked about a stale head, or
      with other options than the default ones. */
  lemma JustReadIsFresh(s: State, f: Field)
    requires s.phase.Reading? && s.phase.at < FIELDS && f == FieldAt(s.phase.at) && DomainOf(f) in s.phase.job.domains
    requires ReadOne(s).phase.Reading?
    requires f == PathsField ==> s.phase.job.options == DEFAULT_OPTIONS
    requires AsksAboutHead(f) ==> Fresh(s.world, s.phase.next, HeadField, DEFAULT_OPTIONS)
    ensures Fresh(s.world, ReadOne(s).phase.next, f, DEFAULT_OPTIONS)
  {
    var v := ReadField(s.world, s.phase.next.head, f, s.phase.job.options);
    WithFieldSets(s.phase.next, v.value);
  }

  lemma JustReadCovered(layout: Layout, s: State, f: Field)
    requires s.phase.Reading? && s.phase.at < FIELDS && f == FieldAt(s.phase.at) && DomainOf(f) in s.phase.job.domains
    requires Covered(layout, s, s.phase.next, s.phase.kept, Unread(s.phase.job, s.phase.at))
    requires HeadWithUpstream(s.phase.kept) && ReadOne(s).phase.Reading?
    requires DomainOf(f) in KeptAfter(s.phase.kept, f, s.phase.job.options)
    ensures Fresh(s.world, ReadOne(s).phase.next, f, DEFAULT_OPTIONS) || Pending(layout, s, DomainOf(f))
  {
    if AsksAboutHead(f) && !Fresh(s.world, s.phase.next, HeadField, DEFAULT_OPTIONS) {
      assert Head in s.phase.kept && DomainOf(HeadField) == Head;
      assert HeadField !in Unread(s.phase.job, s.phase.at);
      assert Pending(layout, s, Head);
      PendingHeadIsPendingUpstream(layout, s);
    } else {
      JustReadIsFresh(s, f);
    }
  }

  /** Reading one field keeps the snapshot covered. The head that `upstream` and the commit
      are computed from may have moved since it was read; then a reread is pending. */
  lemma ReadNextCovered(layout: Layout, s: State)
    requires s.phase.Reading? && s.phase.at < FIELDS && HeadWithUpstream(s.phase.kept)
    requires Covered(layout, s, s.phase.next, s.phase.kept, Unread(s.phase.job, s.phase.at))
    requires ReadOne(s).phase.Reading?
    ensures var s' := ReadOne(s);
      Covered(layout, s', s'.phase.next, s'.phase.kept, Unread(s'.phase.job, s'.phase.at)) && HeadWithUpstream(s'.phase.kept)
  {
    var s' := ReadOne(s);
    var Reading(job, at, next, kept) := s.phase;
    assert forall f: Field :: Index(f) == at ==> f == FieldAt(at);
    ReadOneSets(s);
    assert Waiting(s') == Waiting(s);
    forall f: Field | DomainOf(f) in s'.phase.kept
      ensures Fresh(s.world, s'.phase.next, f, DEFAULT_OPTIONS) || f in Unread(job, at + 1) || Pending(layout, s', DomainOf(f))
    {
      assert Pending(layout, s', DomainOf(f)) <==> Pending(layout, s, DomainOf(f));
      if f == FieldAt(at) && DomainOf(f) in job.domains {
        JustReadCovered(layout, s, f);
      } else if DomainOf(f) !in kept {
        NewlyKept(s, f);
      } else {
        assert Fresh(s.world, next, f, DEFAULT_OPTIONS) || f in Unread(job, at) || Pending(layout, s, DomainOf(f));
      }
    }
  }

  /** The only other field of a domain that becomes sound is the commit of the head, and that is
      read next. */
  lemma NewlyKept(s: State, f: Field)
    requires s.phase.Reading? && s.phase.at < FIELDS && ReadOne(s).phase.Reading?
    requires f != FieldAt(s.phase.at) && DomainOf(f) in ReadOne(s).phase.kept - s.phase.kept
    ensures f in Unread(s.phase.job, s.phase.at + 1)
  {
  }

  lemma ReadNextKeepsInv(layout: Layout, s: State)
    requires Inv(layout, s) && Enabled(layout, s, ReadNext)
    ensures Inv(layout, ReadOne(s))
  {
    assert Waiting(ReadOne(s)) == Waiting(s);
    if ReadOne(s).phase.Reading? {
      ReadNextCovered(layout, s);
    }
  }

  lemma OpenKeepsInv(layout: Layout, s: State)
    requires Inv(layout, s) && Enabled(layout, s, Open)
    ensures Inv(layout, Apply(layout, s, Open))
  {
    assert Waiting(Apply(layout, s, Open)) == Waiting(s);
  }

  lemma CommitKeepsInv(layout: Layout, s: State)
    requires Inv(layout, s) && Enabled(layout, s, Commit)
    ensures Inv(layout, Apply(layout, s, Commit))
  {
    assert Waiting(Apply(layout, s, Commit)) == Waiting(s);
    assert Unread(s.phase.job, FIELDS) == {};
  }

  lemma RequestsKeepInv(layout: Layout, s: State, step: Step)
    requires Inv(layout, s) && Enabled(layout, s, step)
    requires step in {Subscribe, Unsubscribe, FullRefresh} || step.RefreshRequest?
    ensures Inv(layout, Apply(layout, s, step))
  {
    assert Waiting(Apply(layout, s, step)) == Waiting(s);
    EveryFieldUnread(Job(ALL_DOMAINS, false, DEFAULT_OPTIONS));
  }

  /** Every step of the system keeps the invariant. */
  lemma StepKeepsInv(layout: Layout, s: State, step: Step)
    requires Inv(layout, s) && Enabled(layout, s, step)
    ensures Inv(layout, Apply(layout, s, step))
  {
    match step
    case Mutate(w, env, disk, events) => MutateKeepsInv(layout, s, w, env, disk, events);
    case Deliver => DeliverKeepsInv(layout, s);
    case TakeOverflow => TakeOverflowKeepsInv(layout, s);
    case Take => TakeKeepsInv(layout, s);
    case Resume => ResumeKeepsInv(layout, s);
    case Cancel(handled) => CancelKeepsInv(layout, s, handled);
    case DrainOne => DrainOneKeepsInv(layout, s);
    case BeginDrain => DrainEndsKeepInv(layout, s, step);
    case EndDrain => DrainEndsKeepInv(layout, s, step);
    case Open => OpenKeepsInv(layout, s);
    case ReadNext => ReadNextKeepsInv(layout, s);
    case Commit => CommitKeepsInv(layout, s);
    case _ => RequestsKeepInv(layout, s, step);
  }

  lemma {:induction false} RunKeepsInv(layout: Layout, s: State, steps: seq<Step>)
    requires Inv(layout, s) && ValidRun(layout, s, steps)
    ensures Inv(layout, Run(layout, s, steps))
    decreases |steps|
  {
    if steps != [] {
      StepKeepsInv(layout, s, steps[0]);
      RunKeepsInv(layout, Apply(layout, s, steps[0]), steps[1..]);
    }
  }
}
