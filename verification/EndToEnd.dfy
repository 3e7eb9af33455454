/** The parts put together: the server loop, the pipeline behind it and the client at the end of
    the stream. */
module EndToEnd {
  import opened Wrappers
  import opened Model
  import opened Paths
  import opened Deltas
  import opened Repository
  import opened Classify
  import opened EventQueue
  import opened Watch
  import opened Pipeline
  import opened Convergence
  import PipelineRuns
  import opened Protocol
  import opened ProtocolAnswers
  import Replica
  import opened Server

  // ---------------------------------------------------------------- a server run is a replica run

  ghost function Acts(actions: seq<Replica.Action>): (r: seq<Replica.Event>)
    ensures |r| == |actions|
  {
    if actions == [] then [] else [Replica.Act(actions[0])] + Acts(actions[1..])
  }

  lemma {:induction false} ActsServe(s: Replica.System, actions: seq<Replica.Action>)
    requires forall a :: a in actions ==> Replica.Sound(a)
    ensures Replica.PossibleRun(s, Acts(actions))
    ensures var last := Replica.After(s, Acts(actions));
      && last.server == ServeAll(s.server, actions).0
      && s.sent <= last.sent
      && forall m :: m in ServeAll(s.server, actions).1 ==> m in last.sent
    decreases |actions|
  {
    if actions != [] {
      var next := Replica.Next(s, Replica.Act(actions[0]));
      assert actions[0] in actions && forall a :: a in actions[1..] ==> a in actions;
      ActsServe(next, actions[1..]);
      assert Acts(actions)[0] == Replica.Act(actions[0]) && Acts(actions)[1..] == Acts(actions[1..]);
    }
  }

  /** Every run of the server is a run of the stream contract: it ends in the same state, and all
      it has sent, save a goodbye, is what the contract sends. What is proved about clients over
      any channel holds of it. */
  lemma ScriptIsReplicaRun(script: seq<Input>)
    requires ValidScript(INITIAL, script)
    requires forall a :: a in ActionsOf(INITIAL, script) ==> Replica.Sound(a)
    ensures var events := Acts(ActionsOf(INITIAL, script));
      && Replica.PossibleRun(Replica.START, events)
      && Replica.After(Replica.START, events).server == RunLoop(INITIAL, script).0.process
      && forall m :: m in RunLoop(INITIAL, script).1 ==> m in Replica.After(Replica.START, events).sent || IsGoodbye(m)
  {
    var actions := ActionsOf(INITIAL, script);
    ScriptServes(INITIAL, script);
    ActsServe(Replica.START, actions);
    var (last, out) := RunLoop(INITIAL, script);
    var served := ServeAll(INITIAL.process, actions).1;
    if out != served {
      forall m | m in out ensures m in served || IsGoodbye(m) {
        var i :| 0 <= i < |out| && out[i] == m;
        assert i < |out| - 1 ==> out[..|out| - 1][i] == m;
      }
    }
  }

  // ---------------------------------------------------------------- a client of the server

  lemma {:induction false} ReceiveConcat(client: Option<Replica.Copy>, a: seq<ServerMessage>, b: seq<ServerMessage>)
    ensures Replica.ReceiveAll(client, a + b) == Replica.ReceiveAll(Replica.ReceiveAll(client, a), b)
    decreases |a|
  {
    if a == [] {
      assert a + b == b;
    } else {
      assert (a + b)[0] == a[0] && (a + b)[1..] == a[1..] + b;
      ReceiveConcat(Replica.Receive(client, a[0]), a[1..], b);
    }
  }

  ghost predicate WellFormedLatest(p: Process) {
    p.latest.Some? ==> WellFormed(p.latest.value.paths)
  }

  lemma ActionKeepsStep(p: Process, client: Option<Replica.Copy>, action: Replica.Action)
    requires Replica.InStep(p, client) && WellFormedLatest(p)
    requires Replica.Sound(action) && !Replica.SuppressedRefresh(action)
    ensures var (next, messages) := Replica.Serve(p, action);
      Replica.InStep(next, Replica.ReceiveAll(client, messages)) && WellFormedLatest(next)
  {
    Replica.InStepExact(p, client, action);
    Replica.ServeCases(p, action);
  }

  lemma {:induction false} ActionsKeepStep(p: Process, client: Option<Replica.Copy>, actions: seq<Replica.Action>)
    requires Replica.InStep(p, client) && WellFormedLatest(p)
    requires forall a :: a in actions ==> Replica.Sound(a) && !Replica.SuppressedRefresh(a)
    ensures var (last, messages) := ServeAll(p, actions);
      Replica.InStep(last, Replica.ReceiveAll(client, messages)) && WellFormedLatest(last)
    decreases |actions|
  {
    if actions != [] {
      assert actions[0] in actions && forall a :: a in actions[1..] ==> a in actions;
      var (next, messages) := Replica.Serve(p, actions[0]);
      ActionKeepsStep(p, client, actions[0]);
      ActionsKeepStep(next, Replica.ReceiveAll(client, messages), actions[1..]);
      ReceiveConcat(client, messages, ServeAll(next, actions[1..]).1);
    }
  }

  /** A client that receives all the server writes, and sends no refresh without an id, holds the
      server's snapshot up to conflict stages at the end of every run. */
  lemma ScriptKeepsClientInStep(script: seq<Input>)
    requires ValidScript(INITIAL, script)
    requires forall a :: a in ActionsOf(INITIAL, script) ==> Replica.Sound(a) && !Replica.SuppressedRefresh(a)
    ensures var (last, out) := RunLoop(INITIAL, script);
      Replica.InStep(last.process, Replica.ReceiveAll(None, out))
  {
    var actions := ActionsOf(INITIAL, script);
    var (last, out) := RunLoop(INITIAL, script);
    var served := ServeAll(INITIAL.process, actions).1;
    ScriptServes(INITIAL, script);
    ActionsKeepStep(INITIAL.process, None, actions);
    GoodbyeIsIgnored(None, out, served, last);
  }

  lemma GoodbyeIsIgnored(client: Option<Replica.Copy>, out: seq<ServerMessage>, served: seq<ServerMessage>, last: Loop)
    requires Ends(out, served, last)
    ensures Replica.ReceiveAll(client, out) == Replica.ReceiveAll(client, served)
  {
    if out != served {
      var goodbye := out[|out| - 1];
      assert out == served + [goodbye];
      ReceiveConcat(client, served, [goodbye]);
      assert [goodbye][1..] == [];
    }
  }

  // ---------------------------------------------------------------- an iteration is a pipeline run

  lemma UpdateRecords(p: Process, snapshot: RepositorySnapshot)
    ensures Update(p, snapshot).0.latest == Some(snapshot) && Update(p, snapshot).0.subscribed == p.subscribed
  {
  }

  /** The loop and the pipeline agree on what the server knows. */
  ghost predicate Agree(l: Loop, s: State) {
    && l.process.latest == s.cached && l.process.subscribed == s.subscribed
    && (l.running <==> !s.phase.Stopped?)
  }

  /** What the loop gets from the watcher and from libgit2 when nothing disturbs the turn that
      `s` has taken an event for. */
  ghost function TurnInput(layout: Layout, s: State): Input
    requires s.phase.Debouncing?
  {
    var plan := DrainPendingPlan(s.env, layout, s.box, s.phase.plan).1;
    WatchEventTaken(s.phase.plan, plan, Refresh(s.world, s.cached, plan, DEFAULT_OPTIONS))
  }

  /** An undisturbed iteration of the loop in watcher mode, from the classified event on, is a run
      of the pipeline up to the stored snapshot or the end of the server. */
  lemma IterationIsPipelineRun(layout: Layout, l: Loop, s: State) returns (steps: seq<Step>)
    requires l.watcher && Agree(l, s) && s.subscribed
    requires s.phase.Debouncing? && s.phase.plan.ShouldRefresh()
    ensures ValidRun(layout, s, steps)
    ensures var last := Run(layout, s, steps);
      && Selectable(l, TurnInput(layout, s)) && Agree(Iterate(l, TurnInput(layout, s)).0, last)
      && (last.phase.Idle? || last.phase.Stopped?)
  {
    steps := PipelineRuns.UndisturbedTurn(layout, s);
    PipelineRuns.DrainedPlanRefreshes(layout, s, s.phase.plan);
    var refresh := Refresh(s.world, s.cached, DrainPendingPlan(s.env, layout, s.box, s.phase.plan).1, DEFAULT_OPTIONS);
    if refresh.Ok? { UpdateRecords(l.process, refresh.value.snapshot); }
  }

  /** A line is a run of the pipeline too, with reads of the repository as it is: a subscription and
      a refresh are a request, the end of a subscription a step, and any other line none. */
  lemma LineIsPipelineRun(layout: Layout, p: Process, s: State, line: Result<Json, string>) returns (steps: seq<Step>)
    requires s.phase.Idle? && p.latest == s.cached && p.subscribed == s.subscribed
    ensures ValidRun(layout, s, steps)
    ensures var next := Handle(p, line, options => SnapshotRepository(s.world, options)).0;
      var last := Run(layout, s, steps);
      last.phase.Idle? && next.latest == last.cached && next.subscribed == last.subscribed
  {
    var read := options => SnapshotRepository(s.world, options);
    steps := [];
    if !ValidLine(line) {
      InvalidAnswers(p, line, read);
    } else {
      var o := line.value.members;
      if o["method"] == String("gitseer/subscribe") {
        SubscribeAnswers(p, line, read);
        steps := PipelineRuns.UndisturbedRequest(layout, s, DEFAULT_OPTIONS, true);
      } else if o["method"] == String("gitseer/unsubscribe") {
        UnsubscribeAnswers(p, line, read);
        PipelineRuns.RunOne(layout, s, Unsubscribe);
        steps := [Unsubscribe];
      } else if o["method"] == String("gitseer/refresh") {
        steps := RefreshIsPipelineRun(layout, p, s, line);
      } else {
        OtherLinesReadNothing(p, line, read);
      }
    }
  }

  lemma RefreshIsPipelineRun(layout: Layout, p: Process, s: State, line: Result<Json, string>) returns (steps: seq<Step>)
    requires s.phase.Idle? && p.latest == s.cached && p.subscribed == s.subscribed
    requires ValidLine(line) && line.value.members["method"] == String("gitseer/refresh")
    ensures ValidRun(layout, s, steps)
    ensures var next := Handle(p, line, options => SnapshotRepository(s.world, options)).0;
      var last := Run(layout, s, steps);
      last.phase.Idle? && next.latest == last.cached && next.subscribed == last.subscribed
  {
    var read := options => SnapshotRepository(s.world, options);
    RefreshAnswers(p, line, read, true);
    RefreshAnswers(p, line, read, false);
    steps := [];
    if AsksFor(line.value.members, true) {
      steps := PipelineRuns.UndisturbedRequest(layout, s, SnapshotOptions(true), false);
    } else if AsksFor(line.value.members, false) {
      steps := PipelineRuns.UndisturbedRequest(layout, s, SnapshotOptions(false), false);
    }
  }

  lemma OtherLinesReadNothing(p: Process, line: Result<Json, string>, read: Reader)
    requires ValidLine(line)
    requires line.value.members["method"].s !in {"gitseer/subscribe", "gitseer/unsubscribe", "gitseer/refresh"}
    ensures Handle(p, line, read).0 == p
  {
    ValidIsDispatched(p, line, read);
  }

  /** So is the full read that a tick, or the start of the watcher or of polling, makes for a
      subscriber. */
  lemma FullReadIsPipelineRun(layout: Layout, l: Loop, s: State, input: Input) returns (steps: seq<Step>)
    requires Agree(l, s) && s.subscribed && s.phase.Idle?
    requires input in {Tick(SnapshotRepository(s.world, DEFAULT_OPTIONS)),
                       WatcherStarted(true, SnapshotRepository(s.world, DEFAULT_OPTIONS)),
                       WatcherStarted(false, SnapshotRepository(s.world, DEFAULT_OPTIONS))}
    ensures ValidRun(layout, s, steps)
    ensures var last := Run(layout, s, steps);
      Agree(Iterate(l, input).0, last) && (last.phase.Idle? || last.phase.Stopped?)
  {
    var full := SnapshotRepository(s.world, DEFAULT_OPTIONS);
    steps := PipelineRuns.UndisturbedFullRead(layout, s);
    if full.Ok? { UpdateRecords(l.process, full.value); }
  }

  // ---------------------------------------------------------------- from the repository to the client

  /** The pipeline, the process state behind it, and a client that receives all that is sent. */
  datatype Joint = Joint(s: State, p: Process, client: Option<Replica.Copy>)

  /** A pipeline step, and what the server answers or sends with it. */
  datatype Move = Move(step: Step, action: Option<Replica.Action>)

  /** A stored snapshot is recorded by the process: as an update if the watcher asked for it, by
      the request that asked for it otherwise. Any other line leaves the snapshot alone. */
  ghost predicate Fits(j: Joint, move: Move) {
    && (move.action.Some? ==> Replica.Sound(move.action.value) && !Replica.SuppressedRefresh(move.action.value))
    && if move.step == Commit && j.s.phase.Reading? && !j.s.phase.job.onRequest then
         move.action == Some(Replica.Refreshed(j.s.phase.next))
       else if move.step == Commit && j.s.phase.Reading? then
         move.action.Some? && move.action.value.Line? && Replica.Serve(j.p, move.action.value).0.latest == Some(j.s.phase.next)
       else
         move.action.Some? ==> move.action.value.Line? && Replica.Serve(j.p, move.action.value).0.latest == j.p.latest
  }

  ghost function Moved(layout: Layout, j: Joint, move: Move): Joint
    requires Enabled(layout, j.s, move.step)
  {
    var s := Apply(layout, j.s, move.step);
    if move.action.None? then j.(s := s)
    else
      var (p, messages) := Replica.Serve(j.p, move.action.value);
      Joint(s, p, Replica.ReceiveAll(j.client, messages))
  }

  ghost predicate ValidMoves(layout: Layout, j: Joint, moves: seq<Move>)
    decreases |moves|
  {
    moves == [] ||
    (Enabled(layout, j.s, moves[0].step) && Fits(j, moves[0]) && ValidMoves(layout, Moved(layout, j, moves[0]), moves[1..]))
  }

  ghost function AfterMoves(layout: Layout, j: Joint, moves: seq<Move>): Joint
    requires ValidMoves(layout, j, moves)
    decreases |moves|
  {
    if moves == [] then j else AfterMoves(layout, Moved(layout, j, moves[0]), moves[1..])
  }

  ghost predicate JointInv(layout: Layout, j: Joint) {
    && Inv(layout, j.s)
    && j.p.latest == j.s.cached && WellFormedLatest(j.p)
    && Replica.InStep(j.p, j.client)
  }

  lemma MoveKeepsJointInv(layout: Layout, j: Joint, move: Move)
    requires JointInv(layout, j) && Enabled(layout, j.s, move.step) && Fits(j, move)
    ensures JointInv(layout, Moved(layout, j, move))
  {
    StepKeepsInv(layout, j.s, move.step);
    StepKeepsCached(layout, j.s, move.step);
    if move.action.Some? {
      ActionKeepsStep(j.p, j.client, move.action.value);
      if move.action.value.Refreshed? { UpdateRecords(j.p, move.action.value.snapshot); }
    }
  }

  lemma StepKeepsCached(layout: Layout, s: State, step: Step)
    requires Enabled(layout, s, step)
    ensures step != Commit ==> Apply(layout, s, step).cached == s.cached
    ensures step == Commit ==> s.phase.Reading? && Apply(layout, s, step).cached == Some(s.phase.next)
  {
  }

  lemma {:induction false} MovesKeepJointInv(layout: Layout, j: Joint, moves: seq<Move>)
    requires JointInv(layout, j) && ValidMoves(layout, j, moves)
    ensures JointInv(layout, AfterMoves(layout, j, moves))
    decreases |moves|
  {
    if moves != [] {
      MoveKeepsJointInv(layout, j, moves[0]);
      MovesKeepJointInv(layout, Moved(layout, j, moves[0]), moves[1..]);
    }
  }

  /** From one end to the other, on every run of changes, events, reads and requests: with nothing
      pending, a client that has received everything holds what a full read of the repository
      would return now, up to conflict stages, if every domain is sound; and it holds the
      server's snapshot in any case. */
  lemma ClientHoldsTheRepository(layout: Layout, start: State, moves: seq<Move>)
    requires Init(start) && start.cached.None?
    requires ValidMoves(layout, Joint(start, INITIAL.process, None), moves)
    ensures var last := AfterMoves(layout, Joint(start, INITIAL.process, None), moves);
      && (last.client.Some? <==> last.s.cached.Some?)
      && (last.client.Some? ==> SameButConflicts(last.client.value.snapshot, last.s.cached.value))
      && (NothingPending(last.s) && last.s.sound == ALL_DOMAINS && last.s.world.discover.None? ==>
            last.client.Some? && SnapshotRepository(last.s.world, DEFAULT_OPTIONS).Ok?
            && SameButConflicts(last.client.value.snapshot, SnapshotRepository(last.s.world, DEFAULT_OPTIONS).value))
  {
    MovesKeepJointInv(layout, Joint(start, INITIAL.process, None), moves);
    var last := AfterMoves(layout, Joint(start, INITIAL.process, None), moves);
    if NothingPending(last.s) { QuiescentIsFresh(layout, last.s); }
  }
}
