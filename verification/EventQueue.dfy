/** The bounded event queue between the file-system callback and the server, and one debounce
    turn over it (`enqueue_event`, `take_queue_overflow` and `drain_pending_plan` in src/watch.rs),
    as functions of its contents. */
module EventQueue {
  import opened Wrappers
  import opened Model
  import opened Classify

  const MAX_PENDING_WATCH_EVENTS: nat := 4096
  const MAX_DEBOUNCE_DRAIN_EVENTS: nat := 256

  datatype Mailbox = Mailbox(queue: seq<WatchEvent>, overflowed: bool)

  /** A full queue drops the event and remembers that it did. */
  function Enqueue(box: Mailbox, event: WatchEvent): Mailbox {
    if |box.queue| < MAX_PENDING_WATCH_EVENTS then box.(queue := box.queue + [event])
    else box.(overflowed := true)
  }

  function PlansForEvents(env: Environment, layout: Layout, events: seq<WatchEvent>): (r: seq<RefreshPlan>)
    ensures |r| == |events| && forall i :: 0 <= i < |r| ==> r[i] == PlanForEvent(env, layout, events[i])
  {
    seq(|events|, i requires 0 <= i < |events| => PlanForEvent(env, layout, events[i]))
  }

  /** The drain loop, entered with `drained` events already taken. */
  function Drain(env: Environment, layout: Layout, box: Mailbox, plan: RefreshPlan, drained: nat): (Mailbox, RefreshPlan)
    decreases |box.queue|
  {
    if box.queue == [] || drained >= MAX_DEBOUNCE_DRAIN_EVENTS then (box, plan)
    else
      Drain(env, layout, box.(queue := box.queue[1..]),
            plan.Combine(PlanForEvent(env, layout, box.queue[0])), drained + 1)
  }

  /** One undisturbed debounce turn. */
  function DrainPendingPlan(env: Environment, layout: Layout, box: Mailbox, initial: RefreshPlan): (Mailbox, RefreshPlan) {
    if box.overflowed then (box.(overflowed := false), Full)
    else Drain(env, layout, box, initial, 0)
  }

  lemma {:induction false} DrainMeaning(env: Environment, layout: Layout, box: Mailbox, plan: RefreshPlan, drained: nat)
    requires drained <= MAX_DEBOUNCE_DRAIN_EVENTS
    ensures var (after, result) := Drain(env, layout, box, plan, drained);
      var budget := MAX_DEBOUNCE_DRAIN_EVENTS - drained;
      var n := if |box.queue| < budget then |box.queue| else budget;
      && after == box.(queue := box.queue[n..])
      && result == CombineAll(plan, PlansForEvents(env, layout, box.queue[..n]))
    decreases |box.queue|
  {
    var budget := MAX_DEBOUNCE_DRAIN_EVENTS - drained;
    var n := if |box.queue| < budget then |box.queue| else budget;
    if box.queue == [] || drained >= MAX_DEBOUNCE_DRAIN_EVENTS {
      assert box.queue[n..] == box.queue;
    } else {
      var rest := box.queue[1..];
      DrainMeaning(env, layout, box.(queue := rest), plan.Combine(PlanForEvent(env, layout, box.queue[0])), drained + 1);
      assert rest[n - 1..] == box.queue[n..];
      var plans := PlansForEvents(env, layout, box.queue[..n]);
      assert plans[1..] == PlansForEvents(env, layout, rest[..n - 1]);
    }
  }

  /** A debounce turn consumes a prefix of at most 256 queued events and leaves the rest in
      order. Its plan is full exactly when the overflow flag was set, the initial plan was full
      or a drained event asks for everything; otherwise it names exactly the domains that the
      initial plan or a drained event names, in whatever order they came. */
  lemma DrainPendingPlanMeaning(env: Environment, layout: Layout, box: Mailbox, initial: RefreshPlan)
    ensures var (after, plan) := DrainPendingPlan(env, layout, box, initial);
      var n := if box.overflowed then 0 else if |box.queue| < 256 then |box.queue| else 256;
      var drained := box.queue[..n];
      && after == Mailbox(box.queue[n..], false)
      && (plan == Full <==> box.overflowed || initial == Full
                            || exists e :: e in drained && PlanForEvent(env, layout, e) == Full)
      && (plan != Full ==> forall d: RefreshDomain :: plan.Covers(d) <==>
            initial.Covers(d) || exists e :: e in drained && PlanForEvent(env, layout, e).Covers(d))
  {
    var (after, plan) := DrainPendingPlan(env, layout, box, initial);
    if !box.overflowed {
      DrainMeaning(env, layout, box, initial, 0);
      var n := if |box.queue| < 256 then |box.queue| else 256;
      var drained := box.queue[..n];
      var plans := PlansForEvents(env, layout, drained);
      assert forall p :: p in plans <==> exists e :: e in drained && PlanForEvent(env, layout, e) == p by {
        forall e | e in drained ensures PlanForEvent(env, layout, e) in plans {
          var i :| 0 <= i < |drained| && drained[i] == e;
          assert plans[i] in plans;
        }
        forall p | p in plans ensures exists e :: e in drained && PlanForEvent(env, layout, e) == p {
          var i :| 0 <= i < |plans| && plans[i] == p;
          assert drained[i] in drained;
        }
      }
      CombineAllMeaning(initial, plans);
      forall d: RefreshDomain { CombineAllCovers(initial, plans, d); }
    }
  }

  /** Draining keeps plans closed: whatever is in the queue, the head is never reread without
      `upstream` and the branches. */
  lemma DrainedPlanClosed(env: Environment, layout: Layout, box: Mailbox, initial: RefreshPlan)
    requires Closed(initial)
    ensures Closed(DrainPendingPlan(env, layout, box, initial).1)
  {
    if !box.overflowed {
      DrainMeaning(env, layout, box, initial, 0);
      var n := if |box.queue| < MAX_DEBOUNCE_DRAIN_EVENTS then |box.queue| else MAX_DEBOUNCE_DRAIN_EVENTS;
      var plans := PlansForEvents(env, layout, box.queue[..n]);
      forall p | p in plans ensures Closed(p) {
        var i :| 0 <= i < |plans| && plans[i] == p;
        EventPlanClosed(env, layout, box.queue[i]);
      }
      CombineAllClosed(initial, plans);
    }
  }
}
