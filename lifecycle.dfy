/**
 * Properties of the whole lifecycle: every handler, the dispatch and the
 * retry-exhaustion path move one order along allowed edges and announce
 * each status they enter; runs of submissions, deliveries and exhaustions
 * keep every order's announcements a well-formed trace agreeing with its
 * stored status.
 */
module Lifecycle {
  import opened Wrappers
  import opened OrderState
  import opened Routing
  import opened Store
  import opened Events
  import opened Handlers
  import opened Orchestrator

  /** One step took order `id`, and no other order, along allowed edges,
      announcing each status it entered and nothing else. */
  ghost predicate Advances(before: Db, after: Db, emitted: seq<Event>, id: string)
  {
    && after.orders.Keys == before.orders.Keys
    && (forall k :: k in before.orders && k != id ==> after.orders[k] == before.orders[k])
    && About(emitted, id)
    && (id in before.orders ==>
          && after.orders[id].payload == before.orders[id].payload
          && Chain([before.orders[id].status] + StatusesFor(emitted, id))
          && after.orders[id].status == Last([before.orders[id].status] + StatusesFor(emitted, id)))
    && (id !in before.orders ==> emitted == [])
  }

  lemma UnchangedAdvances(before: Db, after: Db, id: string)
    requires after.orders == before.orders
    ensures Advances(before, after, [], id)
  {
    if id in before.orders {
      assert [before.orders[id].status] + StatusesFor([], id) == [before.orders[id].status];
    }
  }

  lemma TransitionAdvances(before: Db, after: Db, id: string, to: Status, data: EventData)
    requires id in before.orders && Edge(before.orders[id].status, to)
    requires after.orders == before.orders[id := OrderRow(to, before.orders[id].payload)]
    ensures Advances(before, after, [Event(id, to, data)], id)
  {
    var emitted := [Event(id, to, data)];
    assert emitted[..0] == [];
    assert StatusesFor(emitted, id) == [to];
    var path := [before.orders[id].status] + [to];
    assert Edge(path[0], path[1]);
    assert Chain(path) && Last(path) == to;
  }

  lemma AdvancesCompose(a: Db, b: Db, c: Db, e1: seq<Event>, e2: seq<Event>, id: string)
    requires Advances(a, b, e1, id) && Advances(b, c, e2, id)
    ensures Advances(a, c, e1 + e2, id)
  {
    StatusesForAppend(e1, e2, id);
    if id in a.orders {
      var p := [a.orders[id].status] + StatusesFor(e1, id);
      var q := [b.orders[id].status] + StatusesFor(e2, id);
      ChainJoin(p, q);
      assert p + q[1..] == [a.orders[id].status] + StatusesFor(e1 + e2, id);
    }
  }

  lemma PendingStepAdvances(db: Db, order: Order, executionId: string)
    ensures var e := PendingStep(db, order, executionId); Advances(db, e.db, e.emitted, order.id)
  {
    var e := PendingStep(db, order, executionId);
    if e.emitted != [] {
      ForwardEdges();
      TransitionAdvances(db, e.db, order.id, Routing, NoData);
    } else {
      UnchangedAdvances(db, e.db, order.id);
    }
  }

  lemma RoutingStepAdvances(db: Db, order: Order, raydiumQuote: Reply<Quote>, meteoraQuote: Reply<Quote>)
    ensures var e := RoutingStep(db, order, raydiumQuote, meteoraQuote); Advances(db, e.db, e.emitted, order.id)
  {
    var e := RoutingStep(db, order, raydiumQuote, meteoraQuote);
    if e.emitted != [] {
      ForwardEdges();
      TransitionAdvances(db, e.db, order.id, Building, RoutingInfo(ChooseRoute(raydiumQuote.value, meteoraQuote.value)));
    } else {
      UnchangedAdvances(db, e.db, order.id);
    }
  }

  /** Failing an order observed in an active status is an allowed move,
      whatever status the store holds by then. */
  lemma FailStepAdvances(db: Db, order: Order, reason: string)
    requires Active(order.status)
    ensures var e := FailStep(db, order, reason); Advances(db, e.db, e.emitted, order.id)
  {
    var e := FailStep(db, order, reason);
    if e.emitted != [] {
      TransitionAdvances(db, e.db, order.id, Failed, ErrorInfo(reason));
    } else {
      UnchangedAdvances(db, e.db, order.id);
    }
  }

  /** An order rewritten to status `to`, with announcements walking there. */
  lemma RewriteAdvances(before: Db, after: Db, id: string, to: Status, emitted: seq<Event>)
    requires id in before.orders
    requires after.orders == before.orders[id := OrderRow(to, before.orders[id].payload)]
    requires About(emitted, id)
    requires Chain([before.orders[id].status] + StatusesFor(emitted, id))
    requires to == Last([before.orders[id].status] + StatusesFor(emitted, id))
    ensures Advances(before, after, emitted, id)
  {
  }

  /** building -> submitted -> confirmed, announced in that order. */
  lemma ConfirmAdvances(db: Db, after: Db, id: string, txHash: string, price: Option<real>)
    requires id in db.orders && db.orders[id].status == Building
    requires after.orders == db.orders[id := OrderRow(Confirmed, db.orders[id].payload)]
    ensures Advances(db, after, [Event(id, Submitted, NoData), Event(id, Confirmed, TxInfo(txHash, price))], id)
  {
    var emitted := [Event(id, Submitted, NoData), Event(id, Confirmed, TxInfo(txHash, price))];
    StatusesForPair(emitted, id);
    assert [Building] + StatusesFor(emitted, id) == [Building, Submitted, Confirmed];
    SwapWalk();
    RewriteAdvances(db, after, id, Confirmed, emitted);
  }

  lemma BuildingStepAdvances(db: Db, order: Order, raydiumSwap: Reply<SwapResult>, meteoraSwap: Reply<SwapResult>)
    requires Active(order.status)
    ensures var e := BuildingStep(db, order, raydiumSwap, meteoraSwap); Advances(db, e.db, e.emitted, order.id)
  {
    var e := BuildingStep(db, order, raydiumSwap, meteoraSwap);
    var latest := GetLatestExecution(db, order.id);
    if latest.Some? && Present(latest.value.chosenDex) {
      match ChosenSwap(latest.value.chosenDex.value, raydiumSwap, meteoraSwap)
      case Err(Fatal(message)) =>
        FailStepAdvances(db, order, message);
      case Err(Retriable(_)) =>
        UnchangedAdvances(db, e.db, order.id);
      case Ok(swap) =>
        if e.emitted != [] {
          ConfirmAdvances(db, e.db, order.id, swap.txHash, Some(swap.executedPrice));
        } else {
          UnchangedAdvances(db, e.db, order.id);
        }
    } else {
      UnchangedAdvances(db, e.db, order.id);
    }
  }

  lemma SubmittedStepAdvances(db: Db, order: Order)
    ensures var e := SubmittedStep(db, order); Advances(db, e.db, e.emitted, order.id)
  {
    var e := SubmittedStep(db, order);
    if e.emitted != [] {
      ForwardEdges();
      var latest := GetLatestExecution(db, order.id).value;
      TransitionAdvances(db, e.db, order.id, Confirmed, TxInfo(latest.txHash.value, latest.executionPrice));
    } else {
      UnchangedAdvances(db, e.db, order.id);
    }
  }

  lemma AfterHandlerAdvances(db: Db, order: Order, e: Effect, schedule: bool)
    requires Active(order.status)
    requires Advances(db, e.db, e.emitted, order.id)
    ensures var r := AfterHandler(order, e, schedule); Advances(db, r.db, r.emitted, order.id)
  {
    if e.outcome.Threw? {
      var h := ExecutionErrorStep(e.db, order, e.outcome.failure);
      if e.outcome.failure.Fatal? {
        FailStepAdvances(e.db, order, e.outcome.failure.message);
      } else {
        UnchangedAdvances(e.db, h.db, order.id);
      }
      AdvancesCompose(db, e.db, h.db, e.emitted, h.emitted, order.id);
    }
  }

  /** Whatever snapshot of the order a delivery dispatches on, however
      stale, the store moves only along allowed edges and every status
      entered is announced. */
  lemma DispatchAdvances(db: Db, order: Order, oracle: Oracle)
    ensures var r := DispatchStep(db, order, oracle); Advances(db, r.db, r.emitted, order.id)
  {
    match order.status
    case Pending =>
      PendingStepAdvances(db, order, oracle.executionId);
      AfterHandlerAdvances(db, order, PendingStep(db, order, oracle.executionId), true);
    case Routing =>
      RoutingStepAdvances(db, order, oracle.raydiumQuote, oracle.meteoraQuote);
      AfterHandlerAdvances(db, order, RoutingStep(db, order, oracle.raydiumQuote, oracle.meteoraQuote), true);
    case Building =>
      BuildingStepAdvances(db, order, oracle.raydiumSwap, oracle.meteoraSwap);
      AfterHandlerAdvances(db, order, BuildingStep(db, order, oracle.raydiumSwap, oracle.meteoraSwap), true);
    case Submitted =>
      SubmittedStepAdvances(db, order);
      AfterHandlerAdvances(db, order, SubmittedStep(db, order), false);
    case Confirmed =>
      UnchangedAdvances(db, db, order.id);
    case Failed =>
      UnchangedAdvances(db, db, order.id);
    case Unrecognized(_) =>
      UnchangedAdvances(db, db, order.id);
  }

  lemma ProcessStepAdvances(db: Db, orderId: string, oracle: Oracle)
    ensures var r := ProcessStep(db, orderId, oracle); Advances(db, r.db, r.emitted, orderId)
  {
    if orderId in db.orders {
      DispatchAdvances(db, Order(orderId, db.orders[orderId].status, db.orders[orderId].payload), oracle);
    } else {
      UnchangedAdvances(db, db, orderId);
    }
  }

  // ---------------------------------------------------------------------
  // Coherence of the store with the event log
  // ---------------------------------------------------------------------

  /** Every event is about a stored order, and every stored order's
      announcements form a well-formed trace ending in its stored status. */
  ghost predicate Coherent(db: Db, events: seq<Event>)
  {
    && (forall e :: e in events ==> e.orderId in db.orders)
    && (forall id :: id in db.orders ==>
          && WellFormedTrace(StatusesFor(events, id))
          && db.orders[id].status == TraceStatus(StatusesFor(events, id)))
  }

  lemma AdvancesKeepCoherent(before: Db, after: Db, events: seq<Event>, emitted: seq<Event>, id: string)
    requires Coherent(before, events) && Advances(before, after, emitted, id)
    ensures Coherent(after, events + emitted)
  {
    forall k | k in after.orders
      ensures WellFormedTrace(StatusesFor(events + emitted, k))
      ensures after.orders[k].status == TraceStatus(StatusesFor(events + emitted, k))
    {
      StatusesForAppend(events, emitted, k);
      if k == id {
        var path := [before.orders[id].status] + StatusesFor(emitted, id);
        TraceFollowsChain(StatusesFor(events, id), path);
        assert path[1..] == StatusesFor(emitted, id);
      } else {
        StatusesForOther(emitted, id, k);
        assert StatusesFor(events, k) + [] == StatusesFor(events, k);
      }
    }
  }

  /** A new pending order has announced nothing yet. */
  lemma SubmitKeepsCoherent(db: Db, events: seq<Event>, id: string, payload: Payload)
    requires Coherent(db, events)
    ensures Coherent(InsertOrder(db, id, Pending, payload).0, events)
  {
    var after := InsertOrder(db, id, Pending, payload).0;
    if id !in db.orders {
      StatusesForAbsent(events, id);
    }
  }

  // ---------------------------------------------------------------------
  // Runs of the system
  // ---------------------------------------------------------------------

  /** The store, the event log and the job queue. */
  datatype World = World(db: Db, events: seq<Event>, jobs: seq<string>)

  const Initial := World(EmptyDb, [], [])

  /** What can happen next: an order is submitted through the API, a job for
      an order is delivered (first delivery, redelivery or retry alike), a
      job whose load of the order returned `seen` runs its handler after
      another delivery has written the order (the two deliveries of a
      duplicated job interleaved), or the queue gives up on an order.
      `seen` is any status, so every status the order held earlier is
      covered. */
  datatype Action =
    | Submit(id: string, payload: Payload)
    | Deliver(id: string, oracle: Oracle)
    | DeliverStale(id: string, seen: Status, oracle: Oracle)
    | Exhaust(id: string, reason: string)

  /** The API inserts the order as pending and enqueues its first job; a
      failed insert enqueues nothing. */
  function SubmitOrder(w: World, id: string, payload: Payload): (r: World)
    ensures id in w.db.orders ==> r == w
    ensures id !in w.db.orders ==>
              r == World(w.db.(orders := w.db.orders[id := OrderRow(Pending, payload)]), w.events, w.jobs + [id])
  {
    var (db, created) := InsertOrder(w.db, id, Pending, payload);
    World(db, w.events, if created.Some? then w.jobs + [id] else w.jobs)
  }

  /** One step of the system: the API's create-then-enqueue, one run of the
      worker's job body, or the queue's listener for a job out of retries.
      The API publishes nothing and the listener enqueues nothing. */
  function Apply(w: World, a: Action): (r: World)
    ensures a.Submit? ==> r.events == w.events
    ensures a.Exhaust? ==> r.jobs == w.jobs
  {
    match a
    case Submit(id, payload) => SubmitOrder(w, id, payload)
    case Deliver(id, oracle) =>
      var r := ProcessStep(w.db, id, oracle);
      World(r.db, w.events + r.emitted, w.jobs + r.scheduled)
    case DeliverStale(id, seen, oracle) =>
      if id !in w.db.orders then w
      else
        var r := DispatchStep(w.db, Order(id, seen, w.db.orders[id].payload), oracle);
        World(r.db, w.events + r.emitted, w.jobs + r.scheduled)
    case Exhaust(id, reason) =>
      var e := RetryExhaustedStep(w.db, id, reason);
      World(e.db, w.events + e.emitted, w.jobs)
  }

  /** Redelivering a job for an order in a terminal state changes nothing:
      no attempt, no event, no job. */
  lemma TerminalRedeliveryIsNoop(w: World, id: string, oracle: Oracle)
    requires id in w.db.orders && IsTerminalState(w.db.orders[id].status)
    ensures Apply(w, Deliver(id, oracle)) == w
  {
    assert w.events + [] == w.events && w.jobs + [] == w.jobs;
  }

  /** A sequence of steps run in order. */
  function Run(w: World, actions: seq<Action>): World
    decreases |actions|
  {
    if actions == [] then w else Run(Apply(w, actions[0]), actions[1..])
  }

  /** Retry exhaustion reaches only orders that are missing or still active. */
  predicate ExhaustsLive(w: World, a: Action)
  {
    a.Exhaust? ==> a.id !in w.db.orders || Active(w.db.orders[a.id].status)
  }

  ghost predicate LiveExhaustions(w: World, actions: seq<Action>)
    decreases |actions|
  {
    actions == [] || (ExhaustsLive(w, actions[0]) && LiveExhaustions(Apply(w, actions[0]), actions[1..]))
  }

  lemma RetryExhaustedAdvances(db: Db, orderId: string, reason: string)
    requires orderId in db.orders ==> Active(db.orders[orderId].status)
    ensures var e := RetryExhaustedStep(db, orderId, reason); Advances(db, e.db, e.emitted, orderId)
  {
    if orderId in db.orders {
      var order := Order(orderId, db.orders[orderId].status, db.orders[orderId].payload);
      FailStepAdvances(db, order, "Retry limit exceeded: " + reason);
    } else {
      UnchangedAdvances(db, db, orderId);
    }
  }

  lemma ApplyKeepsCoherent(w: World, a: Action)
    requires Coherent(w.db, w.events) && ExhaustsLive(w, a)
    ensures Coherent(Apply(w, a).db, Apply(w, a).events)
  {
    match a
    case Submit(id, payload) =>
      SubmitKeepsCoherent(w.db, w.events, id, payload);
    case Deliver(id, oracle) =>
      var r := ProcessStep(w.db, id, oracle);
      ProcessStepAdvances(w.db, id, oracle);
      AdvancesKeepCoherent(w.db, r.db, w.events, r.emitted, id);
    case DeliverStale(id, seen, oracle) =>
      if id in w.db.orders {
        var order := Order(id, seen, w.db.orders[id].payload);
        var r := DispatchStep(w.db, order, oracle);
        DispatchAdvances(w.db, order, oracle);
        AdvancesKeepCoherent(w.db, r.db, w.events, r.emitted, id);
      }
    case Exhaust(id, reason) =>
      var e := RetryExhaustedStep(w.db, id, reason);
      RetryExhaustedAdvances(w.db, id, reason);
      AdvancesKeepCoherent(w.db, e.db, w.events, e.emitted, id);
  }

  /** From any coherent world, every run in which the queue gives up only on
      live orders keeps every order's announcements a well-formed trace:
      a prefix of routing, building, submitted, confirmed, possibly ending
      early in failed, with the stored status its last element. */
  lemma {:induction false} RunKeepsCoherent(w: World, actions: seq<Action>)
    requires Coherent(w.db, w.events) && LiveExhaustions(w, actions)
    ensures Coherent(Run(w, actions).db, Run(w, actions).events)
    decreases |actions|
  {
    if actions != [] {
      ApplyKeepsCoherent(w, actions[0]);
      RunKeepsCoherent(Apply(w, actions[0]), actions[1..]);
    }
  }

  /** Each step only appends to the event log and the queue, and enqueues
      at most one job. */
  lemma ApplyGrows(w: World, a: Action)
    ensures var r := Apply(w, a);
      && |w.events| <= |r.events| && r.events[..|w.events|] == w.events
      && |w.jobs| <= |r.jobs| <= |w.jobs| + 1 && r.jobs[..|w.jobs|] == w.jobs
  {
  }

  /** A run only appends to the event log and the queue, at most one job per
      step. */
  lemma {:induction false} RunGrows(w: World, actions: seq<Action>)
    ensures var r := Run(w, actions);
      && |w.events| <= |r.events| && r.events[..|w.events|] == w.events
      && |w.jobs| <= |r.jobs| <= |w.jobs| + |actions| && r.jobs[..|w.jobs|] == w.jobs
    decreases |actions|
  {
    if actions != [] {
      var w1 := Apply(w, actions[0]);
      ApplyGrows(w, actions[0]);
      RunGrows(w1, actions[1..]);
      var r := Run(w, actions);
      assert r.events[..|w.events|] == r.events[..|w1.events|][..|w.events|];
      assert r.jobs[..|w.jobs|] == r.jobs[..|w1.jobs|][..|w.jobs|];
    }
  }

  lemma InitialCoherent()
    ensures Coherent(Initial.db, Initial.events)
  {
  }

  // ---------------------------------------------------------------------
  // Retry exhaustion on a terminal order
  // ---------------------------------------------------------------------

  /** As written, exhausting an order that is already confirmed or failed
      forces it to `failed` and announces `failed` a second time or after
      `confirmed`: the order's announcements stop being a trace. */
  lemma TerminalExhaustBreaksTrace(w: World, id: string, reason: string)
    requires Coherent(w.db, w.events)
    requires id in w.db.orders && !Active(w.db.orders[id].status)
    ensures var e := RetryExhaustedStep(w.db, id, reason);
      && Apply(w, Exhaust(id, reason)) == World(e.db, w.events + e.emitted, w.jobs)
      && id in e.db.orders && e.db.orders[id].status == Failed
      && StatusesFor(w.events + e.emitted, id) == StatusesFor(w.events, id) + [Failed]
      && !WellFormedTrace(StatusesFor(w.events + e.emitted, id))
  {
    var t := StatusesFor(w.events, id);
    assert w.db.orders[id].status == TraceStatus(t) && WellFormedTrace(t);
    var e := RetryExhaustedStep(w.db, id, reason);
    ExhaustAnnouncesFailed(w.events, e.emitted, id, reason);
    TerminalTraceEnds(t);
  }

  /** The failure announced on exhaustion follows the order's earlier ones. */
  lemma ExhaustAnnouncesFailed(events: seq<Event>, emitted: seq<Event>, id: string, reason: string)
    requires emitted == [Event(id, Failed, ErrorInfo("Retry limit exceeded: " + reason))]
    ensures StatusesFor(events + emitted, id) == StatusesFor(events, id) + [Failed]
  {
    StatusesForAppend(events, emitted, id);
    assert emitted[..0] == [];
  }

  /** A trace that has ended, in confirmed or failed, cannot announce
      `failed` once more. */
  lemma TerminalTraceEnds(t: seq<Status>)
    requires WellFormedTrace(t) && !Active(TraceStatus(t))
    ensures !WellFormedTrace(t + [Failed])
  {
    TraceStatusKnown(t);
    TraceStep(t, Failed);
  }

  /** As written, retry exhaustion keeps a coherent world coherent exactly
      when the order is missing or still active. */
  lemma ExhaustKeepsCoherentIff(w: World, id: string, reason: string)
    requires Coherent(w.db, w.events)
    ensures Coherent(Apply(w, Exhaust(id, reason)).db, Apply(w, Exhaust(id, reason)).events)
            <==> ExhaustsLive(w, Exhaust(id, reason))
  {
    var after := Apply(w, Exhaust(id, reason));
    if ExhaustsLive(w, Exhaust(id, reason)) {
      ApplyKeepsCoherent(w, Exhaust(id, reason));
    } else {
      TerminalExhaustBreaksTrace(w, id, reason);
      var e := RetryExhaustedStep(w.db, id, reason);
      assert after == World(e.db, w.events + e.emitted, w.jobs);
      assert !Coherent(after.db, after.events) by {
        assert id in after.db.orders && !WellFormedTrace(StatusesFor(after.events, id));
      }
    }
  }

  /** Retry exhaustion with a terminal check: force `failed` from a
      non-terminal status, and leave a terminal order alone. */
  function GuardedRetryExhaustedStep(db: Db, orderId: string, reason: string): (r: Effect)
    ensures orderId in db.orders && IsTerminalState(db.orders[orderId].status) ==> r == Effect(db, [], Returned)
    ensures !(orderId in db.orders && IsTerminalState(db.orders[orderId].status)) ==>
              r == RetryExhaustedStep(db, orderId, reason)
  {
    if orderId in db.orders && IsTerminalState(db.orders[orderId].status) then Effect(db, [], Returned)
    else RetryExhaustedStep(db, orderId, reason)
  }

  /** The system with the guarded exhaustion path. */
  function GuardedApply(w: World, a: Action): (r: World)
    ensures !a.Exhaust? ==> r == Apply(w, a)
  {
    match a
    case Exhaust(id, reason) =>
      var e := GuardedRetryExhaustedStep(w.db, id, reason);
      World(e.db, w.events + e.emitted, w.jobs)
    case _ => Apply(w, a)
  }

  function GuardedRun(w: World, actions: seq<Action>): World
    decreases |actions|
  {
    if actions == [] then w else GuardedRun(GuardedApply(w, actions[0]), actions[1..])
  }

  lemma GuardedApplyKeepsCoherent(w: World, a: Action)
    requires Coherent(w.db, w.events)
    ensures Coherent(GuardedApply(w, a).db, GuardedApply(w, a).events)
  {
    match a
    case Exhaust(id, reason) =>
      var e := GuardedRetryExhaustedStep(w.db, id, reason);
      if id in w.db.orders && IsTerminalState(w.db.orders[id].status) {
        assert w.events + e.emitted == w.events;
      } else {
        if id in w.db.orders {
          TraceStatusKnown(StatusesFor(w.events, id));
        }
        ApplyKeepsCoherent(w, a);
      }
    case _ =>
      ApplyKeepsCoherent(w, a);
  }

  /** With the guard, every run from a coherent world stays coherent, with
      no condition on when the queue gives up. */
  lemma {:induction false} GuardedRunKeepsCoherent(w: World, actions: seq<Action>)
    requires Coherent(w.db, w.events)
    ensures Coherent(GuardedRun(w, actions).db, GuardedRun(w, actions).events)
    decreases |actions|
  {
    if actions != [] {
      GuardedApplyKeepsCoherent(w, actions[0]);
      GuardedRunKeepsCoherent(GuardedApply(w, actions[0]), actions[1..]);
    }
  }

  // ---------------------------------------------------------------------
  // Consequences of the order in which the handlers write
  // ---------------------------------------------------------------------

  /** A delivery that loaded the order while it was pending, run after
      another delivery has already moved it on, still records a new attempt,
      announces nothing, and schedules one more job. */
  lemma StalePendingDelivery(db: Db, order: Order, oracle: Oracle)
    requires order.status == Pending
    requires order.id in db.orders && db.orders[order.id].status != Pending
    requires !ExecutionIdInUse(db, oracle.executionId)
    ensures var r := DispatchStep(db, order, oracle);
      && r.emitted == [] && r.db.orders == db.orders && r.scheduled == [order.id] && r.outcome == Returned
      && GetExecutionAttemptCount(r.db, order.id) == GetExecutionAttemptCount(db, order.id) + 1
  {
    var attempt := GetExecutionAttemptCount(db, order.id) + 1;
    ExecutionsOfSnoc(db.executions, NewExecution(oracle.executionId, order.id, attempt), order.id);
  }

  /** A delivery for a pending order with a fresh execution id records the
      next attempt, moves the order to routing, announces it and schedules
      the next job. */
  lemma PendingDelivery(w: World, id: string, oracle: Oracle)
    requires id in w.db.orders && w.db.orders[id].status == Pending
    requires !ExecutionIdInUse(w.db, oracle.executionId)
    ensures Apply(w, Deliver(id, oracle))
            == World(Db(w.db.orders[id := OrderRow(Routing, w.db.orders[id].payload)],
                        w.db.executions + [NewExecution(oracle.executionId, id, GetExecutionAttemptCount(w.db, id) + 1)]),
                     w.events + [Event(id, Routing, NoData)], w.jobs + [id])
  {
    var r := PendingStep(w.db, Order(id, Pending, w.db.orders[id].payload), oracle.executionId);
    assert Apply(w, Deliver(id, oracle)) == World(r.db, w.events + r.emitted, w.jobs + [id]);
  }

  /** The same delivery run on a pending snapshot after the order has moved
      on: the attempt and the job, but no write to the order and no event. */
  lemma StalePendingApplied(w: World, id: string, oracle: Oracle)
    requires id in w.db.orders && w.db.orders[id].status != Pending
    requires !ExecutionIdInUse(w.db, oracle.executionId)
    ensures Apply(w, DeliverStale(id, Pending, oracle))
            == World(w.db.(executions := w.db.executions
                                         + [NewExecution(oracle.executionId, id, GetExecutionAttemptCount(w.db, id) + 1)]),
                     w.events, w.jobs + [id])
  {
    var r := PendingStep(w.db, Order(id, Pending, w.db.orders[id].payload), oracle.executionId);
    assert Apply(w, DeliverStale(id, Pending, oracle)) == World(r.db, w.events + r.emitted, w.jobs + [id]);
  }

  /** Recording one execution leaves every other id unused. */
  lemma StillUnused(db: Db, db': Db, x: Execution, id: string)
    requires db'.executions == db.executions + [x]
    requires !ExecutionIdInUse(db, id) && x.id != id
    ensures !ExecutionIdInUse(db', id)
  {
    forall e | e in db'.executions ensures e.id != id {
      if e != x {
        assert e in db.executions;
      }
    }
  }

  /** A fatal swap error fails the order inside the building handler, which
      then returns normally, so the delivery still schedules a job (one
      that will find the order terminal). */
  lemma FatalSwapSchedules(db: Db, order: Order, oracle: Oracle, message: string)
    requires order.status == Building
    requires order.id in db.orders && db.orders[order.id].status == Building
    requires GetLatestExecution(db, order.id).Some?
    requires Present(GetLatestExecution(db, order.id).value.chosenDex)
    requires ChosenSwap(GetLatestExecution(db, order.id).value.chosenDex.value,
                        oracle.raydiumSwap, oracle.meteoraSwap) == Err(Fatal(message))
    ensures var r := DispatchStep(db, order, oracle);
      && r.db.orders[order.id].status == Failed
      && r.emitted == [Event(order.id, Failed, ErrorInfo(message))]
      && r.scheduled == [order.id] && r.outcome == Returned
      && ProcessStep(r.db, order.id, oracle) == StepResult(r.db, [], [], Returned)
  {
  }

  /** The building handler needs a chosen venue on the latest attempt; when
      there is none the error is an ordinary one, so the delivery is retried
      and the order stays in building. */
  lemma MissingVenueIsRetried(db: Db, order: Order, oracle: Oracle)
    requires order.status == Building
    requires GetLatestExecution(db, order.id).Some?
    requires !Present(GetLatestExecution(db, order.id).value.chosenDex)
    ensures DispatchStep(db, order, oracle)
            == StepResult(db, [], [], Threw(Retriable("Missing routing decision for order " + order.id)))
  {
  }

  // ---------------------------------------------------------------------
  // The executions table
  // ---------------------------------------------------------------------

  /** Execution ids are unique and every order's attempts are numbered
      1, 2, 3, ... in the order they were created. */
  ghost predicate SoundExecutions(db: Db)
  {
    ValidDb(db) && NumberedAttempts(db.executions)
  }

  lemma SameAttemptsKeepSound(before: Db, after: Db)
    requires SoundExecutions(before) && SameAttempts(before.executions, after.executions)
    ensures SoundExecutions(after)
  {
    SameAttemptsKeepValid(before, after);
    SameAttemptsKeepNumbering(before.executions, after.executions);
  }

  lemma FailStepKeepsSound(db: Db, order: Order, reason: string)
    requires SoundExecutions(db)
    ensures SoundExecutions(FailStep(db, order, reason).db)
  {
    var r := FailStep(db, order, reason).db;
    if GetLatestExecution(db, order.id).Some? {
      SameAttemptsKeepSound(db, r);
    } else {
      assert r.executions == db.executions;
    }
  }

  lemma PendingKeepsSound(db: Db, order: Order, executionId: string)
    requires SoundExecutions(db)
    ensures SoundExecutions(PendingStep(db, order, executionId).db)
  {
    NextAttemptKeepsNumbering(db, executionId, order.id);
  }

  lemma RoutingKeepsSound(db: Db, order: Order, raydiumQuote: Reply<Quote>, meteoraQuote: Reply<Quote>)
    requires SoundExecutions(db)
    ensures SoundExecutions(RoutingStep(db, order, raydiumQuote, meteoraQuote).db)
  {
    SameAttemptsKeepSound(db, RoutingStep(db, order, raydiumQuote, meteoraQuote).db);
  }

  lemma BuildingKeepsSound(db: Db, order: Order, raydiumSwap: Reply<SwapResult>, meteoraSwap: Reply<SwapResult>)
    requires SoundExecutions(db)
    ensures SoundExecutions(BuildingStep(db, order, raydiumSwap, meteoraSwap).db)
  {
    var latest := GetLatestExecution(db, order.id);
    if latest.Some? && Present(latest.value.chosenDex) {
      match ChosenSwap(latest.value.chosenDex.value, raydiumSwap, meteoraSwap)
      case Err(Fatal(message)) =>
        FailStepKeepsSound(db, order, message);
      case Err(Retriable(_)) =>
      case Ok(swap) =>
        SameAttemptsKeepSound(db, BuildingStep(db, order, raydiumSwap, meteoraSwap).db);
    }
  }

  /** The error handling after a handler keeps the executions table sound. */
  lemma AfterHandlerKeepsSound(order: Order, e: Effect, schedule: bool)
    requires SoundExecutions(e.db)
    ensures SoundExecutions(AfterHandler(order, e, schedule).db)
  {
    if e.outcome.Threw? && e.outcome.failure.Fatal? {
      FailStepKeepsSound(e.db, order, e.outcome.failure.message);
    }
  }

  /** One delivery keeps the executions table sound: the pending handler
      numbers its new attempt one past the order's count, and every other
      write fills in optional columns of an existing row. */
  lemma DispatchKeepsSound(db: Db, order: Order, oracle: Oracle)
    requires SoundExecutions(db)
    ensures SoundExecutions(DispatchStep(db, order, oracle).db)
  {
    match order.status
    case Pending =>
      var e := PendingStep(db, order, oracle.executionId);
      PendingKeepsSound(db, order, oracle.executionId);
      AfterHandlerKeepsSound(order, e, true);
    case Routing =>
      var e := RoutingStep(db, order, oracle.raydiumQuote, oracle.meteoraQuote);
      RoutingKeepsSound(db, order, oracle.raydiumQuote, oracle.meteoraQuote);
      AfterHandlerKeepsSound(order, e, true);
    case Building =>
      var e := BuildingStep(db, order, oracle.raydiumSwap, oracle.meteoraSwap);
      BuildingKeepsSound(db, order, oracle.raydiumSwap, oracle.meteoraSwap);
      AfterHandlerKeepsSound(order, e, true);
    case Submitted =>
      var e := SubmittedStep(db, order);
      AfterHandlerKeepsSound(order, e, false);
    case _ =>
  }

  lemma ApplyKeepsSound(w: World, a: Action)
    requires SoundExecutions(w.db)
    ensures SoundExecutions(Apply(w, a).db)
    ensures SoundExecutions(GuardedApply(w, a).db)
  {
    match a
    case Submit(_, _) =>
    case Deliver(id, oracle) =>
      if id in w.db.orders {
        DispatchKeepsSound(w.db, Order(id, w.db.orders[id].status, w.db.orders[id].payload), oracle);
      }
    case DeliverStale(id, seen, oracle) =>
      if id in w.db.orders {
        DispatchKeepsSound(w.db, Order(id, seen, w.db.orders[id].payload), oracle);
      }
    case Exhaust(id, reason) =>
      if id in w.db.orders {
        FailStepKeepsSound(w.db, Order(id, w.db.orders[id].status, w.db.orders[id].payload),
                           "Retry limit exceeded: " + reason);
      }
  }

  /** Every run keeps execution ids unique and attempts numbered, so the
      latest execution the handlers read is always the one created last. */
  lemma {:induction false} RunKeepsSound(w: World, actions: seq<Action>)
    requires SoundExecutions(w.db)
    ensures SoundExecutions(Run(w, actions).db)
    ensures SoundExecutions(GuardedRun(w, actions).db)
    decreases |actions|
  {
    if actions != [] {
      ApplyKeepsSound(w, actions[0]);
      RunKeepsSound(Apply(w, actions[0]), actions[1..]);
      RunKeepsSound(GuardedApply(w, actions[0]), actions[1..]);
    }
  }
}
