/**
 * The orchestrator: one queue delivery loads the order, dispatches on its
 * status, schedules the next delivery after the non-terminal handlers, and
 * turns a fatal error into a failed order while a retriable one escapes to
 * the queue's retry policy. Retry exhaustion fails the order.
 *
 * Everything the outside world decides during one delivery -- the id the
 * new attempt gets, the two quotes and the two swap results -- is an
 * `Oracle` value.
 */
module Orchestrator {
  import opened Wrappers
  import opened OrderState
  import opened Routing
  import opened Store
  import opened Events
  import opened Handlers
  import JQ = JobQueue

  /** The replies of the world to whatever one delivery asks of it. */
  datatype Oracle = Oracle(executionId: string,
                           raydiumQuote: Reply<Quote>, meteoraQuote: Reply<Quote>,
                           raydiumSwap: Reply<SwapResult>, meteoraSwap: Reply<SwapResult>)

  /** The effect of one delivery, including the jobs it enqueues. */
  datatype StepResult = StepResult(db: Db, emitted: seq<Event>, scheduled: seq<string>, outcome: Outcome)

  /** Error handling after a handler threw: a fatal error fails the order,
      observed as loaded, and is swallowed; any other error is rethrown. */
  function ExecutionErrorStep(db: Db, order: Order, failure: Failure): (r: Effect)
    ensures About(r.emitted, order.id)
    ensures r.outcome.Threw? <==> failure.Retriable?
    ensures failure.Retriable? ==> r == Effect(db, [], Threw(failure))
    ensures failure.Fatal? ==> r == FailStep(db, order, failure.message)
  {
    match failure
    case Fatal(message) => FailStep(db, order, message)
    case Retriable(_) => Effect(db, [], Threw(failure))
  }

  /** `r` is the handler's effect `e`: as it stands when the handler returns
      (with the next job when `schedule`), or followed by the error path
      when the handler throws. */
  predicate HandledThen(order: Order, e: Effect, schedule: bool, r: StepResult)
  {
    && (e.outcome.Returned? ==> r == StepResult(e.db, e.emitted, if schedule then [order.id] else [], Returned))
    && (e.outcome.Threw? ==>
          var h := ExecutionErrorStep(e.db, order, e.outcome.failure);
          r == StepResult(h.db, e.emitted + h.emitted, [], h.outcome))
  }

  /** The rest of a delivery once a handler has ended: a normal end
      schedules the next delivery when `schedule` says so, a throw goes to
      the error handling and schedules nothing. */
  function AfterHandler(order: Order, e: Effect, schedule: bool): (r: StepResult)
    ensures About(e.emitted, order.id) ==> About(r.emitted, order.id)
    ensures r.outcome.Threw? ==> r.outcome.failure.Retriable?
    ensures HandledThen(order, e, schedule, r)
  {
    if e.outcome.Returned? then StepResult(e.db, e.emitted, if schedule then [order.id] else [], Returned)
    else
      var h := ExecutionErrorStep(e.db, order, e.outcome.failure);
      StepResult(h.db, e.emitted + h.emitted, [], h.outcome)
  }

  /** The dispatch on the status of `order` as loaded, against a store that
      may have moved on since. */
  function DispatchStep(db: Db, order: Order, oracle: Oracle): (r: StepResult)
    ensures IsTerminalState(order.status) || order.status.Unrecognized? ==> r == StepResult(db, [], [], Returned)
    ensures r.outcome.Threw? ==> r.outcome.failure.Retriable?
    ensures r.scheduled == [] || r.scheduled == [order.id]
    ensures r.scheduled != [] ==> r.outcome.Returned? && order.status in [Pending, Routing, Building]
    ensures About(r.emitted, order.id)
  {
    match order.status
    case Pending => AfterHandler(order, PendingStep(db, order, oracle.executionId), true)
    case Routing => AfterHandler(order, RoutingStep(db, order, oracle.raydiumQuote, oracle.meteoraQuote), true)
    case Building => AfterHandler(order, BuildingStep(db, order, oracle.raydiumSwap, oracle.meteoraSwap), true)
    case Submitted => AfterHandler(order, SubmittedStep(db, order), false)
    case Confirmed => StepResult(db, [], [], Returned)
    case Failed => StepResult(db, [], [], Returned)
    case Unrecognized(_) => StepResult(db, [], [], Returned)
  }

  /** The dispatch table: each live status runs its handler, whose effect
      is the delivery's, followed by the error path when it throws; the
      next job is scheduled exactly when the pending, routing or building
      handler returns, and never after the submitted one. */
  lemma DispatchRunsHandler(db: Db, order: Order, oracle: Oracle)
    ensures var r := DispatchStep(db, order, oracle);
      && (order.status == Pending ==> HandledThen(order, PendingStep(db, order, oracle.executionId), true, r))
      && (order.status == Routing ==>
            HandledThen(order, RoutingStep(db, order, oracle.raydiumQuote, oracle.meteoraQuote), true, r))
      && (order.status == Building ==>
            HandledThen(order, BuildingStep(db, order, oracle.raydiumSwap, oracle.meteoraSwap), true, r))
      && (order.status == Submitted ==> HandledThen(order, SubmittedStep(db, order), false, r) && r.scheduled == [])
    ensures var r := DispatchStep(db, order, oracle);
      && (order.status == Pending ==>
            (r.scheduled == [order.id] <==> PendingStep(db, order, oracle.executionId).outcome.Returned?))
      && (order.status == Routing ==>
            (r.scheduled == [order.id] <==> RoutingStep(db, order, oracle.raydiumQuote, oracle.meteoraQuote).outcome.Returned?))
      && (order.status == Building ==>
            (r.scheduled == [order.id] <==> BuildingStep(db, order, oracle.raydiumSwap, oracle.meteoraSwap).outcome.Returned?))
  {
  }

  /** One queue delivery for `orderId`. */
  function ProcessStep(db: Db, orderId: string, oracle: Oracle): (r: StepResult)
    ensures orderId !in db.orders ==> r == StepResult(db, [], [], Returned)
    ensures orderId in db.orders ==>
              r == DispatchStep(db, Order(orderId, db.orders[orderId].status, db.orders[orderId].payload), oracle)
    ensures orderId in db.orders && IsTerminalState(db.orders[orderId].status) ==> r == StepResult(db, [], [], Returned)
  {
    match GetOrder(db, orderId)
    case None => StepResult(db, [], [], Returned)
    case Some(order) => DispatchStep(db, order, oracle)
  }

  /** The queue gave up on `orderId`: fail it from whatever status it has
      now, terminal or not. */
  function RetryExhaustedStep(db: Db, orderId: string, reason: string): (r: Effect)
    ensures orderId !in db.orders ==> r == Effect(db, [], Returned)
    ensures orderId in db.orders ==>
              r == FailStep(db, Order(orderId, db.orders[orderId].status, db.orders[orderId].payload),
                            "Retry limit exceeded: " + reason)
    ensures orderId in db.orders ==>
              r.emitted == [Event(orderId, Failed, ErrorInfo("Retry limit exceeded: " + reason))]
              && r.db.orders == db.orders[orderId := OrderRow(Failed, db.orders[orderId].payload)]
  {
    match GetOrder(db, orderId)
    case None => Effect(db, [], Returned)
    case Some(order) => FailStep(db, order, "Retry limit exceeded: " + reason)
  }

  // ---------------------------------------------------------------------
  // The orchestrator against the mutable store, bus and queue
  // ---------------------------------------------------------------------

  method ScheduleNextStep(queue: JQ.JobQueue, orderId: string)
    modifies queue
    ensures queue.jobs == old(queue.jobs) + [orderId]
  {
    queue.Add(orderId);
  }

  method HandleExecutionError(store: OrderStore, bus: EventBus, order: Order, failure: Failure)
    returns (outcome: Outcome)
    modifies store, bus
    ensures var e := ExecutionErrorStep(old(store.Snapshot()), order, failure);
      store.Snapshot() == e.db && bus.events == old(bus.events) + e.emitted && outcome == e.outcome
  {
    if failure.Fatal? {
      outcome := FailOrder(store, bus, order, failure.message);
    } else {
      outcome := Threw(failure);
    }
  }

  method ProcessOrderStep(store: OrderStore, bus: EventBus, queue: JQ.JobQueue, orderId: string, oracle: Oracle)
    returns (outcome: Outcome)
    modifies store, bus, queue
    ensures var r := ProcessStep(old(store.Snapshot()), orderId, oracle);
      && store.Snapshot() == r.db && bus.events == old(bus.events) + r.emitted
      && queue.jobs == old(queue.jobs) + r.scheduled && outcome == r.outcome
  {
    var loaded := GetOrder(store.Snapshot(), orderId);
    if loaded.None? {
      return Returned;
    }
    var order := loaded.value;
    var schedule := true;
    ghost var db := store.Snapshot();
    ghost var e: Effect;
    match order.status {
      case Pending =>
        e := PendingStep(db, order, oracle.executionId);
        outcome := HandlePending(store, bus, order, oracle.executionId);
      case Routing =>
        e := RoutingStep(db, order, oracle.raydiumQuote, oracle.meteoraQuote);
        outcome := HandleRouting(store, bus, order, oracle.raydiumQuote, oracle.meteoraQuote);
      case Building =>
        e := BuildingStep(db, order, oracle.raydiumSwap, oracle.meteoraSwap);
        outcome := HandleBuilding(store, bus, order, oracle.raydiumSwap, oracle.meteoraSwap);
      case Submitted =>
        e := SubmittedStep(db, order);
        outcome := HandleSubmitted(store, bus, order);
        schedule := false;
      case Confirmed =>
        return Returned;
      case Failed =>
        return Returned;
      case Unrecognized(_) =>
        return Returned;
    }
    assert DispatchStep(db, order, oracle) == AfterHandler(order, e, schedule);
    assert store.Snapshot() == e.db && bus.events == old(bus.events) + e.emitted && outcome == e.outcome;
    if outcome.Threw? {
      outcome := HandleExecutionError(store, bus, order, outcome.failure);
    } else if schedule {
      ScheduleNextStep(queue, orderId);
    }
  }

  method HandleRetryExhausted(store: OrderStore, bus: EventBus, orderId: string, reason: string)
    returns (outcome: Outcome)
    modifies store, bus
    ensures var e := RetryExhaustedStep(old(store.Snapshot()), orderId, reason);
      store.Snapshot() == e.db && bus.events == old(bus.events) + e.emitted && outcome == e.outcome
  {
    var loaded := GetOrder(store.Snapshot(), orderId);
    if loaded.None? {
      return Returned;
    }
    outcome := FailOrder(store, bus, loaded.value, "Retry limit exceeded: " + reason);
  }
}
