/**
 * One order from submission to confirmation with every venue call
 * succeeding: the run the end-to-end lifecycle test drives over the
 * WebSocket, stated over the system model; and the two deliveries of a
 * duplicated job for a pending order.
 */
module Scenario {
  import opened Wrappers
  import opened OrderState
  import opened Routing
  import opened Store
  import opened Events
  import opened Handlers
  import opened Orchestrator
  import opened Lifecycle

  /** The API stores the order as pending and enqueues its first job. */
  lemma HappySubmit(id: string, payload: Payload)
    ensures Apply(Initial, Submit(id, payload)) == World(Db(map[id := OrderRow(Pending, payload)], []), [], [id])
  {
  }

  /** The first delivery records attempt 1 and moves the order to routing. */
  lemma HappyPending(id: string, payload: Payload, oracle: Oracle)
    ensures Apply(World(Db(map[id := OrderRow(Pending, payload)], []), [], [id]), Deliver(id, oracle))
         == World(Db(map[id := OrderRow(Routing, payload)], [NewExecution(oracle.executionId, id, 1)]),
                  [Event(id, Routing, NoData)], [id, id])
  {
    var db := Db(map[id := OrderRow(Pending, payload)], []);
    assert GetExecutionAttemptCount(db, id) == 0;
  }

  /** The second delivery persists the routing decision and moves the order to building. */
  lemma HappyRouting(id: string, payload: Payload, oracle: Oracle, events: seq<Event>, jobs: seq<string>)
    requires oracle.raydiumQuote.Ok? && oracle.meteoraQuote.Ok?
    ensures var d := ChooseRoute(oracle.raydiumQuote.value, oracle.meteoraQuote.value);
      var x := NewExecution(oracle.executionId, id, 1);
      Apply(World(Db(map[id := OrderRow(Routing, payload)], [x]), events, jobs), Deliver(id, oracle))
      == World(Db(map[id := OrderRow(Building, payload)], [x.(chosenDex := Some(DexName(d.dex)), routingDecision := Some(d))]),
               events + [Event(id, Building, RoutingInfo(d))], jobs + [id])
  {
    var x := NewExecution(oracle.executionId, id, 1);
    var db := Db(map[id := OrderRow(Routing, payload)], [x]);
    assert [x][..0] == [];
    assert ExecutionsOf([x], id) == [x];
    assert GetLatestExecution(db, id) == Some(x);
  }

  /** The third delivery swaps on the chosen venue and confirms the order. */
  lemma HappyBuilding(id: string, payload: Payload, oracle: Oracle, x: Execution, events: seq<Event>, jobs: seq<string>)
    requires x.orderId == id && Present(x.chosenDex)
    requires ChosenSwap(x.chosenDex.value, oracle.raydiumSwap, oracle.meteoraSwap).Ok?
    ensures var swap := ChosenSwap(x.chosenDex.value, oracle.raydiumSwap, oracle.meteoraSwap).value;
      Apply(World(Db(map[id := OrderRow(Building, payload)], [x]), events, jobs), Deliver(id, oracle))
      == World(Db(map[id := OrderRow(Confirmed, payload)],
                  [x.(txHash := Some(swap.txHash), executionPrice := Some(swap.executedPrice))]),
               events + [Event(id, Submitted, NoData), Event(id, Confirmed, TxInfo(swap.txHash, Some(swap.executedPrice)))],
               jobs + [id])
  {
    var db := Db(map[id := OrderRow(Building, payload)], [x]);
    assert [x][..0] == [];
    assert ExecutionsOf([x], id) == [x];
    assert GetLatestExecution(db, id) == Some(x);
  }

  /** The world once the order has been confirmed and the job scheduled
      after confirmation has been delivered. */
  function HappyEnd(id: string, payload: Payload, oracle: Oracle): World
    requires oracle.raydiumQuote.Ok? && oracle.meteoraQuote.Ok?
  {
    var d := ChooseRoute(oracle.raydiumQuote.value, oracle.meteoraQuote.value);
    var swap := ChosenSwap(DexName(d.dex), oracle.raydiumSwap, oracle.meteoraSwap);
    var x := NewExecution(oracle.executionId, id, 1).(chosenDex := Some(DexName(d.dex)), routingDecision := Some(d));
    var x3 := if swap.Ok? then x.(txHash := Some(swap.value.txHash), executionPrice := Some(swap.value.executedPrice)) else x;
    var tx := if swap.Ok? then TxInfo(swap.value.txHash, Some(swap.value.executedPrice)) else NoData;
    World(Db(map[id := OrderRow(Confirmed, payload)], [x3]),
          [Event(id, Routing, NoData), Event(id, Building, RoutingInfo(d)), Event(id, Submitted, NoData), Event(id, Confirmed, tx)],
          [id, id, id, id])
  }

  /** The world once the order has been routed. */
  function HappyRouted(id: string, payload: Payload, oracle: Oracle): World
    requires oracle.raydiumQuote.Ok? && oracle.meteoraQuote.Ok?
  {
    var d := ChooseRoute(oracle.raydiumQuote.value, oracle.meteoraQuote.value);
    var x := NewExecution(oracle.executionId, id, 1).(chosenDex := Some(DexName(d.dex)), routingDecision := Some(d));
    World(Db(map[id := OrderRow(Building, payload)], [x]),
          [Event(id, Routing, NoData), Event(id, Building, RoutingInfo(d))], [id, id, id])
  }

  /** The world once the order has been submitted. */
  function HappySubmitted(id: string, payload: Payload): World
  {
    World(Db(map[id := OrderRow(Pending, payload)], []), [], [id])
  }

  /** The world once the order has been moved to routing. */
  function HappyPended(id: string, payload: Payload, oracle: Oracle): World
  {
    World(Db(map[id := OrderRow(Routing, payload)], [NewExecution(oracle.executionId, id, 1)]),
          [Event(id, Routing, NoData)], [id, id])
  }

  /** A run whose first action leads to `next`. */
  lemma Stage(w: World, a: Action, next: World, rest: seq<Action>)
    requires Apply(w, a) == next
    ensures Run(w, [a] + rest) == Run(next, rest)
  {
    assert ([a] + rest)[1..] == rest;
  }

  lemma SubmitStage(id: string, payload: Payload, rest: seq<Action>)
    ensures Run(Initial, [Submit(id, payload)] + rest) == Run(HappySubmitted(id, payload), rest)
  {
    HappySubmit(id, payload);
    Stage(Initial, Submit(id, payload), HappySubmitted(id, payload), rest);
  }

  lemma PendingStage(id: string, payload: Payload, oracle: Oracle, rest: seq<Action>)
    ensures Run(HappySubmitted(id, payload), [Deliver(id, oracle)] + rest) == Run(HappyPended(id, payload, oracle), rest)
  {
    HappyPending(id, payload, oracle);
    Stage(HappySubmitted(id, payload), Deliver(id, oracle), HappyPended(id, payload, oracle), rest);
  }

  lemma RoutingStage(id: string, payload: Payload, oracle: Oracle, rest: seq<Action>)
    requires oracle.raydiumQuote.Ok? && oracle.meteoraQuote.Ok?
    ensures Run(HappyPended(id, payload, oracle), [Deliver(id, oracle)] + rest) == Run(HappyRouted(id, payload, oracle), rest)
  {
    var d := ChooseRoute(oracle.raydiumQuote.value, oracle.meteoraQuote.value);
    var e1 := [Event(id, Routing, NoData)];
    HappyRouting(id, payload, oracle, e1, [id, id]);
    assert e1 + [Event(id, Building, RoutingInfo(d))] == HappyRouted(id, payload, oracle).events;
    Stage(HappyPended(id, payload, oracle), Deliver(id, oracle), HappyRouted(id, payload, oracle), rest);
  }

  lemma BuildingStage(id: string, payload: Payload, oracle: Oracle, rest: seq<Action>)
    requires oracle.raydiumQuote.Ok? && oracle.meteoraQuote.Ok? && oracle.raydiumSwap.Ok? && oracle.meteoraSwap.Ok?
    ensures Run(HappyRouted(id, payload, oracle), [Deliver(id, oracle)] + rest) == Run(HappyEnd(id, payload, oracle), rest)
  {
    var w2 := HappyRouted(id, payload, oracle);
    HappyBuilding(id, payload, oracle, w2.db.executions[0], w2.events, w2.jobs);
    Stage(w2, Deliver(id, oracle), HappyEnd(id, payload, oracle), rest);
  }

  lemma RedeliveryStage(id: string, payload: Payload, oracle: Oracle, rest: seq<Action>)
    requires oracle.raydiumQuote.Ok? && oracle.meteoraQuote.Ok?
    ensures Run(HappyEnd(id, payload, oracle), [Deliver(id, oracle)] + rest) == Run(HappyEnd(id, payload, oracle), rest)
  {
    TerminalRedeliveryIsNoop(HappyEnd(id, payload, oracle), id, oracle);
    Stage(HappyEnd(id, payload, oracle), Deliver(id, oracle), HappyEnd(id, payload, oracle), rest);
  }

  lemma HappyToPended(id: string, payload: Payload, oracle: Oracle, rest: seq<Action>)
    ensures Run(Initial, [Submit(id, payload), Deliver(id, oracle)] + rest) == Run(HappyPended(id, payload, oracle), rest)
  {
    var a := Deliver(id, oracle);
    SubmitStage(id, payload, [a] + rest);
    PendingStage(id, payload, oracle, rest);
    assert [Submit(id, payload), a] + rest == [Submit(id, payload)] + ([a] + rest);
  }

  lemma HappyToRouted(id: string, payload: Payload, oracle: Oracle, rest: seq<Action>)
    requires oracle.raydiumQuote.Ok? && oracle.meteoraQuote.Ok?
    ensures var a := Deliver(id, oracle);
      Run(Initial, [Submit(id, payload), a, a] + rest) == Run(HappyRouted(id, payload, oracle), rest)
  {
    var a := Deliver(id, oracle);
    HappyToPended(id, payload, oracle, [a] + rest);
    RoutingStage(id, payload, oracle, rest);
    assert [Submit(id, payload), a, a] + rest == [Submit(id, payload), a] + ([a] + rest);
  }

  lemma HappySecondHalf(id: string, payload: Payload, oracle: Oracle)
    requires oracle.raydiumQuote.Ok? && oracle.meteoraQuote.Ok? && oracle.raydiumSwap.Ok? && oracle.meteoraSwap.Ok?
    ensures var a := Deliver(id, oracle);
      Run(HappyRouted(id, payload, oracle), [a, a]) == HappyEnd(id, payload, oracle)
  {
    var a := Deliver(id, oracle);
    BuildingStage(id, payload, oracle, [a]);
    RedeliveryStage(id, payload, oracle, []);
    assert [a] + [a] == [a, a];
    assert [a] + [] == [a];
  }

  lemma HappyRun(id: string, payload: Payload, oracle: Oracle)
    requires oracle.raydiumQuote.Ok? && oracle.meteoraQuote.Ok? && oracle.raydiumSwap.Ok? && oracle.meteoraSwap.Ok?
    ensures Run(Initial, [Submit(id, payload), Deliver(id, oracle), Deliver(id, oracle), Deliver(id, oracle), Deliver(id, oracle)])
            == HappyEnd(id, payload, oracle)
  {
    var a := Deliver(id, oracle);
    HappyToRouted(id, payload, oracle, [a, a]);
    assert [Submit(id, payload), a, a] + [a, a] == [Submit(id, payload), a, a, a, a];
    HappySecondHalf(id, payload, oracle);
  }

  /** Submitting an order and delivering its jobs while every venue call
      succeeds announces routing, building, submitted and confirmed exactly
      once each, with one attempt recorded; the job scheduled after
      confirmation finds the order terminal and does nothing. */
  lemma HappyPath(id: string, payload: Payload, oracle: Oracle)
    requires oracle.raydiumQuote.Ok? && oracle.meteoraQuote.Ok? && oracle.raydiumSwap.Ok? && oracle.meteoraSwap.Ok?
    ensures var a := Deliver(id, oracle);
      var w := Run(Initial, [Submit(id, payload), a, a, a, a]);
      && id in w.db.orders && w.db.orders[id] == OrderRow(Confirmed, payload)
      && StatusesFor(w.events, id) == [Routing, Building, Submitted, Confirmed]
      && GetExecutionAttemptCount(w.db, id) == 1
      && w.jobs == [id, id, id, id]
  {
    HappyRun(id, payload, oracle);
    HappyEndFacts(id, payload, oracle);
  }

  /** The confirmed world: one attempt, the four announcements, four jobs. */
  lemma HappyEndFacts(id: string, payload: Payload, oracle: Oracle)
    requires oracle.raydiumQuote.Ok? && oracle.meteoraQuote.Ok?
    ensures var w := HappyEnd(id, payload, oracle);
      && id in w.db.orders && w.db.orders[id] == OrderRow(Confirmed, payload)
      && StatusesFor(w.events, id) == [Routing, Building, Submitted, Confirmed]
      && GetExecutionAttemptCount(w.db, id) == 1
      && w.jobs == [id, id, id, id]
  {
    var w := HappyEnd(id, payload, oracle);
    assert w.db.executions[..0] == [];
    StatusesForAbout(w.events, id);
  }

  // ---------------------------------------------------------------------
  // A duplicated job for a pending order
  // ---------------------------------------------------------------------

  /** The world after the first of the two deliveries has written. */
  function FirstWritten(w: World, id: string, first: Oracle): World
    requires id in w.db.orders
  {
    World(Db(w.db.orders[id := OrderRow(Routing, w.db.orders[id].payload)],
             w.db.executions + [NewExecution(first.executionId, id, GetExecutionAttemptCount(w.db, id) + 1)]),
          w.events + [Event(id, Routing, NoData)], w.jobs + [id])
  }

  /** The world after a stale pending delivery: one more attempt and one
      more job. */
  function StaleRan(w: World, id: string, oracle: Oracle): World
  {
    World(w.db.(executions := w.db.executions + [NewExecution(oracle.executionId, id, GetExecutionAttemptCount(w.db, id) + 1)]),
          w.events, w.jobs + [id])
  }

  /** After the first delivery the order is routing, and an execution id
      other than the one it used is still free. */
  lemma FirstWrittenLeavesUnused(w: World, id: string, first: Oracle, second: Oracle)
    requires id in w.db.orders
    requires !ExecutionIdInUse(w.db, second.executionId) && first.executionId != second.executionId
    ensures var w1 := FirstWritten(w, id, first);
      id in w1.db.orders && w1.db.orders[id].status == Routing && !ExecutionIdInUse(w1.db, second.executionId)
  {
    var w1 := FirstWritten(w, id, first);
    StillUnused(w.db, w1.db, w1.db.executions[|w.db.executions|], second.executionId);
  }

  lemma FirstDeliveryStage(w: World, id: string, first: Oracle, rest: seq<Action>)
    requires id in w.db.orders && w.db.orders[id].status == Pending
    requires !ExecutionIdInUse(w.db, first.executionId)
    ensures Run(w, [Deliver(id, first)] + rest) == Run(FirstWritten(w, id, first), rest)
  {
    PendingDelivery(w, id, first);
    Stage(w, Deliver(id, first), FirstWritten(w, id, first), rest);
  }

  lemma StaleDeliveryStage(w: World, id: string, oracle: Oracle, rest: seq<Action>)
    requires id in w.db.orders && w.db.orders[id].status != Pending
    requires !ExecutionIdInUse(w.db, oracle.executionId)
    ensures Run(w, [DeliverStale(id, Pending, oracle)] + rest) == Run(StaleRan(w, id, oracle), rest)
  {
    StalePendingApplied(w, id, oracle);
    Stage(w, DeliverStale(id, Pending, oracle), StaleRan(w, id, oracle), rest);
  }

  /** The two deliveries of a duplicated job for a pending order: the one
      that writes first moves the order to routing; the other, which loaded
      it while it was still pending, adds a second attempt and a second job
      but no second announcement. */
  lemma DuplicatedPendingJob(w: World, id: string, first: Oracle, second: Oracle, rest: seq<Action>)
    requires id in w.db.orders && w.db.orders[id].status == Pending
    requires !ExecutionIdInUse(w.db, first.executionId) && !ExecutionIdInUse(w.db, second.executionId)
    requires first.executionId != second.executionId
    ensures Run(w, [Deliver(id, first), DeliverStale(id, Pending, second)] + rest)
            == Run(StaleRan(FirstWritten(w, id, first), id, second), rest)
  {
    var d1 := Deliver(id, first);
    var d2 := DeliverStale(id, Pending, second);
    FirstDeliveryStage(w, id, first, [d2] + rest);
    FirstWrittenLeavesUnused(w, id, first, second);
    StaleDeliveryStage(FirstWritten(w, id, first), id, second, rest);
    assert [d1, d2] + rest == [d1] + ([d2] + rest);
  }

  /** After both deliveries: the order is routing, routing is announced
      once, two jobs are queued and two attempts recorded. */
  lemma DuplicatedPendingJobFacts(w: World, id: string, first: Oracle, second: Oracle)
    requires id in w.db.orders
    ensures var w2 := StaleRan(FirstWritten(w, id, first), id, second);
      && w2.db.orders == w.db.orders[id := OrderRow(Routing, w.db.orders[id].payload)]
      && w2.events == w.events + [Event(id, Routing, NoData)]
      && w2.jobs == w.jobs + [id, id]
      && GetExecutionAttemptCount(w2.db, id) == GetExecutionAttemptCount(w.db, id) + 2
  {
    var w1 := FirstWritten(w, id, first);
    var x := NewExecution(first.executionId, id, GetExecutionAttemptCount(w.db, id) + 1);
    var y := NewExecution(second.executionId, id, GetExecutionAttemptCount(w1.db, id) + 1);
    ExecutionsOfSnoc(w.db.executions, x, id);
    ExecutionsOfSnoc(w1.db.executions, y, id);
    assert w.jobs + [id] + [id] == w.jobs + [id, id];
  }
}
