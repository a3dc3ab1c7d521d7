/**
 * The state handlers, one per originating status, and the shared failure
 * routine. Each handler is given the order as it was loaded, which may be
 * stale by the time the handler writes: every status change goes through
 * the store's compare-and-set, and a lost compare-and-set ends the handler
 * quietly.
 *
 * `PendingStep`, `RoutingStep`, `BuildingStep`, `SubmittedStep` and
 * `FailStep` give the effect of each handler on the tables, the events it
 * publishes and how it ends; the methods below run the same steps against
 * the mutable store and bus and are proved to have exactly that effect.
 */
module Handlers {
  import opened Wrappers
  import opened OrderState
  import opened Routing
  import opened Store
  import opened Events

  /** How a handler ends: normally, or by throwing. */
  datatype Outcome = Returned | Threw(failure: Failure)

  /** The effect of one handler run. */
  datatype Effect = Effect(db: Db, emitted: seq<Event>, outcome: Outcome)

  /** JavaScript truthiness of an optional text column. */
  predicate Present(column: Option<string>)
  {
    column.Some? && column.value != ""
  }

  /** pending -> routing. The new attempt is recorded before the
      compare-and-set, whatever its result. */
  function PendingStep(db: Db, order: Order, executionId: string): (r: Effect)
    ensures About(r.emitted, order.id)
    ensures r.outcome.Threw? <==> ExecutionIdInUse(db, executionId)
    ensures r.outcome.Threw? ==> r.db == db && r.emitted == [] && r.outcome.failure == Retriable(DuplicateKey)
    ensures !ExecutionIdInUse(db, executionId) ==>
              r.db.executions == db.executions
                                 + [NewExecution(executionId, order.id, GetExecutionAttemptCount(db, order.id) + 1)]
    ensures r.emitted != [] <==>
              !ExecutionIdInUse(db, executionId) && order.id in db.orders && db.orders[order.id].status == Pending
    ensures r.emitted != [] ==>
              r.emitted == [Event(order.id, Routing, NoData)]
              && r.db.orders == db.orders[order.id := OrderRow(Routing, db.orders[order.id].payload)]
    ensures r.emitted == [] ==> r.db.orders == db.orders
  {
    var attemptCount := GetExecutionAttemptCount(db, order.id);
    var (db1, created) := InsertExecution(db, executionId, order.id, attemptCount + 1);
    if created.None? then Effect(db, [], Threw(Retriable(DuplicateKey)))
    else
      var (db2, success) := ConditionalTransition(db1, order.id, Pending, Routing);
      if !success then Effect(db2, [], Returned)
      else Effect(db2, [Event(order.id, Routing, NoData)], Returned)
  }

  /** routing -> building. Both quotes must arrive before anything is
      written; the decision is persisted on the latest attempt before the
      compare-and-set and announced only if it succeeds. */
  function RoutingStep(db: Db, order: Order, raydiumQuote: Reply<Quote>, meteoraQuote: Reply<Quote>): (r: Effect)
    ensures About(r.emitted, order.id)
    ensures GetLatestExecution(db, order.id).None? ==>
              r == Effect(db, [], Threw(Retriable("No execution found for order " + order.id)))
    ensures (raydiumQuote.Err? || meteoraQuote.Err?) ==> r.db == db && r.emitted == [] && r.outcome.Threw?
    ensures r.outcome.Threw? ==> r.db == db && r.emitted == []
    ensures r.outcome.Returned? <==>
              GetLatestExecution(db, order.id).Some? && raydiumQuote.Ok? && meteoraQuote.Ok?
    ensures r.outcome.Returned? ==>
              var decision := ChooseRoute(raydiumQuote.value, meteoraQuote.value);
              var latest := GetLatestExecution(db, order.id).value;
              && r.db.executions == WithRouting(db, latest.id, DexName(decision.dex), decision).executions
              && (r.emitted != [] <==> order.id in db.orders && db.orders[order.id].status == Routing)
              && (r.emitted != [] ==> r.emitted == [Event(order.id, Building, RoutingInfo(decision))])
              && (r.emitted != [] ==>
                    order.id in db.orders
                    && r.db.orders == db.orders[order.id := OrderRow(Building, db.orders[order.id].payload)])
              && (r.emitted == [] ==> r.db.orders == db.orders)
  {
    var execution := GetLatestExecution(db, order.id);
    if execution.None? then Effect(db, [], Threw(Retriable("No execution found for order " + order.id)))
    else if raydiumQuote.Err? then Effect(db, [], Threw(raydiumQuote.failure))
    else if meteoraQuote.Err? then Effect(db, [], Threw(meteoraQuote.failure))
    else
      var decision := ChooseRoute(raydiumQuote.value, meteoraQuote.value);
      var db1 := WithRouting(db, execution.value.id, DexName(decision.dex), decision);
      var (db2, success) := ConditionalTransition(db1, order.id, Routing, Building);
      if !success then Effect(db2, [], Returned)
      else Effect(db2, [Event(order.id, Building, RoutingInfo(decision))], Returned)
  }

  /** The failure routine shared by all states. The failure reason goes on
      the latest attempt if there is one; the compare-and-set starts from
      the status observed when the order was loaded. */
  function FailStep(db: Db, order: Order, reason: string): (r: Effect)
    ensures About(r.emitted, order.id)
    ensures r.outcome == Returned
    ensures r.db.executions == (match GetLatestExecution(db, order.id)
                                case None => db.executions
                                case Some(e) => WithFailure(db, e.id, reason).executions)
    ensures r.emitted != [] <==> order.id in db.orders && db.orders[order.id].status == order.status
    ensures r.emitted != [] ==>
              r.emitted == [Event(order.id, Failed, ErrorInfo(reason))]
              && r.db.orders == db.orders[order.id := OrderRow(Failed, db.orders[order.id].payload)]
    ensures r.emitted == [] ==> r.db.orders == db.orders
  {
    var execution := GetLatestExecution(db, order.id);
    var db1 := if execution.Some? then WithFailure(db, execution.value.id, reason) else db;
    var (db2, success) := ConditionalTransition(db1, order.id, order.status, Failed);
    if !success then Effect(db2, [], Returned)
    else Effect(db2, [Event(order.id, Failed, ErrorInfo(reason))], Returned)
  }

  /** The swap reply of the venue an execution's `chosen_dex` selects. */
  function ChosenSwap(chosenDex: string, raydiumSwap: Reply<SwapResult>, meteoraSwap: Reply<SwapResult>): Reply<SwapResult>
  {
    if DexFromName(chosenDex) == Raydium then raydiumSwap else meteoraSwap
  }

  /** building -> submitted -> confirmed. A fatal swap error fails the order
      and returns normally; any other swap error is rethrown before anything
      is written; a successful swap is persisted, then the two
      compare-and-sets run in turn, each announced, and a lost one stops the
      rest. */
  function BuildingStep(db: Db, order: Order, raydiumSwap: Reply<SwapResult>, meteoraSwap: Reply<SwapResult>): (r: Effect)
    ensures About(r.emitted, order.id)
    ensures GetLatestExecution(db, order.id).None? ==>
              r == Effect(db, [], Threw(Retriable("No execution record found for order " + order.id)))
    ensures GetLatestExecution(db, order.id).Some? && !Present(GetLatestExecution(db, order.id).value.chosenDex) ==>
              r == Effect(db, [], Threw(Retriable("Missing routing decision for order " + order.id)))
    ensures r.outcome.Threw? ==> r.db == db && r.emitted == [] && r.outcome.failure.Retriable?
    ensures GetLatestExecution(db, order.id).Some? && Present(GetLatestExecution(db, order.id).value.chosenDex) ==>
              var latest := GetLatestExecution(db, order.id).value;
              match ChosenSwap(latest.chosenDex.value, raydiumSwap, meteoraSwap)
              case Err(Fatal(message)) => r == FailStep(db, order, message)
              case Err(Retriable(message)) => r == Effect(db, [], Threw(Retriable(message)))
              case Ok(swap) =>
                && r.outcome == Returned
                && r.db.executions == WithSuccess(db, latest.id, swap.txHash, swap.executedPrice).executions
                && (r.emitted != [] <==> order.id in db.orders && db.orders[order.id].status == Building)
                && (r.emitted != [] ==>
                      r.emitted == [Event(order.id, Submitted, NoData),
                                    Event(order.id, Confirmed, TxInfo(swap.txHash, Some(swap.executedPrice)))]
                      && r.db.orders == db.orders[order.id := OrderRow(Confirmed, db.orders[order.id].payload)])
                && (r.emitted == [] ==> r.db.orders == db.orders)
  {
    var execution := GetLatestExecution(db, order.id);
    if execution.None? then Effect(db, [], Threw(Retriable("No execution record found for order " + order.id)))
    else if !Present(execution.value.chosenDex) then
      Effect(db, [], Threw(Retriable("Missing routing decision for order " + order.id)))
    else
      match ChosenSwap(execution.value.chosenDex.value, raydiumSwap, meteoraSwap)
      case Err(Fatal(message)) => FailStep(db, order, message)
      case Err(Retriable(message)) => Effect(db, [], Threw(Retriable(message)))
      case Ok(swap) => CommitSwap(db, order, execution.value.id, swap)
  }

  /** The rest of `building` after a successful swap: persist the
      transaction on the attempt, then building -> submitted -> confirmed,
      each compare-and-set announced, a lost one stopping the rest. */
  function CommitSwap(db: Db, order: Order, executionId: string, swap: SwapResult): (r: Effect)
    ensures About(r.emitted, order.id)
    ensures r.outcome == Returned
    ensures r.db.executions == WithSuccess(db, executionId, swap.txHash, swap.executedPrice).executions
    ensures r.emitted != [] <==> order.id in db.orders && db.orders[order.id].status == Building
    ensures r.emitted != [] ==>
              && r.emitted == [Event(order.id, Submitted, NoData),
                               Event(order.id, Confirmed, TxInfo(swap.txHash, Some(swap.executedPrice)))]
              && r.db.orders == db.orders[order.id := OrderRow(Confirmed, db.orders[order.id].payload)]
    ensures r.emitted == [] ==> r.db.orders == db.orders
  {
    var db1 := WithSuccess(db, executionId, swap.txHash, swap.executedPrice);
    var (db2, submitted) := ConditionalTransition(db1, order.id, Building, Submitted);
    if !submitted then Effect(db2, [], Returned)
    else
      var (db3, confirmed) := ConditionalTransition(db2, order.id, Submitted, Confirmed);
      if !confirmed then Effect(db3, [Event(order.id, Submitted, NoData)], Returned)
      else Effect(db3, [Event(order.id, Submitted, NoData),
                        Event(order.id, Confirmed, TxInfo(swap.txHash, Some(swap.executedPrice)))], Returned)
  }

  /** Recovery of an order left in `submitted`: confirms it, re-announcing
      the persisted transaction, only if the reloaded order is still
      submitted and the latest attempt has a transaction hash. No venue is
      called and no attempt is written. */
  function SubmittedStep(db: Db, order: Order): (r: Effect)
    ensures About(r.emitted, order.id)
    ensures r.outcome == Returned
    ensures r.db.executions == db.executions
    ensures r.emitted != [] <==>
              && order.id in db.orders && db.orders[order.id].status == Submitted
              && GetLatestExecution(db, order.id).Some? && Present(GetLatestExecution(db, order.id).value.txHash)
    ensures r.emitted != [] ==>
              var latest := GetLatestExecution(db, order.id).value;
              && r.emitted == [Event(order.id, Confirmed, TxInfo(latest.txHash.value, latest.executionPrice))]
              && r.db.orders == db.orders[order.id := OrderRow(Confirmed, db.orders[order.id].payload)]
    ensures r.emitted == [] ==> r.db == db
  {
    var current := GetOrder(db, order.id);
    if current.None? || current.value.status != Submitted then Effect(db, [], Returned)
    else
      var execution := GetLatestExecution(db, order.id);
      if execution.None? || !Present(execution.value.txHash) then Effect(db, [], Returned)
      else
        var (db1, success) := ConditionalTransition(db, order.id, Submitted, Confirmed);
        if !success then Effect(db1, [], Returned)
        else Effect(db1, [Event(order.id, Confirmed, TxInfo(execution.value.txHash.value, execution.value.executionPrice))], Returned)
  }

  // ---------------------------------------------------------------------
  // The handlers against the mutable store and bus
  // ---------------------------------------------------------------------

  method HandlePending(store: OrderStore, bus: EventBus, order: Order, executionId: string)
    returns (outcome: Outcome)
    modifies store, bus
    ensures var e := PendingStep(old(store.Snapshot()), order, executionId);
      store.Snapshot() == e.db && bus.events == old(bus.events) + e.emitted && outcome == e.outcome
  {
    var attemptCount := GetExecutionAttemptCount(store.Snapshot(), order.id);
    var created := store.CreateExecution(executionId, order.id, attemptCount + 1);
    if created.None? {
      return Threw(Retriable(DuplicateKey));
    }
    var success := store.TransitionOrderStatus(order.id, Pending, Routing);
    if !success {
      return Returned;
    }
    bus.Emit(order.id, Routing, NoData);
    return Returned;
  }

  method HandleRouting(store: OrderStore, bus: EventBus, order: Order,
                       raydiumQuote: Reply<Quote>, meteoraQuote: Reply<Quote>)
    returns (outcome: Outcome)
    modifies store, bus
    ensures var e := RoutingStep(old(store.Snapshot()), order, raydiumQuote, meteoraQuote);
      store.Snapshot() == e.db && bus.events == old(bus.events) + e.emitted && outcome == e.outcome
  {
    var execution := GetLatestExecution(store.Snapshot(), order.id);
    if execution.None? {
      return Threw(Retriable("No execution found for order " + order.id));
    }
    if raydiumQuote.Err? {
      return Threw(raydiumQuote.failure);
    }
    if meteoraQuote.Err? {
      return Threw(meteoraQuote.failure);
    }
    var decision := ChooseRoute(raydiumQuote.value, meteoraQuote.value);
    store.UpdateExecutionRouting(execution.value.id, DexName(decision.dex), decision);
    var success := store.TransitionOrderStatus(order.id, Routing, Building);
    if !success {
      return Returned;
    }
    bus.Emit(order.id, Building, RoutingInfo(decision));
    return Returned;
  }

  method HandleBuilding(store: OrderStore, bus: EventBus, order: Order,
                        raydiumSwap: Reply<SwapResult>, meteoraSwap: Reply<SwapResult>)
    returns (outcome: Outcome)
    modifies store, bus
    ensures var e := BuildingStep(old(store.Snapshot()), order, raydiumSwap, meteoraSwap);
      store.Snapshot() == e.db && bus.events == old(bus.events) + e.emitted && outcome == e.outcome
  {
    var execution := GetLatestExecution(store.Snapshot(), order.id);
    if execution.None? {
      return Threw(Retriable("No execution record found for order " + order.id));
    }
    if !Present(execution.value.chosenDex) {
      return Threw(Retriable("Missing routing decision for order " + order.id));
    }
    var reply := ChosenSwap(execution.value.chosenDex.value, raydiumSwap, meteoraSwap);
    match reply {
      case Err(Fatal(message)) =>
        outcome := FailOrder(store, bus, order, message);
        return Returned;
      case Err(Retriable(message)) =>
        return Threw(Retriable(message));
      case Ok(swap) =>
        outcome := SubmitAndConfirm(store, bus, order, execution.value.id, swap);
    }
  }

  method SubmitAndConfirm(store: OrderStore, bus: EventBus, order: Order, executionId: string, swap: SwapResult)
    returns (outcome: Outcome)
    modifies store, bus
    ensures var e := CommitSwap(old(store.Snapshot()), order, executionId, swap);
      store.Snapshot() == e.db && bus.events == old(bus.events) + e.emitted && outcome == e.outcome
  {
    store.UpdateExecutionSuccess(executionId, swap.txHash, swap.executedPrice);
    var success := store.TransitionOrderStatus(order.id, Building, Submitted);
    if !success {
      return Returned;
    }
    bus.Emit(order.id, Submitted, NoData);
    success := store.TransitionOrderStatus(order.id, Submitted, Confirmed);
    if !success {
      return Returned;
    }
    bus.Emit(order.id, Confirmed, TxInfo(swap.txHash, Some(swap.executedPrice)));
    return Returned;
  }

  method HandleSubmitted(store: OrderStore, bus: EventBus, order: Order) returns (outcome: Outcome)
    modifies store, bus
    ensures var e := SubmittedStep(old(store.Snapshot()), order);
      store.Snapshot() == e.db && bus.events == old(bus.events) + e.emitted && outcome == e.outcome
  {
    outcome := Returned;
    var current := GetOrder(store.Snapshot(), order.id);
    if current.Some? && current.value.status == Submitted {
      var execution := GetLatestExecution(store.Snapshot(), order.id);
      if execution.Some? && Present(execution.value.txHash) {
        var success := store.TransitionOrderStatus(order.id, Submitted, Confirmed);
        if success {
          bus.Emit(order.id, Confirmed, TxInfo(execution.value.txHash.value, execution.value.executionPrice));
        }
      }
    }
  }

  method FailOrder(store: OrderStore, bus: EventBus, order: Order, reason: string) returns (outcome: Outcome)
    modifies store, bus
    ensures var e := FailStep(old(store.Snapshot()), order, reason);
      store.Snapshot() == e.db && bus.events == old(bus.events) + e.emitted && outcome == e.outcome
  {
    outcome := Returned;
    var execution := GetLatestExecution(store.Snapshot(), order.id);
    if execution.Some? {
      store.UpdateExecutionFailure(execution.value.id, reason);
    }
    var success := store.TransitionOrderStatus(order.id, order.status, Failed);
    if !success {
      return;
    }
    bus.Emit(order.id, Failed, ErrorInfo(reason));
  }
}
