# Order lifecycle state machine

This is a Dafny model of the order execution engine's lifecycle core. A swap order is stored as `pending`. A job queue then delivers jobs for it. Each delivery loads the order and dispatches on its status to one state handler. The handler:

- calls the two venues (Raydium and Meteora);
- writes the execution attempt;
- moves the order one step with a compare-and-set on its status;
- publishes a lifecycle event whenever the compare-and-set succeeds.

Errors that are not fatal go back to the queue, which retries them. When the queue gives up, the order is forced to `failed`.

The model has two layers:

- **Specification functions over values.** `Store.Db` holds the `orders` map and the `order_executions` rows. The store operations (`Store.ConditionalTransition` and the others), the handlers (`Handlers.PendingStep`, …) and the orchestrator (`Orchestrator.ProcessStep`, …) are functions from a `Db` to the new `Db`. They also return the events published, the jobs enqueued, and whether the call returned or threw.
- **Imperative code with the source's own structure.** `Store.OrderStore`, `Events.EventBus` and `JobQueue.JobQueue` are classes whose fields the methods update in place (`TransitionOrderStatus`, `HandleBuilding`, `ProcessOrderStep`, …). Each method is proved to leave its objects in exactly the state the matching function gives.

Anything the outside world decides during one delivery is a parameter value (`Orchestrator.Oracle`):

- the id of the new attempt;
- the two quotes;
- the two swap results.

Each venue reply is a success, a fatal error or a retriable error. "Retriable" covers every error that is not a `FatalError`.

Races between workers are modelled in two ways, without real concurrency:

- a delivery can be re-run at any time;
- a delivery can dispatch on a stale snapshot of its order (`Lifecycle.Action.DeliverStale`): its load saw an earlier status, and another delivery wrote the order before its handler ran.

The main results are:

1. **Allowed edges, even for stale snapshots.** Every handler as the dispatch runs it, every dispatch and every delivery moves its order only along allowed edges, and touches no other order (`Lifecycle.DispatchAdvances`, `Lifecycle.ProcessStepAdvances`). The allowed edges are the successor in `ORDER_FLOW`, or `failed` from any active status. A stale snapshot makes no difference: the store's compare-and-set and the status the snapshot was dispatched on together make each move legal. Every status entered is announced, in order. The failure routine run by retry exhaustion is the exception: on a terminal order it is not an allowed move (point 4).
2. **Well-formed event traces.** Consider any run of submissions, deliveries (first delivery, redelivery or retry, on a fresh or a stale snapshot) and retry exhaustions, where exhaustion hits only live orders. In such a run, every order's events form a prefix of `routing, building, submitted, confirmed`, possibly ending early in `failed`. The order's stored status is the last of them (`Lifecycle.RunKeepsCoherent`).
3. **Terminal redelivery is a no-op.** A delivery for a `confirmed` or `failed` order changes nothing (`Orchestrator.ProcessStep`, `Lifecycle.TerminalRedeliveryIsNoop`).
4. **Retry exhaustion can break a terminal order.** As written, retry exhaustion breaks point 2 for an order that is already terminal (see Findings).

## Model

| member | source | states |
|---|---|---|
| OrderState.Parse | OrderExecutionEngine_standalone/src/__tests__/state.test.ts:9-16 | reading a status column gives back the same text, and the value is one of the six named statuses exactly when the text is one of their names |
| OrderState.ParseName | OrderExecutionEngine_standalone/src/__tests__/state.test.ts:9-16 | writing a status that can come out of the column (an unrecognized value never carries one of the six names) and reading it back gives the same status |
| OrderState.SixStatuses | OrderExecutionEngine_standalone/src/__tests__/state.test.ts:9-16 | there are exactly six named statuses, with the six distinct names pending … failed, and they are exactly the statuses that are not unrecognized text |
| OrderState.IsTerminalState | OrderExecutionEngine_standalone/src/__tests__/state.test.ts:28-44 | a status is terminal exactly when it is confirmed or failed |
| OrderState.IndexOf | OrderExecutionEngine_standalone/src/__tests__/state.test.ts:46-56 | `indexOf` returns the first position of the element, or -1 exactly when the element is absent |
| OrderState.NextState | OrderExecutionEngine_standalone/src/__tests__/state.test.ts:46-56 | a successor exists exactly for the flow's statuses other than confirmed; it is in the flow and is never pending |
| OrderState.NextStateFollowsFlow | OrderExecutionEngine_standalone/src/__tests__/state.test.ts:46-51 | each of pending, routing, building and submitted is followed by the next status of `ORDER_FLOW` |
| OrderState.NoSuccessorWhenTerminal | OrderExecutionEngine_standalone/src/__tests__/state.test.ts:53-56 | confirmed, failed and unrecognized statuses have no successor |
| OrderState.ActiveHasSuccessor | OrderExecutionEngine_standalone/src/__tests__/state.test.ts:34-56 | the statuses with a successor are exactly the non-terminal statuses of the flow |
| OrderState.NextStateIsSuccessor | OrderExecutionEngine_standalone/src/__tests__/state.test.ts:46-56 | `getNextState`, computed through `ORDER_FLOW.indexOf`, agrees on every status with the expected table: pending→routing→building→submitted→confirmed, and nothing after confirmed, failed or unrecognized text |
| OrderState.EdgeFollowsNextState | OrderExecutionEngine_standalone/src/__tests__/state.test.ts:46-56 | an allowed lifecycle move is exactly a move to `getNextState`'s answer, or a move into failed from a status that has one |
| OrderState.TraceIsWalk | OrderExecutionEngine/src/__tests__/ws.lifecycle.test.ts:13-37 | a sequence of announced statuses is a prefix of routing, building, submitted, confirmed (possibly ending in failed) exactly when, after pending, it walks along allowed edges; both directions are proved |
| OrderState.TraceStep | OrderExecutionEngine/src/__tests__/ws.lifecycle.test.ts:13-37 | one more announcement keeps a trace well formed exactly when it is an allowed move from the trace's current status |
| OrderState.TraceFollowsChain | OrderExecutionEngine/src/__tests__/ws.lifecycle.test.ts:13-37 | a trace extended by a walk from its current status is a trace ending where the walk ends |
| OrderState.TraceStatusKnown | OrderExecutionEngine_standalone/src/__tests__/state.test.ts:18-26 | a trace always leaves the order in a status of the flow or in failed |
| Routing.DexFromName | OrderExecutionEngine/src/state/handlers.ts:121-123 | a chosen venue text selects Raydium exactly when it is "raydium"; any other text selects Meteora |
| Routing.DexNameRoundTrip | OrderExecutionEngine/src/state/handlers.ts:82 | the venue name persisted in `chosen_dex` selects that venue again |
| Routing.ChooseRoute | OrderExecutionEngine/src/state/handlers.ts:64-77 | Raydium is chosen exactly when its net price `price*(1-fee)` is strictly greater; both raw prices and both fees are recorded as quoted; the reason names the chosen net price |
| Routing.ChoiceIsBest | OrderExecutionEngine/src/state/handlers.ts:64-68 | the chosen venue's net price is at least each venue's net price |
| Routing.TieGoesToMeteora | OrderExecutionEngine/src/state/handlers.ts:68 | equal net prices choose Meteora |
| Routing.FeesDecideTheRoute | OrderExecutionEngine/src/__tests__/routing.test.ts:25-38 | 100 at fee 0.003 nets 99.7 and 99.5 at fee 0.002 nets 99.301, so Raydium is chosen |
| Store.GetOrder | OrderExecutionEngine/src/db/orders.ts:24-27 | an order is returned exactly when the id is stored, carrying the stored status and payload |
| Store.ExecutionsOf | OrderExecutionEngine/src/db/orders.ts:150-156 | the executions of an order are exactly the rows with that `order_id` |
| Store.GetExecutionAttemptCount | OrderExecutionEngine/src/db/orders.ts:172-178 | the count is the number of execution rows whose `order_id` is the order's, so it is at most the number of rows |
| Store.AttemptCountCountsRows | OrderExecutionEngine/src/db/orders.ts:172-178 | the attempt count equals the number of row positions whose `order_id` matches |
| Store.Latest | OrderExecutionEngine/src/db/orders.ts:161-167 | finds a row of the order with the greatest attempt number, or nothing exactly when the order has no rows |
| Store.GetLatestExecution | OrderExecutionEngine/src/db/orders.ts:161-167 | returns null exactly when the order has no executions; otherwise returns one of its executions with the greatest `attempt_number` |
| Store.InsertByAttempt | OrderExecutionEngine/src/db/orders.ts:150-156 | inserting into a list sorted by attempt keeps it sorted and adds exactly that row |
| Store.SortByAttempt | OrderExecutionEngine/src/db/orders.ts:150-156 | the result is sorted by attempt number and is a permutation of the input |
| Store.GetOrderExecutions | OrderExecutionEngine/src/db/orders.ts:150-156 | returns exactly that order's executions (as a multiset), sorted by ascending `attempt_number` |
| Store.InsertOrder | OrderExecutionEngine/src/db/orders.ts:11-19 | a new id is stored as given and `getOrder` returns it; every other order is unchanged; a taken id fails and changes nothing |
| Store.CreateThenGet | OrderExecutionEngine/src/db/orders.ts:11-27 | `createOrder` then `getOrder` returns the stored id, status and payload; other ids answer as before |
| Store.ConditionalTransition | OrderExecutionEngine/src/db/orders.ts:33-43 | succeeds exactly when the order exists with status `from`; only that order's status changes, to `to`; on failure nothing changes |
| Store.TransitionTwice | OrderExecutionEngine/src/db/orders.ts:33-43 | two identical calls with `from != to`: after the first, the second returns false and changes nothing |
| Store.InsertExecution | OrderExecutionEngine/src/db/orders.ts:86-98 | appends one row with the given id, order and attempt and all optional columns empty, unless the id is taken; orders are untouched; ids stay unique |
| Store.UpdateById | OrderExecutionEngine/src/db/orders.ts:103-145 | rewrites exactly the rows whose key matches and keeps every other row |
| Store.WithRouting | OrderExecutionEngine/src/db/orders.ts:103-114 | only `chosen_dex` and `routing_decision` of the matching row change, and keys, orders and attempt numbers stay as they were |
| Store.WithSuccess | OrderExecutionEngine/src/db/orders.ts:119-130 | only `tx_hash` and `execution_price` of the matching row change, and keys, orders and attempt numbers stay as they were |
| Store.WithFailure | OrderExecutionEngine/src/db/orders.ts:135-145 | only `failure_reason` of the matching row changes, and keys, orders and attempt numbers stay as they were |
| Store.UpdateTouchesOneRow | OrderExecutionEngine/src/db/orders.ts:103-145 | with unique ids, an update rewrites exactly one row and keeps ids unique |
| Store.SameAttemptsKeepValid | OrderExecutionEngine/src/db/orders.ts:103-145 | updates of optional columns keep execution ids unique |
| Store.SameAttemptsKeepNumbering | OrderExecutionEngine/src/db/orders.ts:103-145 | updates of optional columns keep every order's attempts numbered 1, 2, 3, … |
| Store.NextAttemptKeepsNumbering | OrderExecutionEngine/src/state/handlers.ts:23-24 | recording a new attempt numbered one past the order's count keeps the numbering 1, 2, 3, … |
| Store.LatestIsNewest | OrderExecutionEngine/src/db/orders.ts:161-167 | with numbered attempts, the latest execution is the one created last for that order |
| Store.OrderStore.constructor | OrderExecutionEngine/src/db/orders.ts:11-178 | the store starts with both tables empty |
| Store.OrderStore.CreateOrder | OrderExecutionEngine/src/db/orders.ts:11-19 | the tables afterwards and the returned order are those of `InsertOrder` |
| Store.OrderStore.TransitionOrderStatus | OrderExecutionEngine/src/db/orders.ts:33-43 | the tables afterwards and the boolean are those of `ConditionalTransition` |
| Store.OrderStore.CreateExecution | OrderExecutionEngine/src/db/orders.ts:86-98 | the tables afterwards and the returned row are those of `InsertExecution` |
| Store.OrderStore.UpdateExecutionRouting | OrderExecutionEngine/src/db/orders.ts:103-114 | the tables afterwards are those of `WithRouting` |
| Store.OrderStore.UpdateExecutionSuccess | OrderExecutionEngine/src/db/orders.ts:119-130 | the tables afterwards are those of `WithSuccess` |
| Store.OrderStore.UpdateExecutionFailure | OrderExecutionEngine/src/db/orders.ts:135-145 | the tables afterwards are those of `WithFailure` |
| Events.StatusesFor | OrderExecutionEngine/src/__tests__/ws.lifecycle.test.ts:18-21 | a subscriber for one order sees at most as many statuses as were published |
| Events.StatusesForAppend | OrderExecutionEngine/src/__tests__/ws.lifecycle.test.ts:18-21 | an order's statuses in a concatenated log are those in each part, in order |
| Events.StatusesForOther | OrderExecutionEngine/src/__tests__/ws.lifecycle.test.ts:18-21 | events about one order announce nothing about another |
| Events.StatusesForAbsent | OrderExecutionEngine/src/__tests__/ws.lifecycle.test.ts:18-21 | an order no event is about has announced nothing |
| Events.StatusesForAbout | OrderExecutionEngine/src/__tests__/ws.lifecycle.test.ts:18-21 | in a log about one order, the subscriber sees every status, in order |
| Events.StatusesForPair | OrderExecutionEngine/src/__tests__/ws.lifecycle.test.ts:18-21 | two events about one order announce their two statuses in order |
| Events.EventBus.Emit | OrderExecutionEngine/src/state/handlers.ts:35 | publishing appends exactly one event to the log |
| JobQueue.JobQueue.Add | OrderExecutionEngine/src/domain/orchestrator.ts:69 | enqueuing appends exactly one job for the order |
| Handlers.PendingStep | OrderExecutionEngine/src/state/handlers.ts:19-36 | a new attempt numbered count+1 is appended whether or not the compare-and-set wins; a routing event is published, and the order moves to routing, exactly when the id is free and the store still says pending; a taken id throws a retriable error before any write |
| Handlers.RoutingStep | OrderExecutionEngine/src/state/handlers.ts:42-94 | with no execution it throws "No execution found …" and changes nothing; a failed quote propagates and changes nothing; otherwise the decision of `ChooseRoute` is written to the latest attempt before the compare-and-set, and a building event that carries the decision is published, and the order moves to building, exactly when the store still says routing |
| Handlers.BuildingStep | OrderExecutionEngine/src/state/handlers.ts:106-171 | with no execution, or no chosen venue, it throws a plain (retriable) error and changes nothing; a fatal swap error is the shared failure routine and returns normally; a retriable one is rethrown with no write; a successful swap is persisted, then submitted and confirmed (with tx hash and price) are published exactly when the store still says building |
| Handlers.CommitSwap | OrderExecutionEngine/src/state/handlers.ts:148-168 | after a successful swap the transaction is persisted on the attempt; submitted then confirmed (with tx hash and price) are published exactly when the store still says building, and the order ends confirmed; otherwise no order changes |
| Handlers.SubmittedStep | OrderExecutionEngine/src/state/handlers.ts:179-200 | never throws and writes no execution; confirms, re-announcing the persisted tx hash and price, exactly when the reloaded order is submitted and the latest attempt has a non-empty tx hash; otherwise nothing changes |
| Handlers.FailStep | OrderExecutionEngine/src/state/handlers.ts:206-224 | the failure reason goes on the latest attempt if there is one; the compare-and-set starts from the observed status; failed with the reason is published exactly when the store still holds that status |
| Handlers.HandlePending | OrderExecutionEngine/src/state/handlers.ts:19-36 | store, event log and outcome afterwards are those of `PendingStep` |
| Handlers.HandleRouting | OrderExecutionEngine/src/state/handlers.ts:42-94 | store, event log and outcome afterwards are those of `RoutingStep` |
| Handlers.HandleBuilding | OrderExecutionEngine/src/state/handlers.ts:106-171 | store, event log and outcome afterwards are those of `BuildingStep` |
| Handlers.SubmitAndConfirm | OrderExecutionEngine/src/state/handlers.ts:148-168 | store, event log and outcome afterwards are those of `CommitSwap` |
| Handlers.HandleSubmitted | OrderExecutionEngine/src/state/handlers.ts:179-200 | store, event log and outcome afterwards are those of `SubmittedStep` |
| Handlers.FailOrder | OrderExecutionEngine/src/state/handlers.ts:206-224 | store, event log and outcome afterwards are those of `FailStep` |
| Orchestrator.ExecutionErrorStep | OrderExecutionEngine/src/domain/orchestrator.ts:85-94 | an error escapes exactly when it is not fatal, and then it is rethrown unchanged with no effect; a fatal error is the failure routine with its message |
| Orchestrator.AfterHandler | OrderExecutionEngine/src/domain/orchestrator.ts:28-63 | only retriable errors escape a delivery; a normal return schedules one job when asked to; a throw goes to error handling and schedules nothing |
| Orchestrator.DispatchStep | OrderExecutionEngine/src/domain/orchestrator.ts:28-63 | confirmed, failed and unrecognized statuses do nothing; only retriable errors escape; at most one job, for this order, is scheduled, and only after a normal return from pending, routing or building; every event is about this order |
| Orchestrator.DispatchRunsHandler | OrderExecutionEngine/src/domain/orchestrator.ts:29-49 | pending, routing and building each run their handler, whose writes and events are the delivery's, followed by error handling after a throw; the next job is scheduled exactly when that handler returns normally; submitted runs the recovery handler and schedules nothing |
| Orchestrator.ProcessStep | OrderExecutionEngine/src/domain/orchestrator.ts:17-64 | a missing order, and an order in a terminal status, leave store, log and queue unchanged; otherwise it is the dispatch on the order as loaded |
| Orchestrator.RetryExhaustedStep | OrderExecutionEngine/src/domain/orchestrator.ts:76-83 | a missing order is left alone; otherwise the failure routine runs with "Retry limit exceeded: " + reason, and it always succeeds, whatever the status, terminal or not |
| Orchestrator.ScheduleNextStep | OrderExecutionEngine/src/domain/orchestrator.ts:66-71 | enqueues exactly one job for the order |
| Orchestrator.HandleExecutionError | OrderExecutionEngine/src/domain/orchestrator.ts:85-94 | store, event log and outcome afterwards are those of `ExecutionErrorStep` |
| Orchestrator.ProcessOrderStep | OrderExecutionEngine/src/domain/orchestrator.ts:17-64 | store, event log, job queue and outcome afterwards are those of `ProcessStep` |
| Orchestrator.HandleRetryExhausted | OrderExecutionEngine/src/domain/orchestrator.ts:76-83 | store, event log and outcome afterwards are those of `RetryExhaustedStep` |
| Lifecycle.PendingStepAdvances | OrderExecutionEngine/src/state/handlers.ts:27-35 | the pending handler moves only its order, only pending to routing, and announces it |
| Lifecycle.RoutingStepAdvances | OrderExecutionEngine/src/state/handlers.ts:85-93 | the routing handler moves only its order, only routing to building, and announces it |
| Lifecycle.BuildingStepAdvances | OrderExecutionEngine/src/state/handlers.ts:135-168 | the building handler moves only its order, along building to submitted to confirmed or into failed, announcing each status |
| Lifecycle.SubmittedStepAdvances | OrderExecutionEngine/src/state/handlers.ts:184-198 | the recovery handler moves only its order, only submitted to confirmed, and announces it |
| Lifecycle.FailStepAdvances | OrderExecutionEngine/src/state/handlers.ts:206-224 | failing an order observed in an active status is an allowed move, whatever the store holds by then |
| Lifecycle.AdvancesCompose | OrderExecutionEngine/src/domain/orchestrator.ts:60-63 | two allowed steps of one order in a row make an allowed walk |
| Lifecycle.DispatchAdvances | OrderExecutionEngine/src/domain/orchestrator.ts:28-63 | for any snapshot of the order, however stale, the store moves only that order and only along allowed edges, and every status entered is announced |
| Lifecycle.ProcessStepAdvances | OrderExecutionEngine/src/domain/orchestrator.ts:17-64 | every delivery moves only its order along allowed edges and announces each status entered |
| Lifecycle.AdvancesKeepCoherent | OrderExecutionEngine/src/__tests__/ws.lifecycle.test.ts:13-37 | an allowed, announced walk keeps every order's events a well-formed trace that matches its status |
| Lifecycle.SubmitKeepsCoherent | OrderExecutionEngine/src/api/orders.ts:105-117 | a newly submitted pending order has announced nothing, and the others are untouched |
| Lifecycle.SubmitOrder | OrderExecutionEngine/src/api/orders.ts:105-117 | a new order is stored as pending and its first job is enqueued; a taken id changes nothing |
| Lifecycle.TerminalRedeliveryIsNoop | OrderExecutionEngine/src/domain/orchestrator.ts:52-55 | redelivering a job for a confirmed or failed order leaves store, events and queue exactly as they were |
| Lifecycle.RetryExhaustedAdvances | OrderExecutionEngine/src/domain/orchestrator.ts:76-83 | exhausting a missing or active order is an allowed move |
| Lifecycle.Apply | OrderExecutionEngine/src/domain/orchestrator.ts:17-83 | one step of the system: the API's create-then-enqueue (api/orders.ts lines 105-117), one run of the worker's job body `processOrderStep` on a fresh or stale load, or the queue's `failed` listener calling `handleRetryExhausted` (worker.ts lines 32-36); a submission publishes nothing and an exhaustion enqueues nothing |
| Lifecycle.ApplyGrows | OrderExecutionEngine/src/domain/orchestrator.ts:17-83 | each step only appends to the event log and the queue, and enqueues at most one job |
| Lifecycle.RunGrows | OrderExecutionEngine/src/domain/orchestrator.ts:17-83 | a run of steps only appends to the event log and the queue, at most one job per step |
| Lifecycle.ApplyKeepsCoherent | OrderExecutionEngine/src/domain/orchestrator.ts:17-83 | each submission, delivery (on a fresh or a stale snapshot), or exhaustion of a live order keeps every order's trace well formed |
| Lifecycle.RunKeepsCoherent | OrderExecutionEngine/src/domain/orchestrator.ts:17-83 | in every run where exhaustion hits only live orders, each order's events are a prefix of routing, building, submitted, confirmed, possibly ending in failed, and its status is the last of them |
| Lifecycle.TerminalExhaustBreaksTrace | OrderExecutionEngine/src/domain/orchestrator.ts:76-83 | as written, exhausting a confirmed or failed order moves it to failed and appends a failed event after its terminal one, so its events are no longer a trace |
| Lifecycle.TerminalTraceEnds | OrderExecutionEngine/src/domain/orchestrator.ts:76-83 | a trace already ended in confirmed or failed stops being well formed once failed is announced again |
| Lifecycle.ExhaustKeepsCoherentIff | OrderExecutionEngine/src/domain/orchestrator.ts:76-83 | as written, exhaustion keeps a coherent system coherent exactly when the order is missing or still active; both directions are proved |
| Lifecycle.GuardedRetryExhaustedStep | OrderExecutionEngine/src/domain/orchestrator.ts:76-83 | the corrected exhaustion leaves terminal orders alone and otherwise equals the as-written path |
| Lifecycle.GuardedApply | OrderExecutionEngine/src/domain/orchestrator.ts:17-83 | the corrected system differs from the as-written one only on exhaustion |
| Lifecycle.GuardedApplyKeepsCoherent | OrderExecutionEngine/src/domain/orchestrator.ts:76-83 | with the guard, every action keeps a coherent system coherent |
| Lifecycle.GuardedRunKeepsCoherent | OrderExecutionEngine/src/domain/orchestrator.ts:76-83 | with the guard, every run keeps every order's events a well-formed trace, with no condition on when the queue gives up |
| Lifecycle.StalePendingDelivery | OrderExecutionEngine/src/state/handlers.ts:23-31 | a delivery that loaded the order as pending after another delivery moved it on still adds an attempt, publishes nothing and schedules one more job |
| Lifecycle.PendingDelivery | OrderExecutionEngine/src/state/handlers.ts:19-36 | a delivery for a pending order with a free execution id appends attempt count+1, moves the order to routing, announces routing and queues the next job |
| Lifecycle.StalePendingApplied | OrderExecutionEngine/src/state/handlers.ts:23-31 | a stale delivery that saw pending, for an order the store no longer holds as pending, appends attempt count+1 and queues a job, and changes no order and announces nothing |
| Lifecycle.FatalSwapSchedules | OrderExecutionEngine/src/domain/orchestrator.ts:40-43 | a fatal swap fails the order and the delivery still schedules a job, which then finds the order terminal and does nothing |
| Lifecycle.MissingVenueIsRetried | OrderExecutionEngine/src/state/handlers.ts:114-116 | a building order with no chosen venue throws "Missing routing decision …" as a retriable error; nothing changes and the order is not failed |
| Lifecycle.SameAttemptsKeepSound | OrderExecutionEngine/src/db/orders.ts:103-145 | writes to optional columns keep execution ids unique and attempts numbered |
| Lifecycle.FailStepKeepsSound | OrderExecutionEngine/src/state/handlers.ts:209-212 | the failure routine keeps execution ids unique and attempts numbered |
| Lifecycle.DispatchKeepsSound | OrderExecutionEngine/src/state/handlers.ts:23-24 | every dispatch keeps execution ids unique and each order's attempts numbered 1, 2, 3, … in creation order |
| Lifecycle.ApplyKeepsSound | OrderExecutionEngine/src/domain/orchestrator.ts:17-83 | every action (as written or guarded, stale deliveries included) keeps the executions table sound |
| Lifecycle.RunKeepsSound | OrderExecutionEngine/src/domain/orchestrator.ts:17-83 | every run keeps execution ids unique and attempts numbered, so the "latest" execution the handlers read is the one created last |
| Scenario.HappyPending | OrderExecutionEngine/src/state/handlers.ts:19-36 | the first delivery of a fresh order records attempt 1, moves it to routing, announces routing and schedules the next job |
| Scenario.HappyRouting | OrderExecutionEngine/src/state/handlers.ts:42-94 | the next delivery persists the decision on attempt 1, moves to building, announces it with the decision and schedules the next job |
| Scenario.HappyBuilding | OrderExecutionEngine/src/state/handlers.ts:106-171 | the next delivery persists the swap, moves to confirmed, announces submitted then confirmed with tx hash and price, and schedules a job |
| Scenario.HappyRun | OrderExecutionEngine/src/__tests__/ws.lifecycle.test.ts:13-37 | submitting and delivering four jobs with all venue calls succeeding reaches one fixed end state |
| Scenario.HappyPath | OrderExecutionEngine/src/__tests__/ws.lifecycle.test.ts:13-37 | in that run the order is confirmed, its events are exactly routing, building, submitted, confirmed, one attempt is recorded and four jobs were enqueued |
| Scenario.DuplicatedPendingJob | OrderExecutionEngine/src/domain/orchestrator.ts:29-32 | a duplicated job for a pending order, both deliveries having loaded it as pending, runs as the first delivery's full step followed by the stale one's attempt and job |
| Scenario.DuplicatedPendingJobFacts | OrderExecutionEngine/src/state/handlers.ts:23-35 | after those two deliveries the order is routing, routing was announced once, two attempts were recorded and two jobs queued |

## Left out

- Real concurrency between workers is not modelled. Races are represented by redelivery at any time and by stale `order` snapshots passed to the handlers. As a consequence:
  - the second compare-and-set in the building handler (submitted to confirmed) cannot lose;
  - two concurrent pending deliveries cannot both read the same attempt count.
- `Promise.all` runs the two quote calls in parallel. The model takes both replies as given. When both quotes fail, it propagates Raydium's error; which error the source propagates depends on timing.
- The venue mocks (`Math.random`, `sleep`, price envelopes, the slippage check in the swap) are not modelled. Their results are the `Oracle` values, and nothing constrains the executed price.
- Prices and fees are `real`, not IEEE doubles. The routing reason's `toFixed(4)` text is modelled as the chosen net price itself (`BetterNetPrice`).
- UUID generation is not modelled: the new attempt's id is part of the `Oracle`. Order and execution ids are treated as primary keys. A taken id makes the insert fail with a plain error, which the orchestrator rethrows as retriable.
- The event bus (a Node EventEmitter) is an append-only log. Subscribing and unsubscribing are not modelled.
- Logging, the HTTP/WebSocket gateway and its input validation are not modelled. So are the BullMQ configuration and pool setup. The queue never rejects an `add`. The queue's retry ceiling is not modelled: exhaustion is an action that can happen at any time.
- Store.GetOrderExecutions: SQL leaves the order of equal attempt numbers unspecified; the model keeps insertion order for ties.
- Store.GetLatestExecution: with equal attempt numbers SQL may return any of them; the model returns the one inserted last. Under `Lifecycle.RunKeepsSound` attempt numbers never tie.
- Lifecycle.RunKeepsCoherent: holds only for runs where retry exhaustion hits missing or active orders. The as-written path breaks it otherwise; see Findings.
- Lifecycle.RunKeepsCoherent: each handler is one atomic step, so a worker crash part-way through a handler is not modelled. Between the committed compare-and-set and the event publish (handlers.ts lines 27 and 35, 85 and 93, 151 and 157, 160 and 165) a crash leaves the order moved but unannounced; the retry then announces the next status, and the trace would start at, say, building. Runs with such crashes are not covered.
- The `created_at` and `updated_at` columns are not modelled, because no property here depends on time. The compare-and-set in `transitionOrderStatus` also sets `updated_at`. The monitoring queries `getOrdersByStatus` and `getRecentOrders`, which sort by `created_at`, are not modelled either.

## Findings

| source | as written | input that shows it | evidently intended | confidence | as-written member | corrected member |
|---|---|---|---|---|---|---|
| OrderExecutionEngine/src/domain/orchestrator.ts:76-83 | `handleRetryExhausted` calls `failOrder` with the order's current status and no terminal check. The compare-and-set then succeeds from `confirmed` or `failed`. | a duplicated job's last retry loads the order while it is still live and throws a retriable error, while the other delivery confirms the order; the queue then gives up, and exhaustion reloads the order as `confirmed` and fails it: the order becomes `failed` and `failed` is announced after `confirmed` | force `failed` only from a non-terminal status, and leave terminal orders alone | medium, not executed | Lifecycle.TerminalExhaustBreaksTrace | Lifecycle.GuardedRetryExhaustedStep |

The as-written world is `Lifecycle.Apply`. There, `Lifecycle.ExhaustKeepsCoherentIff` proves that exhaustion keeps traces well formed exactly when the order is missing or active. The corrected world is `Lifecycle.GuardedApply`. There, `Lifecycle.GuardedRunKeepsCoherent` proves the trace property of every run, with no condition on exhaustion.
