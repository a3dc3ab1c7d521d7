/**
 * The order and execution store: the `orders` table keyed by id and the
 * `order_executions` table of attempt records. The value `Db` and the pure
 * functions over it give the meaning of each statement; `OrderStore` is the
 * mutable store whose methods perform them in place.
 */
module Store {
  import opened Wrappers
  import opened OrderState
  import opened Routing

  /** What the user submitted. */
  datatype Payload = Payload(tokenIn: string, tokenOut: string, amount: real, slippage: real)

  /** A row of `orders`, without its key. */
  datatype OrderRow = OrderRow(status: Status, payload: Payload)

  /** An order as the queries return it. */
  datatype Order = Order(id: string, status: Status, payload: Payload)

  /** A row of `order_executions`; the optional columns are filled in as the
      order progresses. */
  datatype Execution = Execution(
    id: string,
    orderId: string,
    attemptNumber: int,
    chosenDex: Option<string>,
    routingDecision: Option<RoutingDecision>,
    txHash: Option<string>,
    executionPrice: Option<real>,
    failureReason: Option<string>)

  /** The contents of both tables. */
  datatype Db = Db(orders: map<string, OrderRow>, executions: seq<Execution>)

  const EmptyDb: Db := Db(map[], [])

  /** The message of the error an INSERT with a key already in use raises. */
  const DuplicateKey: string := "duplicate key value violates unique constraint"

  /** Execution ids are the key of `order_executions`. */
  ghost predicate ValidDb(db: Db)
  {
    forall i, j :: 0 <= i < j < |db.executions| ==> db.executions[i].id != db.executions[j].id
  }

  predicate ExecutionIdInUse(db: Db, id: string)
  {
    exists e :: e in db.executions && e.id == id
  }

  /** A freshly inserted execution: only key, order and attempt number set. */
  function NewExecution(id: string, orderId: string, attemptNumber: int): Execution
  {
    Execution(id, orderId, attemptNumber, None, None, None, None, None)
  }

  // ---------------------------------------------------------------------
  // Queries
  // ---------------------------------------------------------------------

  /** `getOrder`: the order with that id, or nothing. */
  function GetOrder(db: Db, id: string): (r: Option<Order>)
    ensures r.Some? <==> id in db.orders
    ensures r.Some? ==> (r.value.id == id && OrderRow(r.value.status, r.value.payload) == db.orders[id])
  {
    if id in db.orders then Some(Order(id, db.orders[id].status, db.orders[id].payload)) else None
  }

  /** The executions of one order, in insertion order. */
  function ExecutionsOf(executions: seq<Execution>, orderId: string): (r: seq<Execution>)
    ensures |r| <= |executions|
    ensures forall e :: e in r <==> e in executions && e.orderId == orderId
  {
    if executions == [] then []
    else
      var init := ExecutionsOf(executions[..|executions| - 1], orderId);
      var last := executions[|executions| - 1];
      assert executions == executions[..|executions| - 1] + [last];
      if last.orderId == orderId then init + [last] else init
  }

  /** The positions of an order's executions. */
  ghost function RowsOf(executions: seq<Execution>, orderId: string): set<int>
  {
    set i | 0 <= i < |executions| && executions[i].orderId == orderId
  }

  /** `getExecutionAttemptCount`. */
  function GetExecutionAttemptCount(db: Db, orderId: string): (n: nat)
    ensures n <= |db.executions|
    ensures n == |RowsOf(db.executions, orderId)|
  {
    AttemptCountCountsRows(db.executions, orderId);
    |ExecutionsOf(db.executions, orderId)|
  }

  /** The attempt count is the number of rows whose `order_id` matches. */
  lemma {:induction false} AttemptCountCountsRows(executions: seq<Execution>, orderId: string)
    ensures |ExecutionsOf(executions, orderId)| == |RowsOf(executions, orderId)|
    decreases |executions|
  {
    if executions != [] {
      var n := |executions| - 1;
      var init := executions[..n];
      AttemptCountCountsRows(init, orderId);
      RowsOfSnoc(executions, orderId);
      assert ExecutionsOf(executions, orderId)
          == if executions[n].orderId == orderId then ExecutionsOf(init, orderId) + [executions[n]]
             else ExecutionsOf(init, orderId);
      if executions[n].orderId == orderId {
        var before := RowsOf(init, orderId);
        assert |before + {n}| == |before| + 1;
      }
    }
  }

  lemma RowsOfSnoc(executions: seq<Execution>, orderId: string)
    requires executions != []
    ensures var n := |executions| - 1;
      && n !in RowsOf(executions[..n], orderId)
      && RowsOf(executions, orderId)
         == RowsOf(executions[..n], orderId) + (if executions[n].orderId == orderId then {n} else {})
  {
    var n := |executions| - 1;
    var init := executions[..n];
    var before := RowsOf(init, orderId);
    var after := RowsOf(executions, orderId);
    var extra := if executions[n].orderId == orderId then {n} else {};
    forall i | i in after ensures i in before + extra {
      if i < n { assert executions[i] == init[i]; }
    }
    forall i | i in before + extra ensures i in after {
      if i < n { assert executions[i] == init[i]; }
    }
  }

  /** The execution of an order with the greatest attempt number; among equal
      attempt numbers the one inserted last. */
  function Latest(executions: seq<Execution>, orderId: string): (r: Option<Execution>)
    ensures r.None? <==> forall e :: e in executions ==> e.orderId != orderId
    ensures r.Some? ==> r.value in executions && r.value.orderId == orderId
    ensures r.Some? ==> forall e :: e in executions && e.orderId == orderId ==>
                                      e.attemptNumber <= r.value.attemptNumber
  {
    if executions == [] then None
    else
      var init := executions[..|executions| - 1];
      var last := executions[|executions| - 1];
      assert executions == init + [last];
      var best := Latest(init, orderId);
      if last.orderId == orderId && (best.None? || best.value.attemptNumber <= last.attemptNumber)
      then Some(last)
      else best
  }

  /** `getLatestExecution`. */
  function GetLatestExecution(db: Db, orderId: string): (r: Option<Execution>)
    ensures r.None? <==> ExecutionsOf(db.executions, orderId) == []
    ensures r.Some? ==> r.value in db.executions && r.value.orderId == orderId
    ensures r.Some? ==> forall e :: e in db.executions && e.orderId == orderId ==>
                                      e.attemptNumber <= r.value.attemptNumber
  {
    var r := Latest(db.executions, orderId);
    assert ExecutionsOf(db.executions, orderId) != [] ==> ExecutionsOf(db.executions, orderId)[0] in ExecutionsOf(db.executions, orderId);
    r
  }

  predicate SortedByAttempt(s: seq<Execution>)
  {
    forall i, j :: 0 <= i < j < |s| ==> s[i].attemptNumber <= s[j].attemptNumber
  }

  function InsertByAttempt(e: Execution, s: seq<Execution>): (r: seq<Execution>)
    requires SortedByAttempt(s)
    ensures SortedByAttempt(r)
    ensures multiset(r) == multiset(s) + multiset{e}
    ensures |r| == |s| + 1
  {
    if s == [] || e.attemptNumber <= s[0].attemptNumber then
      InsertedFirst(e, s);
      [e] + s
    else
      var rest := InsertByAttempt(e, s[1..]);
      assert s == [s[0]] + s[1..];
      InsertedAfter(e, s, rest);
      [s[0]] + rest
  }

  /** A row no later than the first of a sorted list goes in front. */
  lemma InsertedFirst(e: Execution, s: seq<Execution>)
    requires SortedByAttempt(s) && (s == [] || e.attemptNumber <= s[0].attemptNumber)
    ensures SortedByAttempt([e] + s)
  {
    var r := [e] + s;
    forall i, j | 0 <= i < j < |r| ensures r[i].attemptNumber <= r[j].attemptNumber {
      if i > 0 { assert r[i] == s[i - 1] && r[j] == s[j - 1]; }
      else if j > 1 { assert r[j] == s[j - 1]; assert s[0].attemptNumber <= s[j - 1].attemptNumber; }
    }
  }

  /** A row later than the first of a sorted list goes behind it. */
  lemma InsertedAfter(e: Execution, s: seq<Execution>, rest: seq<Execution>)
    requires SortedByAttempt(s) && s != [] && e.attemptNumber > s[0].attemptNumber
    requires SortedByAttempt(rest) && multiset(rest) == multiset(s[1..]) + multiset{e}
    ensures SortedByAttempt([s[0]] + rest)
  {
    forall y | y in rest ensures s[0].attemptNumber <= y.attemptNumber {
      assert y in multiset(rest);
      if y != e {
        assert y in multiset(s[1..]);
        var k :| 0 <= k < |s[1..]| && s[1..][k] == y;
        assert s[k + 1] == y;
      }
    }
    var r := [s[0]] + rest;
    forall i, j | 0 <= i < j < |r| ensures r[i].attemptNumber <= r[j].attemptNumber {
      if i > 0 { assert r[i] == rest[i - 1] && r[j] == rest[j - 1]; }
      else { assert r[j] == rest[j - 1] && rest[j - 1] in rest; }
    }
  }

  function SortByAttempt(s: seq<Execution>): (r: seq<Execution>)
    ensures SortedByAttempt(r)
    ensures multiset(r) == multiset(s)
  {
    if s == [] then []
    else
      assert s == [s[0]] + s[1..];
      InsertByAttempt(s[0], SortByAttempt(s[1..]))
  }

  /** `getOrderExecutions`: exactly the order's executions, by ascending
      attempt number. */
  function GetOrderExecutions(db: Db, orderId: string): (r: seq<Execution>)
    ensures SortedByAttempt(r)
    ensures multiset(r) == multiset(ExecutionsOf(db.executions, orderId))
    ensures forall e :: e in r <==> e in db.executions && e.orderId == orderId
  {
    var r := SortByAttempt(ExecutionsOf(db.executions, orderId));
    assert forall e :: e in r <==> e in multiset(r);
    r
  }

  // ---------------------------------------------------------------------
  // Statements that change the tables
  // ---------------------------------------------------------------------

  /** `createOrder`: inserts the row, or fails when the id is taken. */
  function InsertOrder(db: Db, id: string, status: Status, payload: Payload): (r: (Db, Option<Order>))
    ensures r.1.Some? <==> id !in db.orders
    ensures r.1.Some? ==> GetOrder(r.0, id) == r.1 == Some(Order(id, status, payload))
    ensures r.1.None? ==> r.0 == db
    ensures r.0.executions == db.executions
    ensures r.0.orders.Keys == db.orders.Keys + {id}
    ensures forall k :: k in db.orders && k != id ==> r.0.orders[k] == db.orders[k]
  {
    if id in db.orders then (db, None)
    else (db.(orders := db.orders[id := OrderRow(status, payload)]), Some(Order(id, status, payload)))
  }

  /** `transitionOrderStatus`: the compare-and-set on the status column. It
      succeeds exactly when the order exists with status `from`; then that
      order's status becomes `to` and nothing else changes; otherwise
      nothing changes at all. */
  function ConditionalTransition(db: Db, id: string, from: Status, to: Status): (r: (Db, bool))
    ensures r.1 <==> id in db.orders && db.orders[id].status == from
    ensures !r.1 ==> r.0 == db
    ensures r.0.executions == db.executions
    ensures r.0.orders.Keys == db.orders.Keys
    ensures forall k :: k in db.orders && k != id ==> r.0.orders[k] == db.orders[k]
    ensures r.1 ==> r.0.orders[id] == OrderRow(to, db.orders[id].payload)
  {
    if id in db.orders && db.orders[id].status == from then
      (db.(orders := db.orders[id := db.orders[id].(status := to)]), true)
    else
      (db, false)
  }

  /** Of two identical compare-and-sets in a row that change the status, the
      second fails; so at most one of them succeeds. */
  lemma TransitionTwice(db: Db, id: string, from: Status, to: Status)
    requires from != to
    ensures var (db1, first) := ConditionalTransition(db, id, from, to);
            var (db2, second) := ConditionalTransition(db1, id, from, to);
            !second && db2 == db1
  {
  }

  /** `createExecution`: appends a row with only key, order and attempt
      number set, or fails when the id is taken. */
  function InsertExecution(db: Db, id: string, orderId: string, attemptNumber: int): (r: (Db, Option<Execution>))
    ensures r.1.Some? <==> !ExecutionIdInUse(db, id)
    ensures r.1.Some? ==> (r.1.value == NewExecution(id, orderId, attemptNumber)
                           && r.0.executions == db.executions + [r.1.value])
    ensures r.1.None? ==> r.0 == db
    ensures r.0.orders == db.orders
    ensures ValidDb(db) ==> ValidDb(r.0)
  {
    if ExecutionIdInUse(db, id) then (db, None)
    else
      var e := NewExecution(id, orderId, attemptNumber);
      (db.(executions := db.executions + [e]), Some(e))
  }

  /** The rows of `executions` with key `id` rewritten by `f`. */
  function UpdateById(executions: seq<Execution>, id: string, f: Execution -> Execution): (r: seq<Execution>)
    ensures |r| == |executions|
    ensures forall i :: 0 <= i < |executions| ==>
              r[i] == if executions[i].id == id then f(executions[i]) else executions[i]
  {
    seq(|executions|, i requires 0 <= i < |executions| =>
      if executions[i].id == id then f(executions[i]) else executions[i])
  }

  /** `updateExecutionRouting`. */
  function WithRouting(db: Db, executionId: string, chosenDex: string, decision: RoutingDecision): (r: Db)
    ensures SameAttempts(db.executions, r.executions)
    ensures r.orders == db.orders && |r.executions| == |db.executions|
    ensures forall i :: 0 <= i < |db.executions| ==>
              r.executions[i] == if db.executions[i].id == executionId
                                 then db.executions[i].(chosenDex := Some(chosenDex), routingDecision := Some(decision))
                                 else db.executions[i]
  {
    db.(executions := UpdateById(db.executions, executionId,
                                 (e: Execution) => e.(chosenDex := Some(chosenDex), routingDecision := Some(decision))))
  }

  /** `updateExecutionSuccess`. */
  function WithSuccess(db: Db, executionId: string, txHash: string, executionPrice: real): (r: Db)
    ensures SameAttempts(db.executions, r.executions)
    ensures r.orders == db.orders && |r.executions| == |db.executions|
    ensures forall i :: 0 <= i < |db.executions| ==>
              r.executions[i] == if db.executions[i].id == executionId
                                 then db.executions[i].(txHash := Some(txHash), executionPrice := Some(executionPrice))
                                 else db.executions[i]
  {
    db.(executions := UpdateById(db.executions, executionId,
                                 (e: Execution) => e.(txHash := Some(txHash), executionPrice := Some(executionPrice))))
  }

  /** `updateExecutionFailure`. */
  function WithFailure(db: Db, executionId: string, reason: string): (r: Db)
    ensures SameAttempts(db.executions, r.executions)
    ensures r.orders == db.orders && |r.executions| == |db.executions|
    ensures forall i :: 0 <= i < |db.executions| ==>
              r.executions[i] == if db.executions[i].id == executionId
                                 then db.executions[i].(failureReason := Some(reason))
                                 else db.executions[i]
  {
    db.(executions := UpdateById(db.executions, executionId, (e: Execution) => e.(failureReason := Some(reason))))
  }

  /** With unique execution ids, an update by id rewrites exactly the one
      matching row (keeping its key, order and attempt number) and keeps the
      ids unique. */
  lemma UpdateTouchesOneRow(db: Db, k: nat, f: Execution -> Execution)
    requires ValidDb(db) && k < |db.executions|
    requires forall e :: f(e).id == e.id && f(e).orderId == e.orderId && f(e).attemptNumber == e.attemptNumber
    ensures var r := UpdateById(db.executions, db.executions[k].id, f);
      && r[k] == f(db.executions[k])
      && (forall i :: 0 <= i < |r| && i != k ==> r[i] == db.executions[i])
      && ValidDb(db.(executions := r))
  {
  }

  /** Two versions of the executions table holding the same rows in the
      same places, differing at most in the optional columns. */
  predicate SameAttempts(a: seq<Execution>, b: seq<Execution>)
  {
    && |a| == |b|
    && forall i :: 0 <= i < |a| ==>
         a[i].id == b[i].id && a[i].orderId == b[i].orderId && a[i].attemptNumber == b[i].attemptNumber
  }

  /** Rows with the same keys keep the keys unique. */
  lemma SameAttemptsKeepValid(a: Db, b: Db)
    requires SameAttempts(a.executions, b.executions) && ValidDb(a)
    ensures ValidDb(b)
  {
  }

  /** Every order's attempts, in insertion order, are numbered 1, 2, 3, ... */
  ghost predicate NumberedAttempts(executions: seq<Execution>)
  {
    forall orderId, i :: 0 <= i < |ExecutionsOf(executions, orderId)| ==>
      ExecutionsOf(executions, orderId)[i].attemptNumber == i + 1
  }

  lemma {:induction false} SameAttemptsOf(a: seq<Execution>, b: seq<Execution>, orderId: string)
    requires SameAttempts(a, b)
    ensures |ExecutionsOf(a, orderId)| == |ExecutionsOf(b, orderId)|
    ensures forall i :: 0 <= i < |ExecutionsOf(a, orderId)| ==>
              ExecutionsOf(a, orderId)[i].attemptNumber == ExecutionsOf(b, orderId)[i].attemptNumber
    decreases |a|
  {
    if a != [] {
      var n := |a| - 1;
      assert SameAttempts(a[..n], b[..n]);
      SameAttemptsOf(a[..n], b[..n], orderId);
      assert ExecutionsOf(a, orderId) == if a[n].orderId == orderId then ExecutionsOf(a[..n], orderId) + [a[n]]
                                         else ExecutionsOf(a[..n], orderId);
      assert ExecutionsOf(b, orderId) == if b[n].orderId == orderId then ExecutionsOf(b[..n], orderId) + [b[n]]
                                         else ExecutionsOf(b[..n], orderId);
    }
  }

  lemma SameAttemptsKeepNumbering(a: seq<Execution>, b: seq<Execution>)
    requires SameAttempts(a, b) && NumberedAttempts(a)
    ensures NumberedAttempts(b)
  {
    forall orderId, i | 0 <= i < |ExecutionsOf(b, orderId)|
      ensures ExecutionsOf(b, orderId)[i].attemptNumber == i + 1
    {
      SameAttemptsOf(a, b, orderId);
    }
  }

  lemma ExecutionsOfSnoc(executions: seq<Execution>, e: Execution, orderId: string)
    ensures ExecutionsOf(executions + [e], orderId)
            == ExecutionsOf(executions, orderId) + (if e.orderId == orderId then [e] else [])
  {
    assert (executions + [e])[..|executions|] == executions;
  }

  /** Numbering a new attempt one past the order's attempt count keeps the
      numbering. */
  lemma NextAttemptKeepsNumbering(db: Db, id: string, orderId: string)
    requires NumberedAttempts(db.executions)
    ensures NumberedAttempts(InsertExecution(db, id, orderId, GetExecutionAttemptCount(db, orderId) + 1).0.executions)
  {
    var e := NewExecution(id, orderId, GetExecutionAttemptCount(db, orderId) + 1);
    if !ExecutionIdInUse(db, id) {
      forall o, i | 0 <= i < |ExecutionsOf(db.executions + [e], o)|
        ensures ExecutionsOf(db.executions + [e], o)[i].attemptNumber == i + 1
      {
        ExecutionsOfSnoc(db.executions, e, o);
      }
    }
  }

  /** With numbered attempts, the latest execution is the order's most
      recently created one. */
  lemma LatestIsNewest(db: Db, orderId: string)
    requires NumberedAttempts(db.executions)
    ensures var xs := ExecutionsOf(db.executions, orderId);
      GetLatestExecution(db, orderId) == if xs == [] then None else Some(xs[|xs| - 1])
  {
    var xs := ExecutionsOf(db.executions, orderId);
    var r := GetLatestExecution(db, orderId);
    if xs != [] {
      assert xs[|xs| - 1] in xs;
      var k :| 0 <= k < |xs| && xs[k] == r.value;
      assert xs[k].attemptNumber >= xs[|xs| - 1].attemptNumber;
    }
  }

  /** `createOrder` followed by `getOrder` returns the stored order, and
      every other id answers as before. */
  lemma CreateThenGet(db: Db, id: string, status: Status, payload: Payload, other: string)
    requires id !in db.orders && other != id
    ensures var db1 := InsertOrder(db, id, status, payload).0;
      GetOrder(db1, id) == Some(Order(id, status, payload)) && GetOrder(db1, other) == GetOrder(db, other)
  {
  }

  /** The mutable store. */
  class OrderStore {
    var orders: map<string, OrderRow>
    var executions: seq<Execution>

    function Snapshot(): Db
      reads this
    {
      Db(orders, executions)
    }

    constructor ()
      ensures Snapshot() == EmptyDb
    {
      orders := map[];
      executions := [];
    }

    method CreateOrder(id: string, status: Status, payload: Payload) returns (created: Option<Order>)
      modifies this
      ensures (Snapshot(), created) == InsertOrder(old(Snapshot()), id, status, payload)
    {
      if id in orders {
        created := None;
      } else {
        orders := orders[id := OrderRow(status, payload)];
        created := Some(Order(id, status, payload));
      }
    }

    method TransitionOrderStatus(id: string, from: Status, to: Status) returns (success: bool)
      modifies this
      ensures (Snapshot(), success) == ConditionalTransition(old(Snapshot()), id, from, to)
    {
      success := id in orders && orders[id].status == from;
      if success {
        orders := orders[id := orders[id].(status := to)];
      }
    }

    method CreateExecution(id: string, orderId: string, attemptNumber: int) returns (created: Option<Execution>)
      modifies this
      ensures (Snapshot(), created) == InsertExecution(old(Snapshot()), id, orderId, attemptNumber)
    {
      if exists e :: e in executions && e.id == id {
        created := None;
      } else {
        var e := NewExecution(id, orderId, attemptNumber);
        executions := executions + [e];
        created := Some(e);
      }
    }

    method UpdateExecutionRouting(executionId: string, chosenDex: string, decision: RoutingDecision)
      modifies this
      ensures Snapshot() == WithRouting(old(Snapshot()), executionId, chosenDex, decision)
    {
      executions := UpdateById(executions, executionId,
                               (e: Execution) => e.(chosenDex := Some(chosenDex), routingDecision := Some(decision)));
    }

    method UpdateExecutionSuccess(executionId: string, txHash: string, executionPrice: real)
      modifies this
      ensures Snapshot() == WithSuccess(old(Snapshot()), executionId, txHash, executionPrice)
    {
      executions := UpdateById(executions, executionId,
                               (e: Execution) => e.(txHash := Some(txHash), executionPrice := Some(executionPrice)));
    }

    method UpdateExecutionFailure(executionId: string, reason: string)
      modifies this
      ensures Snapshot() == WithFailure(old(Snapshot()), executionId, reason)
    {
      executions := UpdateById(executions, executionId, (e: Execution) => e.(failureReason := Some(reason)));
    }
  }
}
