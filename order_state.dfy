/**
 * The order state table: the six named statuses, the forward flow, the
 * terminal set and the successor function, together with the lifecycle
 * edges and event traces that the rest of the model is checked against.
 */
module OrderState {
  import opened Wrappers

  /** The value of an order's status column. The six named values are the
      ones the state machine knows; `Unrecognized` stands for any other text
      the column might hold (the orchestrator logs and ignores such orders). */
  datatype Status =
    | Pending
    | Routing
    | Building
    | Submitted
    | Confirmed
    | Failed
    | Unrecognized(name: string)

  /** The text stored in the status column. */
  function Name(s: Status): string
  {
    match s
    case Pending => "pending"
    case Routing => "routing"
    case Building => "building"
    case Submitted => "submitted"
    case Confirmed => "confirmed"
    case Failed => "failed"
    case Unrecognized(n) => n
  }

  /** `OrderStatuses`: every status the state machine names. */
  const OrderStatuses: seq<Status> := [Pending, Routing, Building, Submitted, Confirmed, Failed]

  /** `ORDER_FLOW`: the forward sequence an order moves through. */
  const OrderFlow: seq<Status> := [Pending, Routing, Building, Submitted, Confirmed]

  /** `TERMINAL_STATES`. */
  const TerminalStates: seq<Status> := [Confirmed, Failed]

  /** The column texts of the six named statuses, position by position. */
  const StatusNames: seq<string> := ["pending", "routing", "building", "submitted", "confirmed", "failed"]

  /** A status value as it can come out of the column: an `Unrecognized`
      value never carries one of the six names. */
  predicate Canonical(s: Status)
  {
    s.Unrecognized? ==> s.name !in StatusNames
  }

  /** Reads a status column value. */
  function Parse(text: string): (s: Status)
    ensures Name(s) == text
    ensures Canonical(s)
    ensures s.Unrecognized? <==> text !in StatusNames
  {
    if text == "pending" then Pending
    else if text == "routing" then Routing
    else if text == "building" then Building
    else if text == "submitted" then Submitted
    else if text == "confirmed" then Confirmed
    else if text == "failed" then Failed
    else Unrecognized(text)
  }

  /** Writing a canonical status and reading it back gives the same status. */
  lemma ParseName(s: Status)
    requires Canonical(s)
    ensures Parse(Name(s)) == s
  {
  }

  /** There are exactly six named statuses, with six distinct names (the
      ones of `StatusNames`), and they are exactly the statuses that are not
      `Unrecognized`. */
  lemma SixStatuses(s: Status)
    ensures |OrderStatuses| == 6
    ensures forall k :: 0 <= k < |OrderStatuses| ==> Name(OrderStatuses[k]) == StatusNames[k]
    ensures forall i, j :: 0 <= i < j < |StatusNames| ==> StatusNames[i] != StatusNames[j]
    ensures s in OrderStatuses <==> !s.Unrecognized?
  {
  }

  /** The statuses from which no further step is taken. */
  function IsTerminalState(s: Status): (r: bool)
    ensures r <==> s == Confirmed || s == Failed
  {
    s in TerminalStates
  }

  /** `ORDER_FLOW.indexOf(x)`: the first position of `x`, or -1. */
  function IndexOf(xs: seq<Status>, x: Status): (i: int)
    ensures -1 <= i < |xs|
    ensures i == -1 <==> x !in xs
    ensures 0 <= i ==> xs[i] == x && forall j :: 0 <= j < i ==> xs[j] != x
  {
    if |xs| == 0 then -1
    else if xs[0] == x then 0
    else
      var j := IndexOf(xs[1..], x);
      if j == -1 then -1 else j + 1
  }

  /** `getNextState`: the successor in the flow, or nothing for the last
      status of the flow and for any status not in the flow. */
  function NextState(current: Status): (r: Option<Status>)
    ensures r.Some? <==> current in OrderFlow && current != Confirmed
    ensures r.Some? ==> r.value in OrderFlow && r.value != Pending
  {
    var index := IndexOf(OrderFlow, current);
    if index == -1 || index == |OrderFlow| - 1 then None
    else Some(OrderFlow[index + 1])
  }

  /** Each status of the flow but the last is followed by the next one. */
  lemma NextStateFollowsFlow(i: nat)
    requires i < |OrderFlow| - 1
    ensures NextState(OrderFlow[i]) == Some(OrderFlow[i + 1])
  {
    var index := IndexOf(OrderFlow, OrderFlow[i]);
    assert index == i;
  }

  /** The terminal states, and statuses outside the flow, have no successor. */
  lemma NoSuccessorWhenTerminal(s: Status)
    ensures IsTerminalState(s) || s.Unrecognized? ==> NextState(s) == None
  {
  }

  /** The successor table the state machine is expected to follow: pending,
      routing, building, submitted, confirmed, and nothing after confirmed,
      failed or an unrecognized status. */
  function Successor(s: Status): Option<Status>
  {
    match s
    case Pending => Some(Routing)
    case Routing => Some(Building)
    case Building => Some(Submitted)
    case Submitted => Some(Confirmed)
    case _ => None
  }

  /** `getNextState`, computed through `ORDER_FLOW.indexOf`, agrees with the
      successor table on every status. */
  lemma NextStateIsSuccessor(s: Status)
    ensures NextState(s) == Successor(s)
  {
    if s in OrderFlow && s != Confirmed {
      var i :| 0 <= i < |OrderFlow| - 1 && OrderFlow[i] == s;
      NextStateFollowsFlow(i);
    } else {
      NoSuccessorWhenTerminal(s);
    }
  }

  /** A status from which the order can still move. */
  predicate Active(s: Status)
  {
    s == Pending || s == Routing || s == Building || s == Submitted
  }

  /** Active states are exactly the non-terminal states of the flow, and
      exactly the states with a successor. */
  lemma ActiveHasSuccessor(s: Status)
    ensures Active(s) <==> s in OrderFlow && !IsTerminalState(s)
    ensures Active(s) <==> NextState(s).Some?
  {
    NextStateIsSuccessor(s);
  }

  /** An allowed move of the lifecycle: forward to the successor in the flow,
      or from any active state into `failed`. */
  predicate Edge(from: Status, to: Status)
  {
    Successor(from) == Some(to) || (to == Failed && Active(from))
  }

  /** The allowed moves are exactly the moves to `getNextState`'s answer and
      the moves into `failed` from a status that has one. */
  lemma EdgeFollowsNextState(from: Status, to: Status)
    ensures Edge(from, to) <==> NextState(from) == Some(to) || (to == Failed && NextState(from).Some?)
  {
    NextStateIsSuccessor(from);
  }

  /** Each status of the flow but the last is active and moves to the next. */
  lemma FlowSuccessor(n: nat)
    requires n < |OrderFlow| - 1
    ensures Successor(OrderFlow[n]) == Some(OrderFlow[n + 1]) && Active(OrderFlow[n])
  {
  }

  /** The four forward moves of the flow. */
  lemma ForwardEdges()
    ensures Edge(Pending, Routing) && Edge(Routing, Building)
    ensures Edge(Building, Submitted) && Edge(Submitted, Confirmed)
  {
  }

  /** A walk along allowed moves. */
  ghost predicate Chain(path: seq<Status>)
  {
    forall i :: 0 <= i < |path| - 1 ==> Edge(path[i], path[i + 1])
  }

  /** A successful swap walks building -> submitted -> confirmed. */
  lemma SwapWalk()
    ensures Chain([Building, Submitted, Confirmed])
  {
    var path := [Building, Submitted, Confirmed];
    ForwardEdges();
    assert Edge(path[0], path[1]) && Edge(path[1], path[2]);
  }

  function Last(path: seq<Status>): Status
    requires |path| > 0
  {
    path[|path| - 1]
  }

  /** Joining two walks that meet at a common status gives a walk. */
  lemma ChainJoin(p: seq<Status>, q: seq<Status>)
    requires Chain(p) && Chain(q)
    requires |p| > 0 && |q| > 0 && Last(p) == q[0]
    ensures Chain(p + q[1..]) && Last(p + q[1..]) == Last(q)
  {
    var r := p + q[1..];
    forall i | 0 <= i < |r| - 1
      ensures Edge(r[i], r[i + 1])
    {
      if i < |p| - 1 {
        assert r[i] == p[i] && r[i + 1] == p[i + 1];
      } else {
        assert r[i] == q[i - |p| + 1] && r[i + 1] == q[i - |p| + 2];
      }
    }
    if |q| > 1 {
      assert Last(r) == q[|q| - 1];
    }
  }

  /** The statuses an order announces after `pending`, in order: routing,
      building, submitted, confirmed. */
  const LifecycleEvents: seq<Status> := OrderFlow[1..]

  /** The announced statuses of one order: a prefix of `LifecycleEvents`,
      or a proper prefix of it followed by `failed`. */
  ghost predicate WellFormedTrace(t: seq<Status>)
  {
    || (|t| <= |LifecycleEvents| && t == LifecycleEvents[..|t|])
    || (0 < |t| <= |LifecycleEvents| && t[|t| - 1] == Failed && t[..|t| - 1] == LifecycleEvents[..|t| - 1])
  }

  /** The status an order has after announcing `t`, starting from `pending`. */
  function TraceStatus(t: seq<Status>): Status
  {
    if t == [] then Pending else t[|t| - 1]
  }

  /** The explicit prefix characterisation of traces agrees with walking the
      lifecycle edges from `pending`, in both directions. */
  lemma {:induction false} TraceIsWalk(t: seq<Status>)
    ensures WellFormedTrace(t) <==> Chain([Pending] + t)
    ensures WellFormedTrace(t) ==> TraceStatus(t) == Last([Pending] + t)
    decreases |t|
  {
    if t == [] {
      assert [Pending] + t == [Pending];
    } else {
      var init := t[..|t| - 1];
      var s := t[|t| - 1];
      TraceIsWalk(init);
      assert [Pending] + t == ([Pending] + init) + [s];
      assert t == init + [s];
      var w := [Pending] + init;
      ChainSnoc(w, s);
      if WellFormedTrace(t) {
        TraceInit(t);
        assert WellFormedTrace(init);
        TraceStep(init, s);
      } else if Chain([Pending] + t) {
        assert Chain(w) && Edge(Last(w), s);
        assert WellFormedTrace(init);
        TraceStep(init, s);
        assert false;
      }
    }
  }

  /** A walk extended by one step. */
  lemma ChainSnoc(w: seq<Status>, s: Status)
    requires |w| > 0
    ensures Chain(w + [s]) <==> Chain(w) && Edge(Last(w), s)
  {
    var r := w + [s];
    if Chain(r) {
      forall i | 0 <= i < |w| - 1
        ensures Edge(w[i], w[i + 1])
      {
        assert r[i] == w[i] && r[i + 1] == w[i + 1];
      }
      assert r[|w| - 1] == Last(w) && r[|w|] == s;
    }
    if Chain(w) && Edge(Last(w), s) {
      forall i | 0 <= i < |r| - 1
        ensures Edge(r[i], r[i + 1])
      {
        if i < |w| - 1 {
          assert r[i] == w[i] && r[i + 1] == w[i + 1];
        }
      }
    }
  }

  /** Dropping the last announcement of a trace leaves a trace. */
  lemma TraceInit(t: seq<Status>)
    requires WellFormedTrace(t) && t != []
    ensures WellFormedTrace(t[..|t| - 1])
  {
    var init := t[..|t| - 1];
    if |t| <= |LifecycleEvents| && t == LifecycleEvents[..|t|] {
      assert init == LifecycleEvents[..|init|];
    } else {
      assert init == LifecycleEvents[..|init|];
    }
  }

  /** One more announcement keeps a trace well formed exactly when it is an
      allowed move from the trace's current status. */
  lemma TraceStep(t: seq<Status>, s: Status)
    requires WellFormedTrace(t)
    ensures WellFormedTrace(t + [s]) <==> Edge(TraceStatus(t), s)
  {
    var n := |t|;
    if n <= |LifecycleEvents| && t == LifecycleEvents[..n] {
      if n < |LifecycleEvents| {
        ForwardTraceStep(n, s);
      } else {
        ConfirmedTraceStep(s);
      }
    } else {
      FailedTraceStep(t, s);
    }
  }

  lemma ForwardTraceStep(n: nat, s: Status)
    requires n < |LifecycleEvents|
    ensures var t := LifecycleEvents[..n];
      TraceStatus(t) == OrderFlow[n] &&
      (WellFormedTrace(t + [s]) <==> Edge(OrderFlow[n], s))
  {
    var t := LifecycleEvents[..n];
    var u := t + [s];
    assert TraceStatus(t) == OrderFlow[n] by {
      if n > 0 { assert t[n - 1] == LifecycleEvents[n - 1] == OrderFlow[n]; }
    }
    FlowSuccessor(n);
    assert u[..n] == t;
    if s == Failed {
      assert u[..|u| - 1] == LifecycleEvents[..|u| - 1];
      assert Edge(OrderFlow[n], s);
    } else if s == OrderFlow[n + 1] {
      assert u == LifecycleEvents[..|u|];
    } else {
      assert !Edge(OrderFlow[n], s);
      assert u[n] == s && LifecycleEvents[n] == OrderFlow[n + 1];
      assert u != LifecycleEvents[..|u|] by {
        if |u| <= |LifecycleEvents| { assert LifecycleEvents[..|u|][n] == OrderFlow[n + 1]; }
      }
    }
  }

  lemma ConfirmedTraceStep(s: Status)
    ensures var t := LifecycleEvents;
      TraceStatus(t) == Confirmed && !WellFormedTrace(t + [s]) && !Edge(Confirmed, s)
  {
  }

  lemma FailedTraceStep(t: seq<Status>, s: Status)
    requires WellFormedTrace(t)
    requires !(|t| <= |LifecycleEvents| && t == LifecycleEvents[..|t|])
    ensures TraceStatus(t) == Failed && !WellFormedTrace(t + [s]) && !Edge(Failed, s)
  {
    var n := |t|;
    var u := t + [s];
    assert t[n - 1] == Failed;
    assert Failed !in LifecycleEvents;
    assert u[n - 1] == Failed;
    assert u[..|u| - 1] == t;
  }

  /** A trace ends in a status of the flow or in `failed`, never in a
      status outside the table. */
  lemma TraceStatusKnown(t: seq<Status>)
    requires WellFormedTrace(t)
    ensures TraceStatus(t) in OrderFlow || TraceStatus(t) == Failed
  {
    if t != [] && t[|t| - 1] != Failed {
      assert t == LifecycleEvents[..|t|];
      assert t[|t| - 1] == LifecycleEvents[|t| - 1] == OrderFlow[|t|];
    }
  }

  /** A trace followed by a walk from its current status is a trace that
      ends where the walk ends. */
  lemma TraceFollowsChain(t: seq<Status>, path: seq<Status>)
    requires WellFormedTrace(t)
    requires Chain(path) && |path| > 0 && path[0] == TraceStatus(t)
    ensures WellFormedTrace(t + path[1..])
    ensures TraceStatus(t + path[1..]) == Last(path)
  {
    TraceIsWalk(t);
    ChainJoin([Pending] + t, path);
    assert ([Pending] + t) + path[1..] == [Pending] + (t + path[1..]);
    TraceIsWalk(t + path[1..]);
  }
}
