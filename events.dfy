/**
 * Lifecycle events. Publishing is modelled as appending to an append-only
 * log; what a live subscriber sees is a sub-sequence of that log.
 */
module Events {
  import opened Wrappers
  import opened OrderState
  import opened Routing

  /** The optional structured payload of an event. */
  datatype EventData =
    | NoData
    | RoutingInfo(routing: RoutingDecision)
    | TxInfo(txHash: string, executionPrice: Option<real>)
    | ErrorInfo(error: string)

  datatype Event = Event(orderId: string, status: Status, data: EventData)

  /** Every event in `events` is about order `orderId`. */
  predicate About(events: seq<Event>, orderId: string)
  {
    forall e :: e in events ==> e.orderId == orderId
  }

  /** The statuses announced for one order, in publication order. */
  function StatusesFor(events: seq<Event>, orderId: string): (r: seq<Status>)
    ensures |r| <= |events|
  {
    if events == [] then []
    else
      var init := StatusesFor(events[..|events| - 1], orderId);
      var e := events[|events| - 1];
      if e.orderId == orderId then init + [e.status] else init
  }

  /** Announcements of an order in a concatenated log are those of each part. */
  lemma {:induction false} StatusesForAppend(a: seq<Event>, b: seq<Event>, orderId: string)
    ensures StatusesFor(a + b, orderId) == StatusesFor(a, orderId) + StatusesFor(b, orderId)
    decreases |b|
  {
    if b == [] {
      assert a + b == a;
    } else {
      var n := |b| - 1;
      assert (a + b)[..|a + b| - 1] == a + b[..n];
      StatusesForAppend(a, b[..n], orderId);
    }
  }

  /** A log whose events are all about one order announces nothing about any
      other order. */
  lemma {:induction false} StatusesForOther(events: seq<Event>, id: string, other: string)
    requires About(events, id)
    requires other != id
    ensures StatusesFor(events, other) == []
    decreases |events|
  {
    if events != [] {
      var init := events[..|events| - 1];
      assert forall e :: e in init ==> e in events;
      StatusesForOther(init, id, other);
      assert events[|events| - 1] in events;
    }
  }

  /** Two events about one order announce their two statuses. */
  lemma StatusesForPair(events: seq<Event>, orderId: string)
    requires |events| == 2 && events[0].orderId == orderId && events[1].orderId == orderId
    ensures StatusesFor(events, orderId) == [events[0].status, events[1].status]
  {
    assert StatusesFor(events[..1], orderId) == [events[0].status] by {
      assert events[..1][..0] == [];
    }
  }

  /** An order no event is about has announced nothing. */
  lemma {:induction false} StatusesForAbsent(events: seq<Event>, orderId: string)
    requires forall e :: e in events ==> e.orderId != orderId
    ensures StatusesFor(events, orderId) == []
    decreases |events|
  {
    if events != [] {
      var init := events[..|events| - 1];
      assert forall e :: e in init ==> e in events;
      StatusesForAbsent(init, orderId);
      assert events[|events| - 1] in events;
    }
  }

  /** The statuses announced in a log all about one order, in order. */
  lemma {:induction false} StatusesForAbout(events: seq<Event>, orderId: string)
    requires About(events, orderId)
    ensures |StatusesFor(events, orderId)| == |events|
    ensures forall i :: 0 <= i < |events| ==> StatusesFor(events, orderId)[i] == events[i].status
    decreases |events|
  {
    if events != [] {
      var init := events[..|events| - 1];
      assert forall e :: e in init ==> e in events;
      StatusesForAbout(init, orderId);
      assert events[|events| - 1] in events;
    }
  }

  /** The in-process event bus. */
  class EventBus {
    var events: seq<Event>

    constructor ()
      ensures events == []
    {
      events := [];
    }

    /** `emitOrderEvent`. */
    method Emit(orderId: string, status: Status, data: EventData)
      modifies this
      ensures events == old(events) + [Event(orderId, status, data)]
    {
      events := events + [Event(orderId, status, data)];
    }
  }
}
