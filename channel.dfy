/** The live update channel of `subscribeToEvents`: one push connection at a
    time, decoded messages handed to the callback, and a reconnect scheduled
    5000 ms after a connection error or a failed construction. Connections
    and timers are modelled as discrete events: each method is one event
    (the transport delivering a message or an error, a timer firing, the
    caller unsubscribing), applied in the order the event loop runs them. */
module Channel {
  import opened Wrappers
  import opened Entities

  /** The delay of every reconnect, in milliseconds. */
  const ReconnectDelayMs := 5000

  datatype ConnState = Open | Closed

  class Subscription {
    /** Every EventSource the subscription has created, by creation order. */
    var conns: seq<ConnState>
    /** The closure's `eventSource` variable: the last connection created, if any. */
    var eventSource: Option<nat>
    /** The delays of the reconnect timers scheduled and not yet fired, in order. */
    var timers: seq<int>
    /** The decoded messages handed to the callback, in order. */
    var delivered: seq<PushEvent>

    /** At most one connection is open and it is the current one; at most one
        reconnect is pending, and only while no connection is open. */
    ghost predicate Valid()
      reads this
    {
      (eventSource.Some? ==> eventSource.value < |conns|)
      && (forall i :: 0 <= i < |conns| && conns[i] == Open ==> eventSource == Some(i))
      && |timers| <= 1
      && (timers != [] ==> NoneOpen())
      && (forall i :: 0 <= i < |timers| ==> timers[i] == ReconnectDelayMs)
    }

    predicate NoneOpen()
      reads this
    {
      forall i :: 0 <= i < |conns| ==> conns[i] == Closed
    }

    /** Nothing can happen any more: no connection can deliver a message or an
        error, and no reconnect can fire. */
    predicate Quiescent()
      reads this
    {
      NoneOpen() && timers == []
    }

    /** `subscribeToEvents(callback)`: connects at once. `constructed` tells
        whether `new EventSource(...)` succeeded. */
    constructor (constructed: bool)
      ensures Valid() && delivered == []
      ensures constructed ==> conns == [Open] && eventSource == Some(0) && timers == []
      ensures !constructed ==> conns == [] && eventSource == None && timers == [ReconnectDelayMs]
    {
      conns, eventSource, timers, delivered := [], None, [], [];
      new;
      Connect(constructed);
    }

    /** `connect()`: opens a new connection, or schedules a retry when the
        construction throws; the variable keeps its old value in that case. */
    method Connect(constructed: bool)
      requires Valid() && NoneOpen() && timers == []
      modifies this
      ensures Valid() && delivered == old(delivered)
      ensures constructed ==> conns == old(conns) + [Open] && eventSource == Some(|old(conns)|) && timers == []
      ensures !constructed ==> conns == old(conns) && eventSource == old(eventSource) && timers == [ReconnectDelayMs]
    {
      if constructed {
        eventSource := Some(|conns|);
        conns := conns + [Open];
      } else {
        timers := timers + [ReconnectDelayMs];
      }
    }

    /** `onmessage`: a payload that decodes is passed to the callback once,
        after those before it; one that does not (`None`) is dropped. The
        connection stays open either way. */
    method Message(conn: nat, payload: Option<PushEvent>)
      requires Valid() && conn < |conns| && conns[conn] == Open
      modifies this`delivered
      ensures payload.Some? ==> delivered == old(delivered) + [payload.value]
      ensures payload.None? ==> delivered == old(delivered)
    {
      if payload.Some? {
        delivered := delivered + [payload.value];
      }
    }

    /** `onerror`: closes the current connection and schedules exactly one
        reconnect, 5000 ms later. */
    method Error(conn: nat)
      requires Valid() && conn < |conns| && conns[conn] == Open
      modifies this`conns, this`timers
      ensures Valid() && NoneOpen()
      ensures |conns| == |old(conns)| && conns[conn] == Closed
      ensures forall i :: 0 <= i < |conns| && i != conn ==> conns[i] == old(conns)[i]
      ensures timers == old(timers) + [ReconnectDelayMs]
    {
      var current := eventSource.value;
      conns := conns[current := Closed];
      timers := timers + [ReconnectDelayMs];
    }

    /** A scheduled reconnect fires and calls `connect()` again. */
    method FireReconnect(constructed: bool)
      requires Valid() && timers != []
      modifies this
      ensures Valid() && delivered == old(delivered)
      ensures constructed ==> conns == old(conns) + [Open] && eventSource == Some(|old(conns)|) && timers == []
      ensures !constructed ==> conns == old(conns) && eventSource == old(eventSource) && timers == [ReconnectDelayMs]
    {
      timers := timers[1..];
      Connect(constructed);
    }

    /** The returned unsubscribe function: closes the connection the variable
        names, if any, and nothing else; a pending reconnect stays scheduled. */
    method Unsubscribe()
      requires Valid()
      modifies this`conns
      ensures Valid() && NoneOpen()
      ensures |conns| == |old(conns)|
      ensures eventSource.Some? ==> conns == old(conns)[eventSource.value := Closed]
      ensures eventSource.None? ==> conns == old(conns)
    {
      if eventSource.Some? {
        conns := conns[eventSource.value := Closed];
      }
    }

    /** Unsubscribing as intended: also cancels the pending reconnect, so that
        the subscription is over for good. */
    method UnsubscribeAndCancel()
      requires Valid()
      modifies this`conns, this`timers
      ensures Valid() && Quiescent()
      ensures |conns| == |old(conns)|
    {
      Unsubscribe();
      timers := [];
    }
  }

  /** As written, unsubscribing between a connection error and its reconnect
      does not stop the reconnect: the timer opens a new connection that no
      one will close, and its messages still reach the callback. */
  method ReconnectAfterUnsubscribe(e: PushEvent) returns (s: Subscription)
    ensures s.Valid()
    ensures s.conns == [Closed, Open] && s.eventSource == Some(1)
    ensures s.delivered == [e]
  {
    s := new Subscription(true);
    s.Error(0);
    s.Unsubscribe();
    s.FireReconnect(true);
    s.Message(1, Some(e));
  }

  /** With the reconnect cancelled, the same sequence leaves nothing to fire. */
  method CancelledReconnect() returns (s: Subscription)
    ensures s.Valid() && s.Quiescent()
    ensures s.conns == [Closed]
  {
    s := new Subscription(true);
    s.Error(0);
    s.UnsubscribeAndCancel();
  }
}
