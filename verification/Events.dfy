/** The deduplicating entry point for provider events (application/events.py). */
module Events {
  import opened Prelude

  type Key = int

  datatype Envelope = Envelope(key: Option<Key>, id: int)

  /** Where one call fails, if it does. A failed publication may or may not have reached the handlers. */
  datatype Fault = NoFault | AtLookup | AtPublish(reached: bool) | AtAppend | AtMark

  datatype Outcome = Processed | Skipped | Raised

  datatype Ports = Ports(published: seq<Envelope>, log: seq<Envelope>, marked: set<Key>)

  datatype Call = Call(envelope: Envelope, fault: Fault)

  predicate SeenBefore(p: Ports, e: Envelope) {
    e.key.Some? && e.key.value in p.marked
  }

  /** The call reaches the handlers. A lookup happens, and can fail, only for an event with a key. */
  predicate Dispatches(c: Call) {
    c.fault != AtPublish(false) && !(c.fault.AtLookup? && c.envelope.key.Some?)
  }

  /** The call reaches the log. */
  predicate Logs(c: Call) {
    Dispatches(c) && !c.fault.AtPublish? && !c.fault.AtAppend?
  }

  /** The call runs to its end; only an event with a key has a mark to fail at. */
  predicate Completes(c: Call) {
    Logs(c) && !(c.fault.AtMark? && c.envelope.key.Some?)
  }

  function AfterCall(p: Ports, c: Call): Ports {
    if SeenBefore(p, c.envelope) then p
    else
      Ports(
        p.published + if Dispatches(c) then [c.envelope] else [],
        p.log + if Logs(c) then [c.envelope] else [],
        p.marked + if Completes(c) && c.envelope.key.Some? then {c.envelope.key.value} else {})
  }

  function After(calls: seq<Call>): Ports {
    if calls == [] then Ports([], [], {}) else AfterCall(After(Front(calls)), Last(calls))
  }

  class IncomingEventProcessor {
    var published: seq<Envelope>
    var log: seq<Envelope>
    var marked: set<Key>

    function State(): Ports
      reads this
    {
      Ports(published, log, marked)
    }

    constructor ()
      ensures State() == Ports([], [], {})
    {
      published, log, marked := [], [], {};
    }

    method Process(envelope: Envelope, fault: Fault) returns (outcome: Outcome)
      modifies this
      ensures State() == AfterCall(old(State()), Call(envelope, fault))
      ensures outcome.Skipped? <==> SeenBefore(old(State()), envelope) && !fault.AtLookup?
      ensures outcome.Processed? <==> !SeenBefore(old(State()), envelope) && Completes(Call(envelope, fault))
    {
      if envelope.key.Some? {
        if fault.AtLookup? {
          return Raised;
        }
        if envelope.key.value in marked {
          return Skipped;
        }
      }
      if !fault.AtPublish? || fault.reached {
        published := published + [envelope];
      }
      if fault.AtPublish? {
        return Raised;
      }
      if fault.AtAppend? {
        return Raised;
      }
      log := log + [envelope];
      if envelope.key.Some? {
        if fault.AtMark? {
          return Raised;
        }
        marked := marked + {envelope.key.value};
      }
      return Processed;
    }
  }

  // ----- without faults ------------------------------------------------------

  /** The event has no key, or one that no earlier event has. */
  predicate IsFresh(earlier: seq<Envelope>, e: Envelope) {
    e.key.None? || forall i :: 0 <= i < |earlier| ==> earlier[i].key != e.key
  }

  /** The events with repeated keys removed and keyless ones kept. */
  function Deduplicated(events: seq<Envelope>): seq<Envelope> {
    if events == [] then []
    else Deduplicated(Front(events)) + if IsFresh(Front(events), Last(events)) then [Last(events)] else []
  }

  function WithoutFaults(events: seq<Envelope>): seq<Call> {
    seq(|events|, i requires 0 <= i < |events| => Call(events[i], NoFault))
  }

  /** Without faults, what is published and what is logged is the deduplicated input. */
  lemma {:induction false} FaultFreeRunDeduplicates(events: seq<Envelope>)
    ensures After(WithoutFaults(events)).published == Deduplicated(events)
    ensures After(WithoutFaults(events)).log == Deduplicated(events)
    ensures forall k ::
      k in After(WithoutFaults(events)).marked <==> exists i :: 0 <= i < |events| && events[i].key == Some(k)
  {
    if events != [] {
      FaultFreeRunDeduplicates(Front(events));
      assert Front(WithoutFaults(events)) == WithoutFaults(Front(events));
      var before := After(WithoutFaults(Front(events)));
      var last := Last(events);
      assert IsFresh(Front(events), last) <==> !SeenBefore(before, last) by {
        if last.key.Some? {
          var k := last.key.value;
          assert last.key == Some(k);
          assert k in before.marked <==> exists i :: 0 <= i < |Front(events)| && Front(events)[i].key == Some(k);
        }
      }
      assert before.published + [] == before.published;
      assert forall i :: 0 <= i < |events| - 1 ==> Front(events)[i] == events[i];
    }
  }

  /** The events with a given key, or without one, in order. */
  function Keyed(events: seq<Envelope>, key: Option<Key>): seq<Envelope> {
    if events == [] then [] else Keyed(Front(events), key) + if Last(events).key == key then [Last(events)] else []
  }

  /** Of each key the first event is kept and no other; of the keyless events, all are. */
  lemma {:induction false} DeduplicationKeepsFirsts(events: seq<Envelope>, key: Option<Key>)
    ensures
      var of := Keyed(events, key);
      Keyed(Deduplicated(events), key) == if key.None? || of == [] then of else [of[0]]
  {
    if events != [] {
      var front, last := Front(events), Last(events);
      DeduplicationKeepsFirsts(front, key);
      KeyedIsEmptyIff(front, key);
      KeyedAppend(Deduplicated(front), last, key);
      assert Keyed(front, key) + [] == Keyed(front, key);
      assert Deduplicated(front) + [] == Deduplicated(front);
      assert key.Some? && last.key == key ==> (IsFresh(front, last) <==> Keyed(front, key) == []);
      hide IsFresh;
    }
  }

  lemma KeyedAppend(events: seq<Envelope>, e: Envelope, key: Option<Key>)
    ensures Keyed(events + [e], key) == Keyed(events, key) + if e.key == key then [e] else []
  {
    assert Front(events + [e]) == events;
  }

  lemma {:induction false} KeyedIsEmptyIff(events: seq<Envelope>, key: Option<Key>)
    ensures Keyed(events, key) == [] <==> forall i :: 0 <= i < |events| ==> events[i].key != key
  {
    if events != [] {
      KeyedIsEmptyIff(Front(events), key);
      assert forall i :: 0 <= i < |events| - 1 ==> events[i] == Front(events)[i];
    }
  }

  // ----- with faults ---------------------------------------------------------

  /** Whatever fails and when, a marked key has been published and logged. */
  lemma {:induction false} MarkedMeansDelivered(calls: seq<Call>, k: Key)
    requires k in After(calls).marked
    ensures Keyed(After(calls).published, Some(k)) != [] && Keyed(After(calls).log, Some(k)) != []
  {
    var before, c := After(Front(calls)), Last(calls);
    if k in before.marked {
      MarkedMeansDelivered(Front(calls), k);
    }
    DeliveredStep(before, c, k);
  }

  lemma DeliveredStep(p: Ports, c: Call, k: Key)
    ensures
      Keyed(AfterCall(p, c).published, Some(k)) == Keyed(p.published, Some(k))
        + if k !in p.marked && c.envelope.key == Some(k) && Dispatches(c) then [c.envelope] else []
    ensures k in AfterCall(p, c).marked <==> k in p.marked || (c.envelope.key == Some(k) && Completes(c))
    ensures
      Keyed(AfterCall(p, c).log, Some(k)) == Keyed(p.log, Some(k))
        + if k !in p.marked && c.envelope.key == Some(k) && Logs(c) then [c.envelope] else []
  {
    assert Front(p.published + [c.envelope]) == p.published && p.published + [] == p.published;
    assert Front(p.log + [c.envelope]) == p.log && p.log + [] == p.log;
    assert Keyed(p.published, Some(k)) + [] == Keyed(p.published, Some(k));
    assert Keyed(p.log, Some(k)) + [] == Keyed(p.log, Some(k));
  }

  /** Once a key is marked, no later call publishes or logs an event with it. */
  lemma {:induction false} MarkedIsNeverDispatchedAgain(calls: seq<Call>, later: seq<Call>, k: Key)
    requires k in After(calls).marked
    ensures k in After(calls + later).marked
    ensures Keyed(After(calls + later).published, Some(k)) == Keyed(After(calls).published, Some(k))
    ensures Keyed(After(calls + later).log, Some(k)) == Keyed(After(calls).log, Some(k))
  {
    hide AfterCall, Keyed, Dispatches, Completes, Logs;
    if later == [] {
      assert calls + later == calls;
    } else {
      assert Front(calls + later) == calls + Front(later);
      MarkedIsNeverDispatchedAgain(calls, Front(later), k);
      var before := After(calls + Front(later));
      DeliveredStep(before, Last(later), k);
      assert Keyed(before.published, Some(k)) + [] == Keyed(before.published, Some(k));
      assert Keyed(before.log, Some(k)) + [] == Keyed(before.log, Some(k));
    }
  }

  /** The calls with a key, up to and including the first that completes. */
  function Attempts(calls: seq<Call>, k: Key): seq<Call> {
    if calls == [] then []
    else
      var before := Attempts(Front(calls), k);
      if Last(calls).envelope.key != Some(k) || (before != [] && Completes(Last(before))) then before
      else before + [Last(calls)]
  }

  function Dispatched(calls: seq<Call>): seq<Envelope> {
    if calls == [] then []
    else Dispatched(Front(calls)) + if Dispatches(Last(calls)) then [Last(calls).envelope] else []
  }

  function Logged(calls: seq<Call>): seq<Envelope> {
    if calls == [] then [] else Logged(Front(calls)) + if Logs(Last(calls)) then [Last(calls).envelope] else []
  }

  predicate Settled(attempts: seq<Call>) {
    attempts != [] && Completes(Last(attempts))
  }

  lemma AttemptsStep(calls: seq<Call>, k: Key)
    requires calls != []
    ensures
      var before, after, c := Attempts(Front(calls), k), Attempts(calls, k), Last(calls);
      var taken := c.envelope.key == Some(k) && !Settled(before);
      && Dispatched(after) == Dispatched(before) + (if taken && Dispatches(c) then [c.envelope] else [])
      && Logged(after) == Logged(before) + (if taken && Logs(c) then [c.envelope] else [])
      && (Settled(after) <==> Settled(before) || (taken && Completes(c)))
  {
    hide Dispatches, Completes, Logs;
    var before := Attempts(Front(calls), k);
    assert Front(before + [Last(calls)]) == before;
    assert Dispatched(before) + [] == Dispatched(before) && Logged(before) + [] == Logged(before);
  }

  /** How often a key is delivered and logged under faults, exactly: by each attempt that reached the handlers, or
      the log, up to the first attempt that ran to its end, which marks it. */
  lemma {:induction false} DeliveriesAreAttempts(calls: seq<Call>, k: Key)
    ensures Keyed(After(calls).published, Some(k)) == Dispatched(Attempts(calls, k))
    ensures Keyed(After(calls).log, Some(k)) == Logged(Attempts(calls, k))
    ensures k in After(calls).marked <==> Settled(Attempts(calls, k))
  {
    if calls != [] {
      hide AfterCall, Keyed, Dispatches, Completes, Logs, Dispatched, Logged, Attempts, Settled;
      DeliveriesAreAttempts(Front(calls), k);
      DeliveredStep(After(Front(calls)), Last(calls), k);
      AttemptsStep(calls, k);
    }
  }
}
