/** The outbox as it runs: event and projection rows updated in place. */
module OutboxService {
  import opened Common
  import opened Schema
  import opened Outbox

  class OutboxTables {
    var clock: nat
    var events: seq<Event>
    var projections: seq<Projection>
    var letters: map<nat, Letter>
    var attemptedDms: set<nat>

    constructor ()
      ensures Read() == EmptyMail
    {
      clock, events, projections, letters, attemptedDms := 0, [], [], map[], {};
    }

    function Read(): Mail
      reads this
    {
      Mail(clock, events, projections, letters, attemptedDms)
    }

    /** Committed with the new rows, or refused and as before. */
    predicate Did(before: Mail, error: Option<Error>, o: Outcome<Mail>)
      reads this
    {
      Read() == Settled(o, before) && error == ErrorOf(o)
    }

    /** `enqueueProjection` */
    method Put(projectionKey: nat, gated: bool, orderDm: Option<nat>, eventKey: nat, notBefore: nat)
      modifies this`events, this`projections
      ensures Read() == Enqueue(old(Read()), projectionKey, gated, orderDm, eventKey, notBefore)
    {
      var i := FindProjection(projections, projectionKey);
      if i < |projections| {
        projections := projections[i := projections[i].(desired := projections[i].desired + 1)];
      } else {
        projections := projections + [Projection(projectionKey, gated, orderDm, 1, 0, None, None, 0)];
      }
      if !HasEvent(events, eventKey) { events := events + [NewEvent(eventKey, i, notBefore)]; }
    }

    /** `acquireDelivery`, for the row the query picked: the event first, then its
        projection, then the projection's token into the event. */
    method Take(gateOpen: bool, e: nat, holder: WorkerId, ttl: nat) returns (error: Option<Error>)
      modifies this`events, this`projections
      ensures Did(old(Read()), error, Acquire(old(Read()), gateOpen, e, holder, ttl))
    {
      if !Candidate(Read(), gateOpen, e) { return Some(NotFound); }
      var x, lease := events[e], Some(Lease(holder, clock + ttl));
      events := events[e := x.(state := LeasedOut, lease := lease, token := x.token + 1, attempts := x.attempts + 1)];
      var p := projections[x.projection];
      projections := projections[x.projection := p.(lease := lease, token := p.token + 1)];
      events := events[e := events[e].(projectionToken := p.token + 1)];
      error := None;
    }

    /** `recordDelivery`, its last UPDATE as a walk over the events. */
    method Deliver(d: Delivery, message: Option<nat>) returns (error: Option<Error>)
      modifies this`events, this`projections, this`letters
      ensures Did(old(Read()), error, Record(old(Read()), d, message))
    {
      if !HoldsEvent(Read(), d) || !HoldsProjection(Read(), d) { return Some(FencingLost); }
      var x := events[d.event];
      var p := projections[x.projection];
      projections := projections[x.projection :=
        p.(message := if message.Some? then message else p.message, delivered := p.desired, lease := None)];
      events := events[d.event := x.(state := Delivered, lease := None)];
      ghost var waiting, refreshed := events, projections;
      var k := 0;
      while k < |events|
        invariant 0 <= k <= |events| == |waiting| && projections == refreshed && letters == old(letters)
        invariant forall j | 0 <= j < |events| :: events[j] == if j < k then Coalesced(waiting[j], x.projection) else waiting[j]
      {
        if events[k].projection == x.projection && events[k].state in {Pending, RetryLater} {
          events := events[k := events[k].(state := Delivered, lease := None)];
        }
        k := k + 1;
      }
      assert events == Coalesce(waiting, x.projection);
      letters := Resolve(letters, d.event);
      error := None;
    }

    /** `renewDeliveryLease` */
    method Extend(d: Delivery, ttl: nat) returns (error: Option<Error>)
      modifies this`events, this`projections
      ensures Did(old(Read()), error, Renew(old(Read()), d, ttl))
    {
      if !HoldsEvent(Read(), d) || events[d.event].state != LeasedOut || !HoldsProjection(Read(), d) { return Some(FencingLost); }
      var x, lease := events[d.event], Some(Lease(d.holder, clock + ttl));
      projections := projections[x.projection := projections[x.projection].(lease := lease)];
      events := events[d.event := x.(lease := lease)];
      error := None;
    }

    /** `failDelivery` */
    method GiveUp(d: Delivery, f: Failure) returns (error: Option<Error>)
      modifies this`events, this`projections, this`letters
      ensures Did(old(Read()), error, Fail(old(Read()), d, f))
    {
      if !HoldsEvent(Read(), d) || events[d.event].projection >= |projections| { return Some(FencingLost); }
      var x := events[d.event];
      var p, mine := projections[x.projection], HoldsProjection(Read(), d);
      var next := StateAfterFailure(p, x.attempts, f);
      events := events[d.event := x.(state := next, availableAt := clock + RetryDelay(x.attempts, f), lease := None)];
      if mine {
        projections := projections[x.projection := p.(message := if f.missing then None else p.message, lease := None)];
      }
      if next == DeadLetter && d.event !in letters { letters := letters[d.event := Letter(Unhandled, None)]; }
      error := None;
    }

    /** `claimOrderDmAttempt` */
    method AttemptDm(d: Delivery) returns (error: Option<Error>)
      modifies this`attemptedDms
      ensures Did(old(Read()), error, ClaimDm(old(Read()), d))
    {
      if !HoldsEvent(Read(), d) || events[d.event].state != LeasedOut || events[d.event].projection >= |projections| {
        return Some(FencingLost);
      }
      var p := projections[events[d.event].projection];
      if p.orderDm.None? || p.orderDm.value in attemptedDms { return Some(StaleState); }
      attemptedDms := attemptedDms + {p.orderDm.value};
      error := None;
    }
  }
}
