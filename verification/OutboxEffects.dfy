/** What each transaction of the outbox is admitted for and what it leaves, with states and
    numbers written out, and how long a delivery is its worker's. */
module OutboxEffects {
  import opened Common
  import opened Schema
  import opened Outbox
  import opened OutboxLaws

  // ---------------------------------------------------------------- holding a delivery

  /** The event is the worker's: its token, its name, and time left. */
  predicate EventMine(m: Mail, d: Delivery) {
    && d.event < |m.events| && m.events[d.event].token == d.token && m.events[d.event].lease.Some?
    && m.events[d.event].lease.value.owner == d.holder && m.clock < m.events[d.event].lease.value.expires
  }

  /** So is the projection the event refreshes, under the token the event got with it. */
  predicate BothMine(m: Mail, d: Delivery) {
    && EventMine(m, d)
    && var x := m.events[d.event];
    && x.projection < |m.projections| && m.projections[x.projection].token == x.projectionToken
    && m.projections[x.projection].lease.Some? && m.projections[x.projection].lease.value.owner == d.holder
    && m.clock < m.projections[x.projection].lease.value.expires
  }

  // ---------------------------------------------------------------- put

  predicate Recorded(m: Mail, eventKey: nat) {
    exists k | 0 <= k < |m.events| :: m.events[k].key == eventKey
  }

  /** A change of a known message asks for one version more, that of a new one for its first;
      its event waits until it may be sent, and is recorded once. */
  lemma ChangePut(m: Mail, i: nat, key: nat, gated: bool, orderDm: Option<nat>, eventKey: nat, notBefore: nat)
    requires i <= |m.projections| && forall k | 0 <= k < i :: m.projections[k].key != key
    requires i < |m.projections| ==> m.projections[i].key == key
    ensures var m' := Apply(m, Put(key, gated, orderDm, eventKey, notBefore));
            && m'.projections == (if i < |m.projections|
                                  then m.projections[i := m.projections[i].(desired := m.projections[i].desired + 1)]
                                  else m.projections + [Projection(key, gated, orderDm, 1, 0, None, None, 0)])
            && m'.events == (if Recorded(m, eventKey) then m.events
                             else m.events + [Event(eventKey, i, Pending, 0, notBefore, None, 0, 0)])
            && m' == m.(projections := m'.projections, events := m'.events)
  {
    assert FindProjection(m.projections, key) == i;
  }

  // ---------------------------------------------------------------- take, extend

  predicate Over(lease: Option<Lease>, now: nat) {
    lease.None? || lease.value.expires <= now
  }

  /** The event waits and is due, or its worker is gone. */
  predicate Ready(x: Event, now: nat) {
    || ((x.state == Pending || x.state == RetryLater) && x.availableAt <= now)
    || (x.state == LeasedOut && x.lease.Some? && x.lease.value.expires <= now)
  }

  /** An event is taken when it is ready, its message is not being refreshed by somebody else
      and does not wait for a closed gate; worker and time to live are the same for both, and
      both are the worker's if there is any time. */
  lemma EventTaken(m: Mail, gateOpen: bool, e: nat, holder: WorkerId, ttl: nat)
    ensures var o := Try(m, Take(gateOpen, e, holder, ttl));
            && (o.Ok? <==> e < |m.events| && Ready(m.events[e], m.clock)
                           && m.events[e].projection < |m.projections|
                           && (m.projections[m.events[e].projection].gated ==> gateOpen)
                           && Over(m.projections[m.events[e].projection].lease, m.clock))
            && (o.Ok? ==>
                  var x, i := m.events[e], m.events[e].projection;
                  var p, lease := m.projections[i], Some(Lease(holder, m.clock + ttl));
                  && o.value == m.(events := m.events[e := x.(state := LeasedOut, lease := lease, token := x.token + 1,
                                                              attempts := x.attempts + 1, projectionToken := p.token + 1)],
                                   projections := m.projections[i := p.(lease := lease, token := p.token + 1)])
                  && (BothMine(o.value, Delivery(e, holder, x.token + 1)) <==> ttl > 0))
  {}

  /** A heartbeat of the one who holds both, and of nobody else, moves the end of both leases. */
  lemma LeasesExtended(m: Mail, d: Delivery, ttl: nat)
    ensures var o := Try(m, Extend(d, ttl));
            && (o.Ok? <==> BothMine(m, d) && m.events[d.event].state == LeasedOut)
            && (o.Ok? ==>
                  var x, lease := m.events[d.event], Some(Lease(d.holder, m.clock + ttl));
                  && o.value == m.(events := m.events[d.event := x.(lease := lease)],
                                   projections := m.projections[x.projection := m.projections[x.projection].(lease := lease)])
                  && (BothMine(o.value, d) <==> ttl > 0))
  {}

  // ---------------------------------------------------------------- a delivery lasts

  /** The worker holds event and projection until this moment. */
  predicate BothUntil(m: Mail, d: Delivery, until: nat) {
    && d.event < |m.events| && m.events[d.event].token == d.token && m.events[d.event].state == LeasedOut
    && m.events[d.event].lease == Some(Lease(d.holder, until))
    && var x := m.events[d.event];
    && x.projection < |m.projections| && m.projections[x.projection].token == x.projectionToken
    && m.projections[x.projection].lease == Some(Lease(d.holder, until))
  }

  predicate About(step: Step, e: nat) {
    (step.Ack? || step.Extend? || step.Nack?) && step.delivery.event == e
  }

  /** While the lease runs no other acquisition, delivery or failure takes it away. */
  lemma DeliverySurvives(m: Mail, step: Step, d: Delivery, until: nat)
    requires MailOk(m) && BothUntil(m, d, until) && m.clock < until && d.token > 0 && !About(step, d.event)
    ensures BothUntil(Apply(m, step), d, until)
  {
    assert MailAt(m, d.event, d.event);
    if step.Ack? || step.Extend? || step.Nack? { assert MailAt(m, d.event, step.delivery.event); }
  }

  predicate LeftAlone(steps: seq<Step>, e: nat) {
    forall k | 0 <= k < |steps| :: !About(steps[k], e)
  }

  /** Whatever every other worker does, a delivery is its worker's to the end of its lease. */
  lemma {:induction false} DeliveryLasts(m: Mail, steps: seq<Step>, d: Delivery, until: nat)
    requires MailOk(m) && BothUntil(m, d, until) && d.token > 0 && LeftAlone(steps, d.event) && Run(m, steps).clock < until
    ensures BothUntil(Run(m, steps), d, until) && BothMine(Run(m, steps), d)
    decreases |steps|
  {
    if steps != [] {
      var m1 := Apply(m, steps[0]);
      assert !About(steps[0], d.event);
      StepKeeps(m, steps[0]);
      RunKeeps(m1, steps[1..]);
      assert KeptAt(m, m1, 0) && KeptAt(m1, Run(m1, steps[1..]), 0);
      DeliverySurvives(m, steps[0], d, until);
      assert forall k | 0 <= k < |steps[1..]| :: steps[1..][k] == steps[k + 1];
      DeliveryLasts(m1, steps[1..], d, until);
    }
  }

  // ---------------------------------------------------------------- acknowledge

  /** What a delivery makes of one event. */
  predicate Covered(x: Event, x': Event, mine: bool, projection: nat) {
    x' == if mine || (x.projection == projection && (x.state == Pending || x.state == RetryLater))
          then x.(state := Delivered, lease := None) else x
  }

  /** Only the holder of both delivers. The message that was posted is remembered, and the old
      one where none was; the version delivered is the one asked for; both leases are given up;
      the event and everything that waits for the same message are delivered; the letter that
      waits for this event is resolved; nothing else changes. */
  lemma DeliveryRecorded(m: Mail, d: Delivery, message: Option<nat>)
    ensures var o := Try(m, Ack(d, message));
            && (o.Ok? <==> BothMine(m, d))
            && (o.Ok? ==>
                  var i := m.events[d.event].projection;
                  var p := m.projections[i];
                  && o.value.projections == m.projections[i := Projection(p.key, p.gated, p.orderDm, p.desired, p.desired,
                       match message case Some(posted) => Some(posted) case None => p.message, None, p.token)]
                  && |o.value.events| == |m.events|
                  && (forall k | 0 <= k < |m.events| :: Covered(m.events[k], o.value.events[k], k == d.event, i))
                  && o.value.letters.Keys == m.letters.Keys
                  && (forall l | l in m.letters ::
                        o.value.letters[l] == if m.letters[l] == Letter(Replaying, Some(d.event))
                                              then Letter(Resolved, Some(d.event)) else m.letters[l])
                  && o.value.clock == m.clock && o.value.attemptedDms == m.attemptedDms)
  {}

  // ---------------------------------------------------------------- fail

  /** Seconds until the next attempt after so many. */
  function Pause(attempts: nat): nat {
    if attempts <= 1 then 1 else if attempts == 2 then 5 else if attempts == 3 then 15
    else if attempts == 4 then 60 else if attempts == 5 then 300 else 900
  }

  /** A failed event is tried again up to six times, unless Discord forbids it; an order's
      summary is not tried again at all. */
  function StateAfter(p: Projection, attempts: nat, f: Failure): EventState {
    if p.orderDm.Some? then Delivered else if f.forbidden || attempts > 6 then DeadLetter else RetryLater
  }

  /** The holder of the event fails it. The projection is given up, and its message forgotten
      if Discord no longer has it, only if the worker holds that too; a dead event leaves a
      letter. */
  lemma DeliveryFailed(m: Mail, d: Delivery, f: Failure)
    ensures var o := Try(m, Nack(d, f));
            && (o.Ok? <==> EventMine(m, d) && m.events[d.event].projection < |m.projections|)
            && (o.Ok? ==>
                  var x, i := m.events[d.event], m.events[d.event].projection;
                  var p := m.projections[i];
                  var next, pause := StateAfter(p, x.attempts, f), Pause(x.attempts);
                  o.value == m.(
                    events := m.events[d.event := x.(state := next, lease := None,
                                                     availableAt := m.clock + (if pause < f.retryAfter then f.retryAfter else pause))],
                    projections := if !BothMine(m, d) then m.projections
                                   else if f.missing then m.projections[i := p.(message := None, lease := None)]
                                   else m.projections[i := p.(lease := None)],
                    letters := if next == DeadLetter && d.event !in m.letters then m.letters[d.event := Letter(Unhandled, None)]
                               else m.letters))
  {
    if EventMine(m, d) && m.events[d.event].projection < |m.projections| {
      PauseIsDelay(m.events[d.event].attempts, f);
    }
  }

  lemma PauseIsDelay(attempts: nat, f: Failure)
    ensures RetryDelay(attempts, f) == if Pause(attempts) < f.retryAfter then f.retryAfter else Pause(attempts)
  {
    assert Backoff == [1, 5, 15, 60, 300, 900];
  }

  // ---------------------------------------------------------------- summaries, letters

  /** An order's summary is claimed once, by the holder of its event. */
  lemma SummaryClaimed(m: Mail, d: Delivery)
    ensures var o := Try(m, Step.Claim(d));
            && (o.Ok? <==> EventMine(m, d) && m.events[d.event].state == LeasedOut
                           && m.events[d.event].projection < |m.projections|
                           && m.projections[m.events[d.event].projection].orderDm.Some?
                           && m.projections[m.events[d.event].projection].orderDm.value !in m.attemptedDms)
            && (o.Ok? ==> o.value == m.(attemptedDms := m.attemptedDms
                                                        + {m.projections[m.events[d.event].projection].orderDm.value}))
  {}

  /** A letter that nobody has handled is replayed as a new event for the same message, due
      now. */
  lemma LetterReplayed(m: Mail, e: nat, eventKey: nat)
    ensures var o := Try(m, ReplayLetter(e, eventKey));
            && (o.Ok? <==> e in m.letters && m.letters[e].state == Unhandled && e < |m.events| && !Recorded(m, eventKey))
            && (o.Ok? ==> o.value == m.(events := m.events + [Event(eventKey, m.events[e].projection, Pending, 0, m.clock, None, 0, 0)],
                                        letters := m.letters[e := Letter(Replaying, Some(|m.events|))]))
  {}
}
