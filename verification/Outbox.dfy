/** The message outbox: events and the projections they refresh, each with a lease and
    a fencing token of its own, coalescing, retries and dead letters. */
module Outbox {
  import opened Common
  import opened Schema

  datatype EventState = Pending | LeasedOut | Delivered | RetryLater | DeadLetter

  /** `projectionToken` is the projection's token at this event's last acquisition. */
  datatype Event = Event(key: nat, projection: nat, state: EventState, attempts: nat, availableAt: nat,
                         lease: Option<Lease>, token: nat, projectionToken: nat)

  /** A message to keep up to date. `gated` ones wait for a feature gate; an `orderDm`
      is the one summary a customer is sent for an order. */
  datatype Projection = Projection(key: nat, gated: bool, orderDm: Option<nat>, desired: nat, delivered: nat,
                                   message: Option<nat>, lease: Option<Lease>, token: nat)

  datatype LetterState = Unhandled | Replaying | Resolved

  datatype Letter = Letter(state: LetterState, replay: Option<nat>)

  /** Rows are in creation order. `attemptedDms` are the orders whose summary has been
      claimed for sending. */
  datatype Mail = Mail(clock: nat, events: seq<Event>, projections: seq<Projection>, letters: map<nat, Letter>,
                       attemptedDms: set<nat>)

  const EmptyMail := Mail(0, [], [], map[], {})

  /** What a worker holds after acquiring: the event, its own id, the event's token. */
  datatype Delivery = Delivery(event: nat, holder: WorkerId, token: nat)

  const Backoff := [1, 5, 15, 60, 300, 900]

  // ---------------------------------------------------------------- enqueue

  /** The projection with this key, or the number of projections when there is none. */
  function FindProjection(ps: seq<Projection>, key: nat): (i: nat)
    ensures i <= |ps| && (i < |ps| ==> ps[i].key == key) && forall k | 0 <= k < i :: ps[k].key != key
  {
    if ps == [] then 0 else if ps[0].key == key then 0 else 1 + FindProjection(ps[1..], key)
  }

  predicate HasEvent(es: seq<Event>, key: nat) {
    exists k | 0 <= k < |es| :: es[k].key == key
  }

  function NewEvent(key: nat, projection: nat, availableAt: nat): Event {
    Event(key, projection, Pending, 0, availableAt, None, 0, 0)
  }

  /** An existing projection wants one version more; an event that is already recorded
      for the same change is not recorded again. */
  function Enqueue(m: Mail, projectionKey: nat, gated: bool, orderDm: Option<nat>, eventKey: nat, notBefore: nat): Mail {
    var i := FindProjection(m.projections, projectionKey);
    var projections := if i < |m.projections| then m.projections[i := m.projections[i].(desired := m.projections[i].desired + 1)]
                       else m.projections + [Projection(projectionKey, gated, orderDm, 1, 0, None, None, 0)];
    m.(projections := projections,
       events := if HasEvent(m.events, eventKey) then m.events else m.events + [NewEvent(eventKey, i, notBefore)])
  }

  // ---------------------------------------------------------------- acquire

  predicate Free(lease: Option<Lease>, now: nat) {
    lease.None? || lease.value.expires <= now
  }

  predicate Candidate(m: Mail, gateOpen: bool, e: nat) {
    && e < |m.events| && m.events[e].projection < |m.projections|
    && (m.projections[m.events[e].projection].gated ==> gateOpen)
    && ((m.events[e].state in {Pending, RetryLater} && m.events[e].availableAt <= m.clock)
        || (m.events[e].state == LeasedOut && m.events[e].lease.Some? && m.events[e].lease.value.expires <= m.clock))
    && Free(m.projections[m.events[e].projection].lease, m.clock)
  }

  /** Both leases are taken and both tokens go up; the event keeps the projection's.
      Rows that other transactions have locked are skipped, so any candidate may be
      the one. */
  function Acquire(m: Mail, gateOpen: bool, e: nat, holder: WorkerId, ttl: nat): Outcome<Mail> {
    if !Candidate(m, gateOpen, e) then Err(NotFound)
    else
      var x, p := m.events[e], m.projections[m.events[e].projection];
      var lease := Some(Lease(holder, m.clock + ttl));
      Ok(m.(events := m.events[e := x.(state := LeasedOut, lease := lease, token := x.token + 1, attempts := x.attempts + 1,
                                       projectionToken := p.token + 1)],
            projections := m.projections[x.projection := p.(lease := lease, token := p.token + 1)]))
  }

  // ---------------------------------------------------------------- acknowledge

  predicate HoldsEvent(m: Mail, d: Delivery) {
    && d.event < |m.events| && m.events[d.event].token == d.token && m.events[d.event].lease.Some?
    && m.events[d.event].lease.value.owner == d.holder && m.events[d.event].lease.value.expires > m.clock
  }

  predicate HoldsProjection(m: Mail, d: Delivery)
    requires d.event < |m.events|
  {
    var x := m.events[d.event];
    && x.projection < |m.projections| && m.projections[x.projection].token == x.projectionToken
    && m.projections[x.projection].lease.Some? && m.projections[x.projection].lease.value.owner == d.holder
    && m.projections[x.projection].lease.value.expires > m.clock
  }

  predicate Owns(m: Mail, d: Delivery) {
    HoldsEvent(m, d) && HoldsProjection(m, d)
  }

  /** Waiting events of the same projection are covered by this delivery. */
  function Coalesced(x: Event, projection: nat): Event {
    if x.projection == projection && x.state in {Pending, RetryLater} then x.(state := Delivered, lease := None) else x
  }

  function Coalesce(es: seq<Event>, projection: nat): seq<Event> {
    seq(|es|, k requires 0 <= k < |es| => Coalesced(es[k], projection))
  }

  /** A delivered replay resolves the letter it replays. */
  function Resolve(letters: map<nat, Letter>, e: nat): map<nat, Letter> {
    map l | l in letters ::
      if letters[l].state == Replaying && letters[l].replay == Some(e) then letters[l].(state := Resolved) else letters[l]
  }

  function Record(m: Mail, d: Delivery, message: Option<nat>): Outcome<Mail> {
    if !HoldsEvent(m, d) || !HoldsProjection(m, d) then Err(FencingLost)
    else
      var x := m.events[d.event];
      var p := m.projections[x.projection];
      Ok(m.(projections := m.projections[x.projection :=
                p.(message := if message.Some? then message else p.message, delivered := p.desired, lease := None)],
            events := Coalesce(m.events[d.event := x.(state := Delivered, lease := None)], x.projection),
            letters := Resolve(m.letters, d.event)))
  }

  function Renew(m: Mail, d: Delivery, ttl: nat): Outcome<Mail> {
    if !HoldsEvent(m, d) || m.events[d.event].state != LeasedOut || !HoldsProjection(m, d) then Err(FencingLost)
    else
      var x := m.events[d.event];
      var lease := Some(Lease(d.holder, m.clock + ttl));
      Ok(m.(projections := m.projections[x.projection := m.projections[x.projection].(lease := lease)],
            events := m.events[d.event := x.(lease := lease)]))
  }

  // ---------------------------------------------------------------- fail

  /** What an error of the messaging service says about the failure. */
  datatype Failure = Failure(forbidden: bool, missing: bool, retryAfter: nat)

  /** The delay is the attempt's backoff, from the last step on always the last one,
      unless the messaging service asks for more. */
  function RetryDelay(attempts: nat, f: Failure): (seconds: nat)
    ensures forall k | 0 <= k < |Backoff| && (attempts == k + 1 || (k == |Backoff| - 1 && attempts > |Backoff|)) ::
              seconds >= Backoff[k] && seconds in {Backoff[k], f.retryAfter}
    ensures seconds >= f.retryAfter && seconds >= 1
  {
    var configured := Backoff[if attempts == 0 then 0 else if attempts - 1 < |Backoff| then attempts - 1 else |Backoff| - 1];
    if configured < f.retryAfter then f.retryAfter else configured
  }

  function StateAfterFailure(p: Projection, attempts: nat, f: Failure): EventState {
    if p.orderDm.Some? then Delivered
    else if f.forbidden || attempts > |Backoff| then DeadLetter
    else RetryLater
  }

  /** Only the event's lease fences a failure; the projection is written if its lease is
      still this worker's. */
  function Fail(m: Mail, d: Delivery, f: Failure): Outcome<Mail> {
    if !HoldsEvent(m, d) || m.events[d.event].projection >= |m.projections| then Err(FencingLost)
    else
      var x := m.events[d.event];
      var p := m.projections[x.projection];
      var next := StateAfterFailure(p, x.attempts, f);
      Ok(m.(events := m.events[d.event := x.(state := next, availableAt := m.clock + RetryDelay(x.attempts, f), lease := None)],
            projections := if HoldsProjection(m, d)
                           then m.projections[x.projection := p.(message := if f.missing then None else p.message, lease := None)]
                           else m.projections,
            letters := if next == DeadLetter && d.event !in m.letters then m.letters[d.event := Letter(Unhandled, None)]
                       else m.letters))
  }

  /** `claimOrderDmAttempt`: the summary of an order may be attempted once. */
  function ClaimDm(m: Mail, d: Delivery): Outcome<Mail> {
    if !HoldsEvent(m, d) || m.events[d.event].state != LeasedOut || m.events[d.event].projection >= |m.projections| then Err(FencingLost)
    else
      var p := m.projections[m.events[d.event].projection];
      if p.orderDm.None? || p.orderDm.value in m.attemptedDms then Err(StaleState)
      else Ok(m.(attemptedDms := m.attemptedDms + {p.orderDm.value}))
  }

  /** An administrator replays a dead letter as a new event for the same projection. */
  function Replay(m: Mail, e: nat, eventKey: nat): Outcome<Mail> {
    if e !in m.letters || m.letters[e].state != Unhandled || e >= |m.events| || HasEvent(m.events, eventKey) then Err(StaleState)
    else
      Ok(m.(events := m.events + [NewEvent(eventKey, m.events[e].projection, m.clock)],
            letters := m.letters[e := Letter(Replaying, Some(|m.events|))]))
  }

  // ---------------------------------------------------------------- the machine

  datatype Step =
    | Tick(seconds: nat)
    | Put(projectionKey: nat, gated: bool, orderDm: Option<nat>, eventKey: nat, notBefore: nat)
    | Take(gateOpen: bool, event: nat, holder: WorkerId, ttl: nat)
    | Ack(delivery: Delivery, message: Option<nat>)
    | Extend(delivery: Delivery, ttl: nat)
    | Nack(delivery: Delivery, failure: Failure)
    | Claim(delivery: Delivery)
    | ReplayLetter(event: nat, eventKey: nat)

  function Try(m: Mail, step: Step): Outcome<Mail> {
    match step
    case Tick(n) => Ok(m.(clock := m.clock + n))
    case Put(projectionKey, gated, orderDm, eventKey, notBefore) =>
      Ok(Enqueue(m, projectionKey, gated, orderDm, eventKey, notBefore))
    case Take(gateOpen, e, holder, ttl) => Acquire(m, gateOpen, e, holder, ttl)
    case Ack(d, message) => Record(m, d, message)
    case Extend(d, ttl) => Renew(m, d, ttl)
    case Nack(d, f) => Fail(m, d, f)
    case Claim(d) => ClaimDm(m, d)
    case ReplayLetter(e, eventKey) => Replay(m, e, eventKey)
  }

  function Apply(m: Mail, step: Step): Mail {
    Settled(Try(m, step), m)
  }

  function Run(m: Mail, steps: seq<Step>): Mail
    decreases |steps|
  {
    if steps == [] then m else Run(Apply(m, steps[0]), steps[1..])
  }
}
