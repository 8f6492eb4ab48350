/** Safety of the outbox over whole runs. */
module OutboxLaws {
  import opened Common
  import opened Schema
  import opened Outbox

  /** One event: it names a projection; its attempts are its acquisitions; it has a
      lease exactly while it is held; the projection token it carries was issued; a
      waiting one may still be tried and a dead one has its letter. */
  predicate EventOk(m: Mail, e: nat) {
    e < |m.events| ==>
      var x := m.events[e];
      && x.projection < |m.projections|
      && x.attempts == x.token && (x.lease.Some? <==> x.state == LeasedOut)
      && x.projectionToken <= m.projections[x.projection].token && (x.projectionToken == 0 <==> x.token == 0)
      && (x.state == RetryLater ==> x.attempts <= |Backoff|)
      && (x.state == DeadLetter ==> e in m.letters)
  }

  predicate ProjectionOk(m: Mail, p: nat) {
    p < |m.projections| ==> m.projections[p].delivered <= m.projections[p].desired
  }

  /** No two acquisitions of one projection share a token. */
  predicate TokensDiffer(m: Mail, e: nat, g: nat) {
    (e < |m.events| && g < |m.events| && e != g && m.events[e].projection == m.events[g].projection
     && m.events[e].projectionToken == m.events[g].projectionToken) ==> m.events[e].projectionToken == 0
  }

  predicate MailAt(m: Mail, e: nat, g: nat) {
    EventOk(m, e) && ProjectionOk(m, e) && TokensDiffer(m, e, g)
  }

  ghost predicate MailOk(m: Mail) {
    forall e: nat, g: nat :: MailAt(m, e, g)
  }

  /** What no step undoes: tokens and delivered versions never go down, and a token
      that stays names the same acquisition. */
  predicate KeptAt(m: Mail, m': Mail, k: nat) {
    && m.clock <= m'.clock && m.attemptedDms <= m'.attemptedDms
    && (k < |m.events| ==>
          && k < |m'.events| && m'.events[k].projection == m.events[k].projection && m.events[k].token <= m'.events[k].token
          && (m'.events[k].token == m.events[k].token ==> m'.events[k].projectionToken == m.events[k].projectionToken))
    && (k < |m.projections| ==>
          && k < |m'.projections| && m.projections[k].token <= m'.projections[k].token
          && m.projections[k].delivered <= m'.projections[k].delivered
          && m.projections[k].desired <= m'.projections[k].desired
          && m'.projections[k].orderDm == m.projections[k].orderDm)
  }

  ghost predicate Kept(m: Mail, m': Mail) {
    forall k: nat :: KeptAt(m, m', k)
  }

  lemma EnqueueKeepsAt(m: Mail, step: Step, e: nat, g: nat)
    requires MailOk(m) && step.Put?
    ensures MailAt(Apply(m, step), e, g)
  {
    assert MailAt(m, e, g) && MailAt(m, g, e);
  }

  lemma AcquireKeepsAt(m: Mail, step: Step, e: nat, g: nat)
    requires MailOk(m) && step.Take?
    ensures MailAt(Apply(m, step), e, g)
  {
    assert MailAt(m, e, g) && MailAt(m, g, e);
  }

  lemma RecordKeepsAt(m: Mail, step: Step, e: nat, g: nat)
    requires MailOk(m) && step.Ack?
    ensures MailAt(Apply(m, step), e, g)
  {
    assert MailAt(m, e, g) && MailAt(m, g, e);
  }

  lemma FailKeepsAt(m: Mail, step: Step, e: nat, g: nat)
    requires MailOk(m) && step.Nack?
    ensures MailAt(Apply(m, step), e, g)
  {
    assert MailAt(m, e, g) && MailAt(m, g, e);
  }

  lemma ReplayKeepsAt(m: Mail, step: Step, e: nat, g: nat)
    requires MailOk(m) && step.ReplayLetter?
    ensures MailAt(Apply(m, step), e, g)
  {
    assert MailAt(m, e, g) && MailAt(m, g, e) && MailAt(m, step.event, e);
  }

  lemma StepKeepsAt(m: Mail, step: Step, e: nat, g: nat)
    requires MailOk(m)
    ensures MailAt(Apply(m, step), e, g)
  {
    if step.Put? { EnqueueKeepsAt(m, step, e, g); }
    else if step.Take? { AcquireKeepsAt(m, step, e, g); }
    else if step.Ack? { RecordKeepsAt(m, step, e, g); }
    else if step.Nack? { FailKeepsAt(m, step, e, g); }
    else if step.ReplayLetter? { ReplayKeepsAt(m, step, e, g); }
    else { assert MailAt(m, e, g); }
  }

  lemma StepKeptAt(m: Mail, step: Step, k: nat)
    requires MailOk(m)
    ensures KeptAt(m, Apply(m, step), k)
  {
    assert MailAt(m, k, k);
  }

  lemma StepKeeps(m: Mail, step: Step)
    requires MailOk(m)
    ensures MailOk(Apply(m, step)) && Kept(m, Apply(m, step))
  {
    var m' := Apply(m, step);
    forall e: nat, g: nat ensures MailAt(m', e, g) { StepKeepsAt(m, step, e, g); }
    forall k: nat ensures KeptAt(m, m', k) { StepKeptAt(m, step, k); }
  }

  lemma KeptTransitive(a: Mail, b: Mail, c: Mail)
    requires Kept(a, b) && Kept(b, c)
    ensures Kept(a, c)
  {
    forall k: nat ensures KeptAt(a, c, k) { assert KeptAt(a, b, k) && KeptAt(b, c, k); }
  }

  /** In every run from an empty outbox, and in particular: delivered versions never
      exceed desired ones and never go down, and projection tokens stay distinct. */
  lemma {:induction false} RunKeeps(m: Mail, steps: seq<Step>)
    requires MailOk(m)
    ensures MailOk(Run(m, steps)) && Kept(m, Run(m, steps))
    decreases |steps|
  {
    if steps == [] {
      forall k: nat ensures KeptAt(m, m, k) {}
    } else {
      StepKeeps(m, steps[0]);
      RunKeeps(Apply(m, steps[0]), steps[1..]);
      KeptTransitive(m, Apply(m, steps[0]), Run(m, steps));
    }
  }

  lemma EmptyMailOk()
    ensures MailOk(EmptyMail)
  {
    forall e: nat, g: nat ensures MailAt(EmptyMail, e, g) {}
  }

  /** What a reader of a reachable outbox may rely on. */
  lemma {:induction false} ReachableOutbox(steps: seq<Step>, e: nat, g: nat)
    ensures var m := Run(EmptyMail, steps);
            && (e < |m.events| && m.events[e].state == RetryLater ==> m.events[e].attempts <= 6)
            && (e < |m.events| && m.events[e].state == DeadLetter ==> e in m.letters)
            && (e < |m.projections| ==> m.projections[e].delivered <= m.projections[e].desired)
            && TokensDiffer(m, e, g)
  {
    EmptyMailOk();
    RunKeeps(EmptyMail, steps);
    assert MailAt(Run(EmptyMail, steps), e, g);
  }

  // ---------------------------------------------------------------- fencing

  /** Somebody has acquired the event again, or the projection through another event. */
  predicate Stale(m: Mail, d: Delivery) {
    d.event < |m.events|
    && (m.events[d.event].token > d.token
        || (m.events[d.event].projection < |m.projections| && m.events[d.event].token == d.token
            && m.events[d.event].projectionToken < m.projections[m.events[d.event].projection].token))
  }

  predicate Acknowledges(step: Step, d: Delivery) {
    (step.Ack? && step.delivery == d) || (step.Extend? && step.delivery == d)
  }

  /** An older holder's acknowledgement or renewal is refused for ever. */
  lemma {:induction false} StaleRefusedForever(m: Mail, d: Delivery, steps: seq<Step>, step: Step)
    requires MailOk(m) && Stale(m, d) && Acknowledges(step, d)
    ensures Stale(Run(m, steps), d) && Try(Run(m, steps), step).Err?
  {
    RunKeeps(m, steps);
    assert KeptAt(m, Run(m, steps), d.event);
    assert KeptAt(m, Run(m, steps), m.events[d.event].projection);
  }

  /** Each acquisition makes every other holder of the event or of its projection stale. */
  lemma AcquireSupersedes(m: Mail, gateOpen: bool, e: nat, holder: WorkerId, ttl: nat, d: Delivery)
    requires MailOk(m) && Acquire(m, gateOpen, e, holder, ttl).Ok?
    requires d.event < |m.events| && d.token <= m.events[d.event].token
    requires m.events[d.event].projection == m.events[e].projection
    ensures Stale(Acquire(m, gateOpen, e, holder, ttl).value, d)
  {
    assert MailAt(m, d.event, e);
    if d.event != e { assert MailAt(m, e, d.event); }
  }

  /** Only the latest acquirer of a projection ever sets its message or its delivered
      version. */
  lemma OnlyLatestWrites(m: Mail, step: Step, p: nat)
    requires MailOk(m) && p < |m.projections|
    requires var m' := Apply(m, step);
             m'.projections[p].message != m.projections[p].message || m'.projections[p].delivered != m.projections[p].delivered
    ensures (step.Ack? || step.Nack?) && Owns(m, step.delivery)
    ensures m.events[step.delivery.event].projection == p
    ensures m.events[step.delivery.event].projectionToken == m.projections[p].token
  {}

  // ---------------------------------------------------------------- coalescing

  /** A delivery covers every waiting event of its projection, and touches no event of
      another one. */
  lemma DeliveryCoalesces(m: Mail, d: Delivery, message: Option<nat>, k: nat)
    requires Record(m, d, message).Ok? && k < |m.events|
    ensures var m' := Record(m, d, message).value;
            var p := m.events[d.event].projection;
            && |m'.events| == |m.events|
            && (m.events[k].projection == p ==> m'.events[k].state !in {Pending, RetryLater})
            && (m.events[k].projection != p ==> m'.events[k] == m.events[k])
            && m'.projections[p].delivered == m.projections[p].desired
  {}

  /** A replayed letter is resolved in exactly one way: its replay event is acknowledged
      itself. A replay that another delivery covered leaves its letter open. */
  lemma LetterResolvedIff(m: Mail, step: Step, l: nat)
    requires MailOk(m) && l in m.letters && m.letters[l].state == Replaying
    ensures l in Apply(m, step).letters
    ensures Apply(m, step).letters[l].state == Resolved <==>
              step.Ack? && Try(m, step).Ok? && m.letters[l].replay == Some(step.delivery.event)
  {}

  predicate CoveredReplay(m: Mail, l: nat) {
    && l in m.letters && m.letters[l].state == Replaying && m.letters[l].replay.Some?
    && m.letters[l].replay.value < |m.events| && m.events[m.letters[l].replay.value].state == Delivered
  }

  /** Such a letter stays open for ever. */
  lemma {:induction false} CoveredReplayStaysOpen(m: Mail, steps: seq<Step>, l: nat)
    requires MailOk(m) && CoveredReplay(m, l)
    ensures CoveredReplay(Run(m, steps), l)
    decreases |steps|
  {
    if steps != [] {
      assert MailAt(m, m.letters[l].replay.value, 0);
      StepKeeps(m, steps[0]);
      CoveredReplayStaysOpen(Apply(m, steps[0]), steps[1..], l);
    }
  }

  /** A letter is replayed, and a later change of the same message is delivered first. */
  lemma CoveredReplayReachable()
    ensures var dead := Apply(Apply(Apply(EmptyMail, Put(0, false, None, 0, 0)), Take(false, 0, 9, 30)),
                              Nack(Delivery(0, 9, 1), Failure(true, false, 0)));
            var both := Apply(Apply(dead, ReplayLetter(0, 1)), Put(0, false, None, 2, 0));
            var done := Apply(Apply(both, Take(false, 2, 9, 30)), Ack(Delivery(2, 9, 1), Some(5)));
            0 in dead.letters && dead.letters[0].state == Unhandled && CoveredReplay(done, 0)
  {
    var dead := DeadFirst();
    assert dead.letters == map[0 := Letter(Unhandled, None)];
    var both := Apply(Apply(dead, ReplayLetter(0, 1)), Put(0, false, None, 2, 0));
    assert both.events[1..] == [NewEvent(1, 0, 0), NewEvent(2, 0, 0)];
    assert both.events[1] == NewEvent(1, 0, 0) && both.events[2] == NewEvent(2, 0, 0);
    assert both.projections == [Projection(0, false, None, 2, 0, None, None, 1)];
  }

  /** The first event is dead after one forbidden attempt. */
  lemma DeadFirst() returns (dead: Mail)
    ensures dead == Apply(Apply(Apply(EmptyMail, Put(0, false, None, 0, 0)), Take(false, 0, 9, 30)),
                          Nack(Delivery(0, 9, 1), Failure(true, false, 0)))
    ensures dead.clock == 0 && |dead.events| == 1 && dead.events[0].key == 0 && dead.events[0].projection == 0
    ensures dead.events[0].state == DeadLetter
    ensures dead.projections == [Projection(0, false, None, 1, 0, None, None, 1)]
    ensures dead.letters == map[0 := Letter(Unhandled, None)]
  {
    var taken := Apply(Apply(EmptyMail, Put(0, false, None, 0, 0)), Take(false, 0, 9, 30));
    assert taken.events == [Event(0, 0, LeasedOut, 1, 0, Some(Lease(9, 30)), 1, 1)];
    assert taken.projections == [Projection(0, false, None, 1, 0, None, Some(Lease(9, 30)), 1)];
    dead := Apply(taken, Nack(Delivery(0, 9, 1), Failure(true, false, 0)));
    assert dead.projections == [Projection(0, false, None, 1, 0, None, None, 1)];
  }

  // ---------------------------------------------------------------- one summary per order

  predicate ClaimsDm(m: Mail, step: Step, order: nat) {
    step.Claim? && Try(m, step).Ok? && m.projections[m.events[step.delivery.event].projection].orderDm == Some(order)
  }

  function DmClaims(m: Mail, steps: seq<Step>, order: nat): nat
    decreases |steps|
  {
    if steps == [] then 0
    else (if ClaimsDm(m, steps[0], order) then 1 else 0) + DmClaims(Apply(m, steps[0]), steps[1..], order)
  }

  lemma {:induction false} ClaimedOnce(m: Mail, steps: seq<Step>, order: nat)
    requires MailOk(m) && order in m.attemptedDms
    ensures DmClaims(m, steps, order) == 0
    decreases |steps|
  {
    if steps != [] {
      StepKeeps(m, steps[0]);
      assert KeptAt(m, Apply(m, steps[0]), 0);
      ClaimedOnce(Apply(m, steps[0]), steps[1..], order);
    }
  }

  /** The summary of an order is claimed for sending at most once in any run, however
      often its event is acquired again. */
  lemma {:induction false} AtMostOneSummary(m: Mail, steps: seq<Step>, order: nat)
    requires MailOk(m)
    ensures DmClaims(m, steps, order) <= 1
    decreases |steps|
  {
    if steps != [] {
      StepKeeps(m, steps[0]);
      if ClaimsDm(m, steps[0], order) { ClaimedOnce(Apply(m, steps[0]), steps[1..], order); }
      else { AtMostOneSummary(Apply(m, steps[0]), steps[1..], order); }
    }
  }
}
