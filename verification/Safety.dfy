/** Safety over whole runs: the invariant of every reachable state and what a run
    can never undo. */
module Safety {
  import opened Common
  import opened Ledger
  import opened Schema
  import opened Promotions
  import opened Wallet
  import opened Money
  import opened Settlement
  import opened WalletLaws
  import opened Runner
  import opened Recovery
  import opened Lockstep
  import opened Payments
  import opened Checkout
  import opened Machine
  import opened Frames
  import opened RunnerSteps
  import opened MoneySteps
  import opened PaymentSteps
  import opened CheckoutLaws

  // ---------------------------------------------------------------- the invariant

  lemma SessionStepsGood(s: Tables, step: Step)
    requires Inv(s) && Try(s, step).Ok?
    requires step.Tick? || step.StartSession? || step.Select? || step.Quote? || step.Confirm? || step.EndSessions?
    ensures Good(s, Try(s, step).value)
  {
    match step
    case Tick(n) => SessionStepGood(s, s.(clock := s.clock + n));
    case StartSession(x, row) => StartSessionGood(s, x, row);
    case Select(c, lines) => SelectGood(s, c, lines);
    case Quote(c, catalogue) => QuoteGood(s, c, catalogue);
    case Confirm(c, p, blocked, catalogue, ctx) => ConfirmGood(s, c, p, blocked, catalogue, ctx);
    case EndSessions => ExpireSessionsGood(s);
  }

  /** The steps that a worker makes under its claim. */
  lemma ClaimedStepsGood(s: Tables, step: Step)
    requires Inv(s) && Try(s, step).Ok?
    requires step.Heartbeat? || step.BeginRun? || step.BeginSettling? || step.Complete? || step.Checkpoint?
             || step.Prepare? || step.Mark? || step.ReportProgress?
    ensures Good(s, Try(s, step).value)
  {
    match step
    case Heartbeat(c, ttl) => RenewGood(s, c, ttl);
    case BeginRun(seen) => BeginRunGood(s, seen);
    case BeginSettling(seen) => BeginSettlingGood(s, seen);
    case Complete(seen) => CompleteGood(s, seen);
    case Checkpoint(c, delay) => CheckpointGood(s, c, delay);
    case Prepare(c, kind, baseline) => PrepareGood(s, c, kind, baseline);
    case ReportProgress(c, progress) => ProgressGood(s, c, progress);
    case Mark(c, k, status, evidence) => MarkGood(s, c, k, status, evidence);
  }

  lemma RunnerStepsGood(s: Tables, step: Step)
    requires Inv(s) && Try(s, step).Ok? && RunnerKind(step)
    ensures Good(s, Try(s, step).value)
  {
    match step
    case Dispatch(i, holder, ttl) => DispatchGood(s, i, holder, ttl);
    case FailItem(i) => FailItemGood(s, i);
    case ToReview(i) => ToReviewGood(s, i);
    case Materialize(o) => MaterializeGood(s, o);
    case ForceFailItem(i) => ForceFailGood(s, i);
    case OpenItemReview(i, reason, ownerOnly) => OpenItemReviewGood(s, i, reason, ownerOnly);
    case _ => ClaimedStepsGood(s, step);
  }

  lemma MoneyStepsGood(s: Tables, step: Step)
    requires Inv(s) && Try(s, step).Ok? && MoneyKind(step)
    ensures Good(s, Try(s, step).value)
  {
    match step
    case CaptureItem(c, ctx) => CaptureGood(s, c.job, Some(c), ctx);
    case ReleaseItem(i, terminal, fence, ctx) => ReleaseGood(s, i, terminal, fence, ctx);
    case Refund(i, reason, expected) => RefundGood(s, i, reason, expected);
    case Adjust(u, amount, reason, ctx) => AdjustGood(s, u, amount, reason, ctx);
    case Credit(t) => CreditGood(s, t);
    case Reverse(t, reason) => ReverseGood(s, t, reason);
    case Prune(users, cutoff, limit) => PruneGood(s, users, cutoff, limit);
    case Maintain => MaintainGood(s);
    case Resolve(d, reason, isOwner, expected, ctx) => ResolveGood(s, d, reason, isOwner, expected, ctx);
  }

  lemma PaymentStepsGood(s: Tables, step: Step)
    requires Inv(s) && Try(s, step).Ok? && PaymentKind(step)
    ensures Good(s, Try(s, step).value)
  {
    match step
    case Submit(u, voucher, blocked, receiver, promotion) => SubmitGood(s, u, voucher, blocked, receiver, promotion);
    case ClaimPayment(t, holder, ttl) => ClaimPaymentGood(s, t, holder, ttl);
    case RenewPay(c, ttl) => RenewPayGood(s, c, ttl);
    case RecordAttempt(c) => RecordAttemptGood(s, c);
    case MarkSent(c) => MarkSentGood(s, c);
    case Answer(c, r, delay) => AnswerGood(s, c, r, delay);
  }

  /** Every step of every worker keeps the invariant, settled reservations, tokens
      and confirmed sessions. */
  lemma StepGood(s: Tables, step: Step)
    requires Inv(s)
    ensures Good(s, Apply(s, step))
  {
    if Try(s, step).Err? { NothingChanged(s); }
    else if RunnerKind(step) { RunnerStepsGood(s, step); }
    else if MoneyKind(step) { MoneyStepsGood(s, step); }
    else if PaymentKind(step) { PaymentStepsGood(s, step); }
    else { SessionStepsGood(s, step); }
  }

  lemma {:induction false} RunGood(s: Tables, steps: seq<Step>)
    requires Inv(s)
    ensures Good(s, Run(s, steps))
    decreases |steps|
  {
    if steps == [] {
      NothingChanged(s);
    } else {
      StepGood(s, steps[0]);
      RunGood(Apply(s, steps[0]), steps[1..]);
      GoodTransitive(s, Apply(s, steps[0]), Run(s, steps));
    }
  }

  /** An empty shop with any admissible promotions. */
  function Opening(promotions: map<PromotionId, Promotion>): Tables {
    NoRows.(promotions := promotions)
  }

  lemma OpeningMoney(promotions: map<PromotionId, Promotion>)
    ensures MoneyOk(Opening(promotions))
  {
    var s := Opening(promotions);
    forall u: UserId, q: Purpose, i: nat ensures MoneyAt(s, u, q, i) {
      assert History(BookOf(s.bank, u)) == [] && !Due(s, u, q);
    }
  }

  lemma OpeningInv(promotions: map<PromotionId, Promotion>)
    requires TiersOk(promotions)
    ensures Inv(Opening(promotions))
  {
    var s := Opening(promotions);
    OpeningMoney(promotions);
    forall k: nat ensures RowsOk(s, k) {}
    forall k: nat ensures LockstepAt(s, k) {}
    forall k: nat ensures PaymentAt(s, k) {}
    forall k: nat ensures RegistryAt(s, k) {}
    assert BonusOk(s);
    FromAspects(s);
  }

  /** Whatever steps are interleaved in whatever order, crashes included. */
  lemma {:induction false} ReachableInv(promotions: map<PromotionId, Promotion>, steps: seq<Step>)
    requires TiersOk(promotions)
    ensures Inv(Run(Opening(promotions), steps))
  {
    OpeningInv(promotions);
    RunGood(Opening(promotions), steps);
  }

  // ---------------------------------------------------------------- fencing

  /** The step is one that a worker makes under its claim on a job. */
  predicate Presents(step: Step, c: Claim) {
    match step
    case Heartbeat(d, _) => d == c
    case BeginRun(seen) => seen.claim == c
    case BeginSettling(seen) => seen.claim == c
    case Complete(seen) => seen.claim == c
    case Checkpoint(d, _) => d == c
    case Prepare(d, _, _) => d == c
    case Mark(d, _, _, _) => d == c
    case ReportProgress(d, _) => d == c
    case CaptureItem(d, _) => d == c
    case ReleaseItem(_, _, fence, _) => fence == Some(c)
    case _ => false
  }

  /** A later acquisition exists. */
  predicate Superseded(s: Tables, c: Claim) {
    c.job in s.jobs && s.jobs[c.job].token > c.token
  }

  lemma NotOwnerRefused(s: Tables, c: Claim, step: Step)
    requires !Owns(s, c) && Presents(step, c)
    ensures Try(s, step).Err? && Apply(s, step) == s
  {}

  lemma SupersededStays(s: Tables, s': Tables, c: Claim)
    requires Kept(s, s') && Superseded(s, c)
    ensures Superseded(s', c) && !Owns(s', c)
  {
    assert KeptAt(s, s', c.job);
  }

  /** Once a job has been acquired again, no fenced operation of an earlier claim
      succeeds in any state that any run reaches. */
  lemma {:induction false} StaleClaimRefusedForever(s: Tables, c: Claim, steps: seq<Step>, step: Step)
    requires Inv(s) && Superseded(s, c) && Presents(step, c)
    ensures Try(Run(s, steps), step).Err? && Apply(Run(s, steps), step) == Run(s, steps)
  {
    RunGood(s, steps);
    SupersededStays(s, Run(s, steps), c);
    NotOwnerRefused(Run(s, steps), c, step);
  }

  /** Each acquisition supersedes every claim handed out before it. */
  lemma DispatchSupersedes(s: Tables, i: ItemId, holder: WorkerId, ttl: nat, c: Claim)
    requires Try(s, Dispatch(i, holder, ttl)).Ok?
    requires c.job == i && c.token <= s.jobs[i].token
    ensures Superseded(Apply(s, Dispatch(i, holder, ttl)), c)
  {}

  /** At most one claim on a job can own it. */
  lemma OneOwner(s: Tables, c: Claim, d: Claim)
    requires Owns(s, c) && Owns(s, d) && c.job == d.job
    ensures c == d
  {}

  predicate PresentsPay(step: Step, c: PayClaim) {
    match step
    case RenewPay(d, _) => d == c
    case Answer(d, _, _) => d == c
    case _ => false
  }

  /** The same for payments: a claim from an earlier attempt never records a result. */
  lemma {:induction false} StalePaymentRefusedForever(s: Tables, c: PayClaim, steps: seq<Step>, step: Step)
    requires Inv(s) && c.topup < |s.topups| && s.topups[c.topup].token > c.token && PresentsPay(step, c)
    ensures Try(Run(s, steps), step).Err?
  {
    RunGood(s, steps);
    assert KeptAt(s, Run(s, steps), c.topup);
  }

  // ---------------------------------------------------------------- settled once

  /** A captured or released reservation is the same in every later state. */
  lemma {:induction false} SettledForever(s: Tables, i: ItemId, steps: seq<Step>)
    requires Inv(s) && HasReservation(s, i) && SettledState(s.items[i].reservation.value)
    ensures i < |Run(s, steps).items| && Run(s, steps).items[i].reservation == s.items[i].reservation
  {
    RunGood(s, steps);
    assert KeptAt(s, Run(s, steps), i);
  }

  // ---------------------------------------------------------------- promotion caps

  /** Over every sequence of credits, and everything else that happens: uses per user,
      bonus per promotion, user and day, and bonus against principal stay within their
      limits; a credited top-up's bonus is its usage row's, or zero without one. */
  lemma {:induction false} PromotionCapsHold(promotions: map<PromotionId, Promotion>, steps: seq<Step>)
    requires TiersOk(promotions)
    ensures var s := Run(Opening(promotions), steps);
            s.promotions == promotions && CapsOk(promotions, s.usages) && BonusesOk(s)
  {
    OpeningInv(promotions);
    RunGood(Opening(promotions), steps);
    assert KeptAt(Opening(promotions), Run(Opening(promotions), steps), 0);
    assert Holds(Run(Opening(promotions), steps), BonusAspect);
  }

  // ---------------------------------------------------------------- one order per session

  predicate Confirms(s: Tables, step: Step, x: SessionId) {
    step.Confirm? && step.caller.session == x && Try(s, step).Ok?
  }

  function Confirmations(s: Tables, steps: seq<Step>, x: SessionId): nat
    decreases |steps|
  {
    if steps == [] then 0
    else (if Confirms(s, steps[0], x) then 1 else 0) + Confirmations(Apply(s, steps[0]), steps[1..], x)
  }

  lemma {:induction false} ConfirmedConfirmsNoMore(s: Tables, steps: seq<Step>, x: SessionId)
    requires Inv(s) && x in s.sessions && s.sessions[x].state == SessionState.Confirmed
    ensures Confirmations(s, steps, x) == 0
    decreases |steps|
  {
    if steps != [] {
      StepGood(s, steps[0]);
      assert KeptAt(s, Apply(s, steps[0]), x);
      ConfirmedConfirmsNoMore(Apply(s, steps[0]), steps[1..], x);
    }
  }

  /** A checkout session yields at most one order in any run. */
  lemma {:induction false} OneOrderPerSession(s: Tables, steps: seq<Step>, x: SessionId)
    requires Inv(s)
    ensures Confirmations(s, steps, x) <= 1
    decreases |steps|
  {
    if steps != [] {
      var s' := Apply(s, steps[0]);
      StepGood(s, steps[0]);
      if Confirms(s, steps[0], x) { ConfirmedConfirmsNoMore(s', steps[1..], x); }
      else { OneOrderPerSession(s', steps[1..], x); }
    }
  }
}
