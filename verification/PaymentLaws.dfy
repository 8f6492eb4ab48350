/** A payment that may have gone out is never sent again by the system itself. */
module PaymentLaws {
  import opened Common
  import opened Ledger
  import opened Schema
  import opened Wallet
  import opened Runner
  import opened Recovery
  import opened Payments
  import opened Checkout
  import opened Lockstep
  import opened MaintenanceLaws
  import opened Machine
  import opened Frames
  import opened MoneySteps
  import opened PaymentSteps
  import opened CheckoutLaws
  import opened FairQueue
  import opened Safety

  // ---------------------------------------------------------------- bounds

  /** At most three attempts, at most two before another may start; and a top-up that
      waits for its next attempt has a last attempt that is known to have failed. */
  lemma AttemptsBounded(s: Tables, t: TopupId)
    requires Inv(s) && t < |s.topups|
    ensures s.topups[t].attempts <= 3
    ensures InQueue(s.topups[t].status) ==> s.topups[t].attempts <= 2 && !LatestMaybePaid(s.topups[t])
  {
    PaymentRow(s, t);
  }

  // ---------------------------------------------------------------- who writes top-ups

  lemma RowsLeaveTopups(s: Tables, step: Step)
    requires Try(s, step).Ok? && (step.Materialize? || step.OpenItemReview? || step.Checkpoint? || step.ToReview?)
    ensures Try(s, step).value.topups == s.topups
  {}

  lemma RunnerLeavesTopups(s: Tables, step: Step)
    requires Try(s, step).Ok? && RunnerKind(step)
    ensures Try(s, step).value.topups == s.topups
  {
    if step.Materialize? || step.OpenItemReview? || step.Checkpoint? || step.ToReview? { RowsLeaveTopups(s, step); }
  }

  lemma {:induction false} ReserveEachLeavesTopups(s: Tables, u: UserId, rs: seq<Request>, ctx: Context)
    requires ReserveEach(s, u, rs, ctx).Ok?
    ensures ReserveEach(s, u, rs, ctx).value.topups == s.topups
    decreases |rs|
  {
    if rs != [] { ReserveEachLeavesTopups(ReserveOne(s, u, rs[0], ctx).value, u, rs[1..], ctx); }
  }

  lemma SessionsLeaveTopups(s: Tables, step: Step)
    requires Try(s, step).Ok?
    requires !RunnerKind(step) && !MoneyKind(step) && !PaymentKind(step)
    ensures Try(s, step).value.topups == s.topups
  {
    if step.Confirm? {
      var c := step.caller;
      ConfirmUnfolds(s, c, step.preflight, step.blocked, step.catalogue, step.context);
      var lines := s.sessions[c.session].selected;
      ReserveEachLeavesTopups(CreateOrder(s, c.actor, step.preflight.account, lines, step.catalogue).value, c.actor,
                              RequestsFor(|s.items|, lines), step.context);
    }
  }

  lemma ItemDecisionLeavesTopups(s: Tables, i: ItemId, d: ItemDecision, ctx: Context)
    requires DecideItem(s, i, d, ctx).Ok?
    ensures DecideItem(s, i, d, ctx).value.topups == s.topups
  {
    match d {
      case Retry =>
      case CaptureIt => CaptureEffect(SettlingForCapture(s, i), i, None, ctx);
      case _ => ReleaseEffect(s, i, ReleaseStage(d), None, ctx);
    }
  }

  // ---------------------------------------------------------------- parked payments

  /** The top-up is out of the dispatch queue, and if an attempt is under way then it
      may already have reached the provider, or its lease has run out. */
  predicate Parked(s: Tables, t: TopupId) {
    && t < |s.topups| && !InQueue(s.topups[t].status)
    && (s.topups[t].status == Processing ==> LatestMaybePaid(s.topups[t]) || PaymentCrashed(s, t))
  }

  /** The step records "rate limited" for this top-up, under a live lease, with an
      attempt left. */
  predicate RateLimits(s: Tables, step: Step, t: TopupId) {
    && step.Answer? && step.reply.SaysRateLimited? && step.pay.topup == t
    && Plausible(s, step.pay, step.reply) && OwnsPayment(s, step.pay) && step.pay.token < MaxAttempts
  }

  /** Parked, and no attempt has been added. */
  ghost predicate StaysParked(s: Tables, s': Tables, t: TopupId)
    requires t < |s.topups|
  {
    Parked(s', t) && s'.topups[t].attempts == s.topups[t].attempts
  }

  lemma SameTopups(s: Tables, s': Tables, t: TopupId)
    requires Parked(s, t) && s'.topups == s.topups && s.clock <= s'.clock
    ensures StaysParked(s, s', t)
  {}

  lemma SubmitParked(s: Tables, u: UserId, voucher: nat, blocked: bool, receiver: bool, promotion: Option<PromotionId>,
                     t: TopupId)
    requires Parked(s, t) && SubmitVoucher(s, u, voucher, blocked, receiver, promotion).Ok?
    ensures StaysParked(s, SubmitVoucher(s, u, voucher, blocked, receiver, promotion).value, t)
  {}

  lemma ClaimParked(s: Tables, k: TopupId, holder: WorkerId, ttl: nat, t: TopupId)
    requires Parked(s, t) && AcquirePayment(s, k, holder, ttl).Ok?
    ensures StaysParked(s, AcquirePayment(s, k, holder, ttl).value, t)
  {}

  lemma RenewParked(s: Tables, c: PayClaim, ttl: nat, t: TopupId)
    requires Parked(s, t) && RenewPayment(s, c, ttl).Ok?
    ensures StaysParked(s, RenewPayment(s, c, ttl).value, t)
  {}

  lemma AttemptParked(s: Tables, c: PayClaim, t: TopupId)
    requires Parked(s, t) && CreateAttempt(s, c).Ok?
    ensures StaysParked(s, CreateAttempt(s, c).value, t)
  {}

  lemma MarkSentParked(s: Tables, c: PayClaim, t: TopupId)
    requires Parked(s, t)
    ensures StaysParked(s, MarkPossiblySent(s, c), t)
  {}

  lemma AnswerParked(s: Tables, step: Step, t: TopupId)
    requires Inv(s) && Parked(s, t) && Try(s, step).Ok? && step.Answer?
    ensures var s' := Try(s, step).value;
            && t < |s'.topups| && s'.topups[t].attempts == s.topups[t].attempts
            && (Parked(s', t) <==> !RateLimits(s, step, t))
  {
    PaymentRow(s, t);
  }

  lemma BeforePaymentRecovery(s: Tables)
    ensures var s' := RequeueRetries(RecoverCrashed(RecoverExpiredLeases(s)));
            s'.topups == s.topups && s'.clock == s.clock
  {}

  lemma MaintainParked(s: Tables, t: TopupId)
    requires Parked(s, t)
    ensures StaysParked(s, MaintenancePass(s), t)
    ensures PaymentCrashed(s, t) ==>
              MaintenancePass(s).topups[t].status == TopupReview && TopupSubject(t) in MaintenancePass(s).reviews
  {
    BeforePaymentRecovery(s);
    PaymentsRecoveredAt(RequeueRetries(RecoverCrashed(RecoverExpiredLeases(s))), t);
  }

  lemma CreditParked(s: Tables, u: TopupId, t: TopupId)
    requires Parked(s, t) && CreditRedeemedTopup(s, u).Ok?
    ensures StaysParked(s, CreditRedeemedTopup(s, u).value, t)
  {}

  lemma TopupDecisionParked(s: Tables, u: TopupId, d: TopupDecision, t: TopupId)
    requires Parked(s, t) && DecideTopup(s, u, d).Ok?
    ensures StaysParked(s, DecideTopup(s, u, d).value, t)
  {
    if d.CreditIt? {
      var amount := if d.amount.Some? then d.amount.value else if s.topups[u].amount.Some? then s.topups[u].amount.value else 0;
      CreditParked(s.(topups := s.topups[u := s.topups[u].(status := Redeemed, amount := Some(amount), thb := true,
                                                           provider := Some(d.provider))]), u, t);
    }
  }

  lemma BalanceLeavesTopups(s: Tables, step: Step)
    requires Try(s, step).Ok? && (step.Refund? || step.Adjust? || step.Prune?)
    ensures Try(s, step).value.topups == s.topups
  {}

  lemma ReverseParked(s: Tables, u: TopupId, reason: string, t: TopupId)
    requires Parked(s, t) && ReverseTopup(s, u, reason).Ok?
    ensures StaysParked(s, ReverseTopup(s, u, reason).value, t)
  {
    ReverseEffect(s, u, reason);
  }

  lemma ResolveParked(s: Tables, step: Step, t: TopupId)
    requires Parked(s, t) && Try(s, step).Ok? && step.Resolve?
    ensures StaysParked(s, Try(s, step).value, t)
  {
    MoneyTurns(s, step);
    match step.decision
    case ItemCase(i, choice) => ItemDecisionLeavesTopups(s, i, choice, step.context);
    case TopupCase(u, verdict) => TopupDecisionParked(s, u, verdict, t);
  }

  lemma MoneyStepParked(s: Tables, step: Step, t: TopupId)
    requires Parked(s, t) && Try(s, step).Ok? && MoneyKind(step)
    ensures StaysParked(s, Try(s, step).value, t)
  {
    if step.CaptureItem? { CaptureEffect(s, step.claim.job, Some(step.claim), step.context); }
    else if step.ReleaseItem? { ReleaseEffect(s, step.item, step.terminal, step.fence, step.context); }
    else if step.Credit? { CreditParked(s, step.topup, t); }
    else if step.Reverse? { ReverseParked(s, step.topup, step.reason, t); }
    else if step.Maintain? { MaintainParked(s, t); }
    else if step.Resolve? { ResolveParked(s, step, t); }
    else {
      MoneyTurns(s, step);
      BalanceLeavesTopups(s, step);
      SameTopups(s, Try(s, step).value, t);
    }
  }

  /** A parked payment goes back to the dispatch queue in exactly one way: its live
      attempt is answered with "rate limited" and an attempt is left. No other step
      of anyone sends it again. */
  lemma RequeuedIffRateLimited(s: Tables, step: Step, t: TopupId)
    requires Inv(s) && Parked(s, t)
    ensures var s' := Apply(s, step);
            && t < |s'.topups| && s'.topups[t].attempts == s.topups[t].attempts
            && (!Parked(s', t) <==> Try(s, step).Ok? && RateLimits(s, step, t))
  {
    StepTurns(s, step, 0);
    if Try(s, step).Ok? {
      if RunnerKind(step) { RunnerLeavesTopups(s, step); SameTopups(s, Apply(s, step), t); }
      else if MoneyKind(step) { MoneyStepParked(s, step, t); }
      else if step.Answer? { AnswerParked(s, step, t); }
      else if step.RenewPay? { RenewParked(s, step.pay, step.ttl, t); }
      else if step.Submit? { SubmitParked(s, step.user, step.voucher, step.blocked, step.receiver, step.promotion, t); }
      else if step.ClaimPayment? { ClaimParked(s, step.topup, step.holder, step.ttl, t); }
      else if step.RecordAttempt? { AttemptParked(s, step.pay, t); }
      else if step.MarkSent? { MarkSentParked(s, step.pay, t); }
      else { SessionsLeaveTopups(s, step); SameTopups(s, Apply(s, step), t); }
    }
  }

  predicate NeverRateLimited(s: Tables, steps: seq<Step>, t: TopupId)
    decreases |steps|
  {
    steps != [] ==> !RateLimits(s, steps[0], t) && NeverRateLimited(Apply(s, steps[0]), steps[1..], t)
  }

  /** In every run without such an answer a payment that may have gone out, or whose
      worker crashed, never gets another attempt. */
  lemma {:induction false} NeverSentAgain(s: Tables, steps: seq<Step>, t: TopupId)
    requires Inv(s) && Parked(s, t) && NeverRateLimited(s, steps, t)
    ensures StaysParked(s, Run(s, steps), t)
    decreases |steps|
  {
    if steps != [] {
      StepGood(s, steps[0]);
      RequeuedIffRateLimited(s, steps[0], t);
      NeverSentAgain(Apply(s, steps[0]), steps[1..], t);
    }
  }
}
