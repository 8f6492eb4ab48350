/** What can become of a top-up: every change of its status and the step that makes it,
    how a payment ends whose worker was lost, and how one that may have gone out fails. */
module PaymentFates {
  import opened Common
  import opened Ledger
  import opened Schema
  import opened Wallet
  import opened Money
  import opened Promotions
  import opened Runner
  import opened Recovery
  import opened Payments
  import opened Checkout
  import opened Lockstep
  import opened Machine
  import opened Frames
  import opened MoneySteps
  import opened PaymentSteps
  import opened CheckoutLaws
  import opened PaymentLaws
  import opened Safety

  // ---------------------------------------------------------------- a top-up's life

  /** Which step takes a top-up from which status to which. */
  predicate MayBecome(step: Step, a: TopupStatus, b: TopupStatus) {
    || a == b
    || (step.ClaimPayment? && a == PaymentQueued && b == Processing)
    || (step.Answer? && a == Processing && b in {Redeemed, TopupReview, RetryWait, TopupFailed, Invalid, Expired, AlreadyRedeemed})
    || (step.Maintain? && ((a == Processing && b == TopupReview) || (a == RetryWait && b == PaymentQueued)))
    || (step.Credit? && a == Redeemed && b == Credited)
    || (step.Reverse? && a == Credited && b == Reversed)
    || (step.Resolve? && a == TopupReview && b in {Rejected, Credited})
  }

  /** The step writes this attempt's row. */
  predicate WritesAttempt(step: Step, c: PayClaim) {
    (step.RecordAttempt? || step.MarkSent? || step.Answer?) && step.pay.topup == c.topup && step.pay.token == c.token
  }

  /** A row keeps its attempts and changes its status by its step only; a claim that is
      not its owner's, or no more, does not become so; a new row is queued. */
  predicate LivesOn(s: Tables, s': Tables, step: Step, c: PayClaim) {
    var t := c.topup;
    if t >= |s.topups| then t < |s'.topups| ==> s'.topups[t].status == PaymentQueued
    else
      && t < |s'.topups| && MayBecome(step, s.topups[t].status, s'.topups[t].status)
      && (c.token in s.topups[t].log ==>
            c.token in s'.topups[t].log
            && (s'.topups[t].log[c.token] == s.topups[t].log[c.token] || WritesAttempt(step, c)))
      && s.topups[t].token <= s'.topups[t].token
      && (c.token <= s.topups[t].token && OwnsPayment(s', c) ==> OwnsPayment(s, c))
  }

  lemma SameTopupsLive(s: Tables, s': Tables, step: Step, c: PayClaim)
    requires s'.topups == s.topups && s.clock <= s'.clock
    ensures LivesOn(s, s', step, c)
  {}

  lemma AttemptLife(s: Tables, c: PayClaim, d: PayClaim)
    requires CreateAttempt(s, c).Ok?
    ensures LivesOn(s, CreateAttempt(s, c).value, Step.RecordAttempt(c), d)
  {}

  lemma MarkSentLife(s: Tables, c: PayClaim, d: PayClaim)
    ensures LivesOn(s, MarkPossiblySent(s, c), Step.MarkSent(c), d)
  {
    var s' := MarkPossiblySent(s, c);
    if s' != s { assert s'.topups == s.topups[c.topup := s.topups[c.topup].(log := s.topups[c.topup].log[c.token := PossiblySent])]; }
  }

  lemma SubmitLife(s: Tables, step: Step, d: PayClaim)
    requires step.Submit? && Try(s, step).Ok?
    ensures LivesOn(s, Try(s, step).value, step, d)
  {
    var s' := SubmitVoucher(s, step.user, step.voucher, step.blocked, step.receiver, step.promotion).value;
    assert Try(s, step).value == s';
    assert s' == s || (|s'.topups| == |s.topups| + 1 && s'.topups[..|s.topups|] == s.topups);
    assert d.topup < |s.topups| && s' != s ==> s'.topups[d.topup] == s'.topups[..|s.topups|][d.topup];
  }

  lemma ClaimLife(s: Tables, k: TopupId, holder: WorkerId, ttl: nat, d: PayClaim)
    requires AcquirePayment(s, k, holder, ttl).Ok?
    ensures LivesOn(s, AcquirePayment(s, k, holder, ttl).value, ClaimPayment(k, holder, ttl), d)
  {}

  lemma RenewLife(s: Tables, c: PayClaim, ttl: nat, d: PayClaim)
    requires RenewPayment(s, c, ttl).Ok?
    ensures LivesOn(s, RenewPayment(s, c, ttl).value, RenewPay(c, ttl), d)
  {}

  lemma AnswerLife(s: Tables, c: PayClaim, r: Reply, delay: nat, d: PayClaim)
    requires PaymentAt(s, c.topup) && Plausible(s, c, r) && RecordResult(s, c, r, delay).Ok?
    ensures LivesOn(s, RecordResult(s, c, r, delay).value, Answer(c, r, delay), d)
  {}

  lemma PaymentLife(s: Tables, step: Step, d: PayClaim)
    requires Inv(s) && PaymentKind(step) && Try(s, step).Ok?
    ensures LivesOn(s, Try(s, step).value, step, d)
  {
    if step.Submit? { SubmitLife(s, step, d); }
    else if step.ClaimPayment? { ClaimLife(s, step.topup, step.holder, step.ttl, d); }
    else if step.RenewPay? { RenewLife(s, step.pay, step.ttl, d); }
    else if step.RecordAttempt? { AttemptLife(s, step.pay, d); }
    else if step.MarkSent? { MarkSentLife(s, step.pay, d); }
    else { PaymentRow(s, step.pay.topup); AnswerLife(s, step.pay, step.reply, step.delay, d); }
  }

  /** What maintenance makes of one row. */
  function RecoveredRow(p: Topup, now: nat): Topup {
    if p.status == Processing && p.lease.Some? && p.lease.value.expires <= now then p.(status := TopupReview, lease := None)
    else if p.status == RetryWait && p.availableAt <= now then p.(status := PaymentQueued)
    else p
  }

  lemma RecoveredLives(s: Tables, s': Tables, d: PayClaim)
    requires |s'.topups| == |s.topups| && s'.clock == s.clock
    requires d.topup < |s.topups| ==> s'.topups[d.topup] == RecoveredRow(s.topups[d.topup], s.clock)
    ensures LivesOn(s, s', Maintain, d)
  {}

  lemma PassRecovers(s: Tables, t: TopupId)
    ensures |MaintenancePass(s).topups| == |s.topups| && MaintenancePass(s).clock == s.clock
    ensures t < |s.topups| ==> MaintenancePass(s).topups[t] == RecoveredRow(s.topups[t], s.clock)
  {
    BeforePaymentRecovery(s);
    var mid := RequeueRetries(RecoverCrashed(RecoverExpiredLeases(s)));
    assert |RecoverCrashedPayments(mid).topups| == |mid.topups| && RecoverCrashedPayments(mid).clock == mid.clock;
    if t < |s.topups| { PaymentsRecoveredAt(mid, t); }
  }

  lemma MaintainLife(s: Tables, d: PayClaim)
    ensures LivesOn(s, MaintenancePass(s), Maintain, d)
  {
    PassRecovers(s, d.topup);
    RecoveredLives(s, MaintenancePass(s), d);
  }

  lemma CreditLife(s: Tables, k: TopupId, d: PayClaim)
    requires SeenRedeemed(s, k) && CreditRedeemedTopup(s, k).Ok?
    ensures LivesOn(s, CreditRedeemedTopup(s, k).value, Step.Credit(k), d)
  {}

  lemma ReverseLife(s: Tables, k: TopupId, reason: string, d: PayClaim)
    requires ReverseTopup(s, k, reason).Ok?
    ensures LivesOn(s, ReverseTopup(s, k, reason).value, Step.Reverse(k, reason), d)
  {
    ReverseEffect(s, k, reason);
  }

  predicate SameAttempts(p: Topup, q: Topup) {
    q.log == p.log && q.token == p.token && (q.lease == p.lease || q.lease.None?)
  }

  lemma DecidedEnds(s: Tables, t: TopupId, d: TopupDecision)
    requires t < |s.topups| && DecideTopup(s, t, d).Ok?
    ensures var s' := DecideTopup(s, t, d).value;
            && |s'.topups| == |s.topups| && s'.topups == s.topups[t := s'.topups[t]]
            && s.topups[t].status == TopupReview && s'.topups[t].status in {Rejected, Credited}
            && SameAttempts(s.topups[t], s'.topups[t])
  {}

  lemma DecisionRow(s: Tables, k: TopupId, d: TopupDecision, t: TopupId)
    requires DecideTopup(s, k, d).Ok?
    ensures k < |s.topups|
    ensures var s' := DecideTopup(s, k, d).value;
            && |s'.topups| == |s.topups| && s.topups[k].status == TopupReview
            && (t < |s.topups| ==> SameAttempts(s.topups[t], s'.topups[t])
                                   && if t == k then s'.topups[t].status in {Rejected, Credited}
                                      else s'.topups[t] == s.topups[t])
  {
    DecidedEnds(s, k, d);
  }

  lemma ItemDecisionKeepsReviews(s: Tables, i: ItemId, d: ItemDecision, ctx: Context)
    requires DecideItem(s, i, d, ctx).Ok?
    ensures DecideItem(s, i, d, ctx).value.reviews == s.reviews && DecideItem(s, i, d, ctx).value.clock == s.clock
  {
    match d {
      case Retry =>
      case CaptureIt => CaptureEffect(SettlingForCapture(s, i), i, None, ctx);
      case _ => ReleaseEffect(s, i, ReleaseStage(d), None, ctx);
    }
  }

  lemma DecisionLife(s: Tables, s': Tables, k: TopupId, verdict: TopupDecision, step: Step, d: PayClaim)
    requires DecideTopup(s, k, verdict).Ok? && s'.topups == DecideTopup(s, k, verdict).value.topups && s'.clock == s.clock
    requires step.Resolve?
    ensures LivesOn(s, s', step, d)
  {
    DecisionRow(s, k, verdict, d.topup);
  }

  lemma ResolveLife(s: Tables, e: Decision, reason: string, isOwner: bool, expected: Option<nat>, ctx: Context, d: PayClaim)
    requires ResolveReview(s, e, reason, isOwner, expected, ctx).Ok?
    ensures LivesOn(s, ResolveReview(s, e, reason, isOwner, expected, ctx).value,
                    Step.Resolve(e, reason, isOwner, expected, ctx), d)
  {
    var s' := ResolveReview(s, e, reason, isOwner, expected, ctx).value;
    var step := Step.Resolve(e, reason, isOwner, expected, ctx);
    match e
    case ItemCase(i, choice) =>
      ItemDecisionLeavesTopups(s, i, choice, ctx);
      ItemDecisionKeepsReviews(s, i, choice, ctx);
      SameTopupsLive(s, s', step, d);
    case TopupCase(k, verdict) =>
      DecisionLife(s, s', k, verdict, step, d);
  }

  lemma MoneyLife(s: Tables, step: Step, d: PayClaim)
    requires MoneyKind(step) && Try(s, step).Ok? && s.clock <= Try(s, step).value.clock
    ensures LivesOn(s, Try(s, step).value, step, d)
  {
    if step.CaptureItem? { CaptureEffect(s, step.claim.job, Some(step.claim), step.context); }
    else if step.ReleaseItem? { ReleaseEffect(s, step.item, step.terminal, step.fence, step.context); }
    else if step.Credit? { CreditLife(s, step.topup, d); }
    else if step.Reverse? { ReverseLife(s, step.topup, step.reason, d); }
    else if step.Maintain? { MaintainLife(s, d); }
    else if step.Resolve? { ResolveLife(s, step.decision, step.reason, step.isOwner, step.expected, step.context, d); }
    else { BalanceLeavesTopups(s, step); }
  }

  /** Every change of every top-up's status by any step, which step writes which attempt,
      and who may come to own a payment. */
  lemma TopupLife(s: Tables, step: Step, c: PayClaim)
    requires Inv(s)
    ensures LivesOn(s, Apply(s, step), step, c)
  {
    if Try(s, step).Ok? {
      StepGood(s, step);
      if RunnerKind(step) { RunnerLeavesTopups(s, step); SameTopupsLive(s, Apply(s, step), step, c); }
      else if MoneyKind(step) { MoneyLife(s, step, c); }
      else if PaymentKind(step) { PaymentLife(s, step, c); }
      else { SessionsLeaveTopups(s, step); SameTopupsLive(s, Apply(s, step), step, c); }
    }
  }

  /** A row once seen REDEEMED is redeemed, credited or reversed for ever. */
  lemma {:induction false} RedeemedStays(s: Tables, steps: seq<Step>, t: TopupId)
    requires Inv(s) && SeenRedeemed(s, t)
    ensures SeenRedeemed(Run(s, steps), t)
    decreases |steps|
  {
    if steps != [] {
      StepGood(s, steps[0]);
      TopupLife(s, steps[0], PayClaim(t, 0, 0));
      RedeemedStays(Apply(s, steps[0]), steps[1..], t);
    }
  }

  /** Claims that were handed out stay so; an attempt that only its own worker writes
      stays as it was, and a claim once lost stays lost, whatever everybody else does. */
  lemma {:induction false} ClaimLivesOn(s: Tables, steps: seq<Step>, c: PayClaim)
    requires Inv(s) && Issued(s, c) && forall k | 0 <= k < |steps| :: !WritesAttempt(steps[k], c)
    ensures Inv(Run(s, steps)) && Issued(Run(s, steps), c)
    ensures c.token in s.topups[c.topup].log ==>
              && c.token in Run(s, steps).topups[c.topup].log
              && Run(s, steps).topups[c.topup].log[c.token] == s.topups[c.topup].log[c.token]
    ensures OwnsPayment(Run(s, steps), c) ==> OwnsPayment(s, c)
    decreases |steps|
  {
    if steps != [] {
      StepGood(s, steps[0]);
      TopupLife(s, steps[0], c);
      assert !WritesAttempt(steps[0], c);
      ClaimLivesOn(Apply(s, steps[0]), steps[1..], c);
    }
  }

  // ---------------------------------------------------------------- open reviews

  predicate ReviewsKept(s: Tables, s': Tables) {
    s.reviews.Keys <= s'.reviews.Keys
  }

  lemma JobStepKeepsReviews(s: Tables, step: Step)
    requires step.Heartbeat? || step.BeginRun? || step.BeginSettling? || step.Complete? || step.Prepare? || step.Mark?
             || step.ReportProgress?
    requires Try(s, step).Ok?
    ensures ReviewsKept(s, Try(s, step).value)
  {}

  lemma RowStepKeepsReviews(s: Tables, step: Step)
    requires step.FailItem? || step.ToReview? || step.ForceFailItem? || step.Checkpoint?
    requires Try(s, step).Ok?
    ensures ReviewsKept(s, Try(s, step).value)
  {}

  lemma QueueStepKeepsReviews(s: Tables, step: Step)
    requires step.Dispatch? || step.Materialize? || step.OpenItemReview?
    requires Try(s, step).Ok?
    ensures ReviewsKept(s, Try(s, step).value)
  {}

  lemma RunnerKeepsReviews(s: Tables, step: Step)
    requires RunnerKind(step) && Try(s, step).Ok?
    ensures ReviewsKept(s, Try(s, step).value)
  {
    if step.FailItem? || step.ToReview? || step.ForceFailItem? || step.Checkpoint? { RowStepKeepsReviews(s, step); }
    else if step.Dispatch? || step.Materialize? || step.OpenItemReview? { QueueStepKeepsReviews(s, step); }
    else { JobStepKeepsReviews(s, step); }
  }

  lemma MaintainKeepsReviews(s: Tables)
    ensures ReviewsKept(s, MaintenancePass(s))
  {
    assert RecoverExpiredLeases(s).reviews == s.reviews;
    assert ReviewsKept(s, RecoverCrashed(RecoverExpiredLeases(s)));
  }

  lemma {:induction false} ReserveEachKeepsReviews(s: Tables, u: UserId, rs: seq<Request>, ctx: Context)
    requires ReserveEach(s, u, rs, ctx).Ok?
    ensures ReserveEach(s, u, rs, ctx).value.reviews == s.reviews
    decreases |rs|
  {
    if rs != [] { ReserveEachKeepsReviews(ReserveOne(s, u, rs[0], ctx).value, u, rs[1..], ctx); }
  }

  lemma SessionsKeepReviews(s: Tables, step: Step)
    requires !RunnerKind(step) && !MoneyKind(step) && !PaymentKind(step) && Try(s, step).Ok?
    ensures ReviewsKept(s, Try(s, step).value)
  {
    if step.Confirm? {
      var c := step.caller;
      ConfirmUnfolds(s, c, step.preflight, step.blocked, step.catalogue, step.context);
      var lines := s.sessions[c.session].selected;
      ReserveEachKeepsReviews(CreateOrder(s, c.actor, step.preflight.account, lines, step.catalogue).value, c.actor,
                              RequestsFor(|s.items|, lines), step.context);
    }
  }

  // ---------------------------------------------------------------- lost payments

  /** The payment's worker is gone, or a person has to look at it and a review says so. */
  predicate Lost(s: Tables, t: TopupId) {
    t < |s.topups| && (PaymentCrashed(s, t) || (s.topups[t].status == TopupReview && TopupSubject(t) in s.reviews))
  }

  /** The owner decides this top-up's review. */
  predicate OwnerDecides(s: Tables, step: Step, t: TopupId) {
    step.Resolve? && step.decision.TopupCase? && step.decision.topup == t && step.isOwner && Try(s, step).Ok?
  }

  lemma SameRowStaysLost(s: Tables, s': Tables, t: TopupId)
    requires Lost(s, t) && ReviewsKept(s, s') && s.clock <= s'.clock && t < |s'.topups| && s'.topups[t] == s.topups[t]
    ensures Lost(s', t)
  {}

  lemma PaymentKeepsLost(s: Tables, step: Step, t: TopupId)
    requires Inv(s) && Lost(s, t) && PaymentKind(step) && Try(s, step).Ok?
    requires !step.RecordAttempt? && !step.MarkSent?
    ensures Lost(Try(s, step).value, t)
  {
    PaymentRow(s, t);
    if step.Submit? {
      SubmitKeepsRow(s, step.user, step.voucher, step.blocked, step.receiver, step.promotion, t);
    }
    else if step.ClaimPayment? { ClaimKeepsLost(s, step.topup, step.holder, step.ttl, t); }
    else if step.RenewPay? { RenewKeepsLost(s, step.pay, step.ttl, t); }
    else { AnswerKeepsLost(s, step.pay, step.reply, step.delay, t); }
  }

  lemma ClaimKeepsLost(s: Tables, k: TopupId, holder: WorkerId, ttl: nat, t: TopupId)
    requires Lost(s, t) && AcquirePayment(s, k, holder, ttl).Ok?
    ensures Lost(AcquirePayment(s, k, holder, ttl).value, t)
  {}

  lemma RenewKeepsLost(s: Tables, c: PayClaim, ttl: nat, t: TopupId)
    requires Lost(s, t) && RenewPayment(s, c, ttl).Ok?
    ensures Lost(RenewPayment(s, c, ttl).value, t)
  {}

  lemma SubmitKeepsRow(s: Tables, u: UserId, voucher: nat, blocked: bool, receiver: bool, promotion: Option<PromotionId>,
                       t: TopupId)
    requires t < |s.topups| && SubmitVoucher(s, u, voucher, blocked, receiver, promotion).Ok?
    ensures var s' := SubmitVoucher(s, u, voucher, blocked, receiver, promotion).value;
            t < |s'.topups| && s'.topups[t] == s.topups[t] && s' == s.(topups := s'.topups)
  {}

  lemma AnswerKeepsLost(s: Tables, c: PayClaim, r: Reply, delay: nat, t: TopupId)
    requires PaymentAt(s, t) && Lost(s, t) && RecordResult(s, c, r, delay).Ok?
    ensures Lost(RecordResult(s, c, r, delay).value, t)
  {}

  /** Attempts are recorded without a fence, but in the log only. */
  lemma LogKeepsLost(s: Tables, step: Step, t: TopupId)
    requires Lost(s, t) && (step.RecordAttempt? || step.MarkSent?) && Try(s, step).Ok?
    ensures Lost(Try(s, step).value, t)
  {}

  lemma MaintainKeepsLost(s: Tables, t: TopupId)
    requires Lost(s, t)
    ensures Lost(MaintenancePass(s), t)
  {
    MaintainKeepsReviews(s);
    BeforePaymentRecovery(s);
    PaymentsRecoveredAt(RequeueRetries(RecoverCrashed(RecoverExpiredLeases(s))), t);
  }

  lemma CreditKeepsLost(s: Tables, k: TopupId, t: TopupId)
    requires Lost(s, t) && SeenRedeemed(s, k) && CreditRedeemedTopup(s, k).Ok?
    ensures Lost(CreditRedeemedTopup(s, k).value, t)
  {}

  lemma ReversingKeepsLost(s: Tables, k: TopupId, total: nat, t: TopupId)
    requires Lost(s, t) && k < |s.topups| && s.topups[k].status == Credited && Reversing(s, k, total).Ok?
    ensures Lost(Reversing(s, k, total).value, t)
  {}

  lemma ReverseKeepsLost(s: Tables, k: TopupId, reason: string, t: TopupId)
    requires Lost(s, t) && ReverseTopup(s, k, reason).Ok?
    ensures Lost(ReverseTopup(s, k, reason).value, t)
  {
    if s.topups[k].status == Credited {
      var row := s.topups[k];
      var total := (if row.amount.Some? then row.amount.value else 0) + row.bonus;
      ReversingKeepsLost(s, k, total, t);
      assert ReverseTopup(s, k, reason) == Reversing(s, k, total);
    } else {
      assert ReverseTopup(s, k, reason) == Ok(s);
    }
  }

  lemma OtherDecisionKeepsLost(s: Tables, k: TopupId, d: TopupDecision, t: TopupId)
    requires Lost(s, t) && k != t && DecideTopup(s, k, d).Ok?
    ensures var s' := DecideTopup(s, k, d).value;
            t < |s'.topups| && s'.topups[t] == s.topups[t] && s'.reviews == s.reviews && s'.clock == s.clock
  {}

  lemma ResolveAndLost(s: Tables, step: Step, t: TopupId)
    requires Inv(s) && Lost(s, t) && step.Resolve? && Try(s, step).Ok?
    ensures t < |Try(s, step).value.topups|
    ensures Lost(Try(s, step).value, t) <==> !OwnerDecides(s, step, t)
  {
    match step.decision
    case ItemCase(i, choice) =>
      ItemDecisionLeavesTopups(s, i, choice, step.context);
      ItemDecisionKeepsReviews(s, i, choice, step.context);
    case TopupCase(k, verdict) =>
      if k == t { DecidedEnds(s, t, verdict); } else { OtherDecisionKeepsLost(s, k, verdict, t); }
  }

  lemma BankStepKeepsLost(s: Tables, step: Step, t: TopupId)
    requires Lost(s, t) && Try(s, step).Ok? && (step.Refund? || step.Adjust? || step.Prune?)
    ensures Lost(Try(s, step).value, t)
  {
    BalanceLeavesTopups(s, step);
  }

  lemma MoneyKeepsLost(s: Tables, step: Step, t: TopupId)
    requires Inv(s) && Lost(s, t) && MoneyKind(step) && !step.Resolve? && Try(s, step).Ok?
    ensures Lost(Try(s, step).value, t)
  {
    if step.CaptureItem? { CaptureEffect(s, step.claim.job, Some(step.claim), step.context); }
    else if step.ReleaseItem? { ReleaseEffect(s, step.item, step.terminal, step.fence, step.context); }
    else if step.Credit? { CreditKeepsLost(s, step.topup, t); }
    else if step.Reverse? { ReverseKeepsLost(s, step.topup, step.reason, t); }
    else if step.Maintain? { MaintainKeepsLost(s, t); }
    else { BankStepKeepsLost(s, step, t); }
  }

  /** A lost payment, and any top-up in review, leaves that state in exactly one way: the
      owner decides its review. No worker, no answer that arrives late, no maintenance
      pass and no administrator moves it. */
  lemma LostEndsIffOwnerDecides(s: Tables, step: Step, t: TopupId)
    requires Inv(s) && Lost(s, t)
    ensures t < |Apply(s, step).topups|
    ensures Lost(Apply(s, step), t) <==> !OwnerDecides(s, step, t)
  {
    if Try(s, step).Ok? {
      StepGood(s, step);
      if RunnerKind(step) { RunnerLeavesTopups(s, step); RunnerKeepsReviews(s, step); SameRowStaysLost(s, Apply(s, step), t); }
      else if step.Resolve? { ResolveAndLost(s, step, t); }
      else if MoneyKind(step) { MoneyKeepsLost(s, step, t); }
      else if step.RecordAttempt? || step.MarkSent? { LogKeepsLost(s, step, t); }
      else if PaymentKind(step) { PaymentKeepsLost(s, step, t); }
      else { SessionsLeaveTopups(s, step); SessionsKeepReviews(s, step); SameRowStaysLost(s, Apply(s, step), t); }
    }
  }

  predicate Undecided(s: Tables, steps: seq<Step>, t: TopupId)
    decreases |steps|
  {
    steps != [] ==> !OwnerDecides(s, steps[0], t) && Undecided(Apply(s, steps[0]), steps[1..], t)
  }

  /** Over every run: until the owner decides, a payment whose lease ran out while it was
      PROCESSING is PROCESSING or in review, and nothing else. */
  lemma {:induction false} LostUntilOwnerDecides(s: Tables, steps: seq<Step>, t: TopupId)
    requires Inv(s) && Lost(s, t) && Undecided(s, steps, t)
    ensures Lost(Run(s, steps), t)
    ensures Run(s, steps).topups[t].status in {Processing, TopupReview}
    decreases |steps|
  {
    if steps != [] {
      StepGood(s, steps[0]);
      LostEndsIffOwnerDecides(s, steps[0], t);
      LostUntilOwnerDecides(Apply(s, steps[0]), steps[1..], t);
    }
  }

  // ---------------------------------------------------------------- no review without a row

  lemma AnswerOpens(s: Tables, c: PayClaim, r: Reply, delay: nat, t: TopupId)
    requires RecordResult(s, c, r, delay).Ok? && t < |s.topups| && s.topups[t].status == Processing
    ensures var s' := RecordResult(s, c, r, delay).value;
            t < |s'.topups| && (s'.topups[t].status == TopupReview ==> TopupSubject(t) in s'.reviews)
  {}

  lemma MaintainOpens(s: Tables, t: TopupId)
    requires t < |s.topups| && s.topups[t].status == Processing
    ensures var s' := MaintenancePass(s);
            t < |s'.topups| && (s'.topups[t].status == TopupReview ==> TopupSubject(t) in s'.reviews)
  {
    BeforePaymentRecovery(s);
    PaymentsRecoveredAt(RequeueRetries(RecoverCrashed(RecoverExpiredLeases(s))), t);
  }

  ghost predicate ReviewsOpen(s: Tables) {
    forall t: TopupId | t < |s.topups| && s.topups[t].status == TopupReview :: TopupSubject(t) in s.reviews
  }

  lemma StepKeepsReviewsOpen(s: Tables, step: Step)
    requires Inv(s) && ReviewsOpen(s)
    ensures ReviewsOpen(Apply(s, step))
  {
    var s' := Apply(s, step);
    forall t: TopupId | t < |s'.topups| && s'.topups[t].status == TopupReview ensures TopupSubject(t) in s'.reviews {
      ReviewStaysOpen(s, step, t);
    }
  }

  lemma ReviewStaysOpen(s: Tables, step: Step, t: TopupId)
    requires Inv(s) && ReviewsOpen(s) && t < |Apply(s, step).topups| && Apply(s, step).topups[t].status == TopupReview
    ensures TopupSubject(t) in Apply(s, step).reviews
  {
    TopupLife(s, step, PayClaim(t, 0, 0));
    if s.topups[t].status == TopupReview {
      assert Lost(s, t);
      LostEndsIffOwnerDecides(s, step, t);
      if OwnerDecides(s, step, t) { DecidedEnds(s, t, step.decision.verdict); }
    }
    else if step.Answer? { AnswerOpens(s, step.pay, step.reply, step.delay, t); }
    else { MaintainOpens(s, t); }
  }

  /** In every reachable state a top-up in review has an open review, so it is lost in
      the sense above and the owner can end it. */
  lemma {:induction false} ReviewedHaveReviews(promotions: map<PromotionId, Promotion>, steps: seq<Step>)
    requires TiersOk(promotions)
    ensures ReviewsOpen(Run(Opening(promotions), steps))
    decreases |steps|
  {
    if steps != [] {
      var before, last := steps[..|steps| - 1], steps[|steps| - 1];
      assert before + [last] == steps;
      RunAgain(Opening(promotions), before, last);
      ReachableInv(promotions, before);
      ReviewedHaveReviews(promotions, before);
      StepKeepsReviewsOpen(Run(Opening(promotions), before), last);
    }
  }

  // ---------------------------------------------------------------- failing after sending

  /** The step records a failure for this payment under its live lease: the worker's own
      error, or "rate limited" at the last attempt. */
  predicate RecordsFailure(s: Tables, step: Step, t: TopupId) {
    && step.Answer? && step.pay.topup == t && Plausible(s, step.pay, step.reply) && OwnsPayment(s, step.pay)
    && (step.reply.LocalFailure? || (step.reply.SaysRateLimited? && step.pay.token == MaxAttempts))
  }

  lemma AnswerFails(s: Tables, c: PayClaim, r: Reply, delay: nat, t: TopupId)
    requires PaymentAt(s, t) && t < |s.topups| && s.topups[t].status == Processing && LatestMaybePaid(s.topups[t])
    requires Plausible(s, c, r) && RecordResult(s, c, r, delay).Ok?
    ensures var s' := RecordResult(s, c, r, delay).value;
            t < |s'.topups| && (s'.topups[t].status == TopupFailed <==> RecordsFailure(s, Answer(c, r, delay), t))
  {}

  lemma FailureEffect(s: Tables, c: PayClaim, r: Reply, delay: nat)
    requires RecordsFailure(s, Answer(c, r, delay), c.topup)
    requires PaymentAt(s, c.topup) && s.topups[c.topup].status == Processing
    ensures var o := RecordResult(s, c, r, delay);
            && o.Ok? && o.value == s.(topups := o.value.topups)
            && c.topup < |o.value.topups| && o.value.topups[c.topup].status == TopupFailed
  {}

  /** A payment that may have gone out ends FAILED exactly when its live worker records an
      error of its own, or "rate limited" at the last attempt; then nothing is credited
      and no review is opened. */
  lemma SentPaymentFailsIff(s: Tables, step: Step, t: TopupId)
    requires Inv(s) && t < |s.topups| && s.topups[t].status == Processing && LatestMaybePaid(s.topups[t])
    ensures var s' := Apply(s, step);
            && t < |s'.topups| && (s'.topups[t].status == TopupFailed <==> RecordsFailure(s, step, t))
            && (RecordsFailure(s, step, t) ==> s'.bank == s.bank && s'.reviews == s.reviews && s'.usages == s.usages)
  {
    PaymentRow(s, t);
    if RecordsFailure(s, step, t) {
      FailureEffect(s, step.pay, step.reply, step.delay);
      assert Apply(s, step) == RecordResult(s, step.pay, step.reply, step.delay).value;
    } else if step.Answer? && Try(s, step).Ok? {
      AnswerFails(s, step.pay, step.reply, step.delay, t);
      assert Apply(s, step) == RecordResult(s, step.pay, step.reply, step.delay).value;
    } else {
      OthersDoNotFail(s, step, t);
    }
  }

  lemma OthersDoNotFail(s: Tables, step: Step, t: TopupId)
    requires Inv(s) && t < |s.topups| && s.topups[t].status == Processing && !(step.Answer? && Try(s, step).Ok?)
    ensures t < |Apply(s, step).topups| && Apply(s, step).topups[t].status != TopupFailed
  {
    TopupLife(s, step, PayClaim(t, 0, 0));
  }

  /** An input: the provider redeemed the voucher, but under a transaction id that another
      top-up carries. Recording the result is refused, the worker records its own failure
      instead, and the spent voucher is neither credited nor reviewed. */
  lemma {:induction false} RedeemedButFailed(s: Tables, c: PayClaim, amount: nat, provider: string, delay: nat)
    requires Inv(s) && OwnsPayment(s, c) && s.topups[c.topup].status == Processing && c.token in s.topups[c.topup].log
    requires ProviderUsed(s, c.topup, provider)
    ensures Try(s, Answer(c, SaysRedeemed(amount, Some(provider)), delay)) == Err(UniqueViolation)
    ensures var s' := Apply(s, Answer(c, LocalFailure, delay));
            && s' == s.(topups := s'.topups) && c.topup < |s'.topups| && s'.topups[c.topup].status == TopupFailed
  {
    PaymentRow(s, c.topup);
  }

  // ---------------------------------------------------------------- redeemed rows

  /** `creditRedeemedTopup` itself would credit a top-up in review that carries an amount,
      without its owner; its callers only pass rows they saw REDEEMED. */
  lemma ReviewedCreditableIff(s: Tables, t: TopupId)
    requires Inv(s) && t < |s.topups| && s.topups[t].status == TopupReview
    ensures CreditRedeemedTopup(s, t).Ok? <==> s.topups[t].amount.Some? && s.topups[t].thb
    ensures Try(s, Step.Credit(t)).Err?
  {
    AllAspects(s);
    assert MoneyAt(s, s.topups[t].user, ForAdjustment, 0);
    BalancesNonnegative(s, s.topups[t].user);
  }
}
