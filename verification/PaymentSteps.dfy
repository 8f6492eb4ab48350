/** Payment dispatch, review decisions, maintenance and checkout keep the invariant. */
module PaymentSteps {
  import opened Common
  import opened Ledger
  import opened Schema
  import opened Wallet
  import opened Money
  import opened Promotions
  import opened Settlement
  import opened WalletLaws
  import opened Runner
  import opened Recovery
  import opened Lockstep
  import opened Payments
  import opened Checkout
  import opened Frames
  import opened RunnerSteps
  import opened MoneySteps

  // ---------------------------------------------------------------- one payment

  /** A new, uncredited top-up row. */
  ghost predicate Submitted(s: Tables, s': Tables) {
    && s' == s.(topups := s'.topups) && |s'.topups| == |s.topups| + 1 && s'.topups[..|s.topups|] == s.topups
    && s'.topups[|s.topups|].status == PaymentQueued
  }

  lemma SubmittedMoney(s: Tables, s': Tables)
    requires MoneyOk(s) && Submitted(s, s')
    ensures MoneyOk(s')
  {
    assert forall t | 0 <= t < |s.topups| :: s'.topups[t] == s.topups[t];
    assert forall v: UserId, q: Purpose :: Due(s', v, q) <==> Due(s, v, q);
    SameMoneyKeeps(s, s');
  }

  lemma SubmittedBonus(s: Tables, s': Tables)
    requires BonusOk(s) && Submitted(s, s')
    ensures BonusOk(s')
  {
    assert forall t | 0 <= t < |s.topups| :: s'.topups[t] == s.topups[t];
    forall k | 0 <= k < |s'.usages| ensures UsageOk(s', s'.usages[k]) { assert UsageOk(s, s.usages[k]); }
  }

  lemma SubmitGood(s: Tables, u: UserId, voucher: nat, blocked: bool, receiver: bool, promotion: Option<PromotionId>)
    requires Inv(s) && SubmitVoucher(s, u, voucher, blocked, receiver, promotion).Ok?
    ensures Good(s, SubmitVoucher(s, u, voucher, blocked, receiver, promotion).value)
  {
    var s' := SubmitVoucher(s, u, voucher, blocked, receiver, promotion).value;
    if s' == s {
      NothingChanged(s);
    } else {
      AllAspects(s);
      SubmittedMoney(s, s');
      SubmittedBonus(s, s');
      SettlementFrame(s, s');
      LockstepFrame(s, s');
      RegistryFrame(s, s');
      forall t: TopupId ensures PaymentAt(s', t) { assert PaymentAt(s, t); }
      FromAspects(s');
      forall k: nat ensures KeptAt(s, s', k) {}
    }
  }

  lemma PaymentRow(s: Tables, t: TopupId)
    requires Inv(s)
    ensures PaymentAt(s, t)
  {
    AllAspects(s);
  }

  lemma ClaimPaymentGood(s: Tables, t: TopupId, holder: WorkerId, ttl: nat)
    requires Inv(s) && AcquirePayment(s, t, holder, ttl).Ok?
    ensures Good(s, AcquirePayment(s, t, holder, ttl).value)
  {
    PaymentRow(s, t);
    PaymentStepAt(s, AcquirePayment(s, t, holder, ttl).value, t);
  }

  lemma RenewPayGood(s: Tables, c: PayClaim, ttl: nat)
    requires Inv(s) && RenewPayment(s, c, ttl).Ok?
    ensures Good(s, RenewPayment(s, c, ttl).value)
  {
    PaymentRow(s, c.topup);
    PaymentStepAt(s, RenewPayment(s, c, ttl).value, c.topup);
  }

  /** The attempt log is read by no other part of the invariant. */
  lemma LogStepGood(s: Tables, t: TopupId, log: map<nat, Dispatch>)
    requires Inv(s) && t < |s.topups|
    requires var s' := s.(topups := s.topups[t := s.topups[t].(log := log)]); PaymentAt(s', t)
    ensures Good(s, s.(topups := s.topups[t := s.topups[t].(log := log)]))
  {
    AllAspects(s);
    var s' := s.(topups := s.topups[t := s.topups[t].(log := log)]);
    assert forall v: UserId, q: Purpose :: Due(s', v, q) <==> Due(s, v, q);
    assert forall q: Purpose :: Delta(s', q) == Delta(s, q);
    SameMoneyKeeps(s, s');
    forall k | 0 <= k < |s'.usages| ensures UsageOk(s', s'.usages[k]) { assert UsageOk(s, s.usages[k]); }
    TopupStepGood(s, s', t);
  }

  lemma RecordAttemptGood(s: Tables, c: PayClaim)
    requires Inv(s) && Issued(s, c) && CreateAttempt(s, c).Ok?
    ensures Good(s, CreateAttempt(s, c).value)
  {
    PaymentRow(s, c.topup);
    LogStepGood(s, c.topup, s.topups[c.topup].log[c.token := IntentRecorded]);
  }

  lemma MarkSentGood(s: Tables, c: PayClaim)
    requires Inv(s)
    ensures Good(s, MarkPossiblySent(s, c))
  {
    PaymentRow(s, c.topup);
    if MarkPossiblySent(s, c) == s { NothingChanged(s); }
    else { LogStepGood(s, c.topup, s.topups[c.topup].log[c.token := PossiblySent]); }
  }

  lemma AnswerGood(s: Tables, c: PayClaim, r: Reply, delay: nat)
    requires Inv(s) && Plausible(s, c, r) && RecordResult(s, c, r, delay).Ok?
    ensures Good(s, RecordResult(s, c, r, delay).value)
  {
    PaymentRow(s, c.topup);
    PaymentStepAt(s, RecordResult(s, c, r, delay).value, c.topup);
  }

  lemma PaymentsRecoveredAt(s: Tables, t: TopupId)
    requires t < |s.topups|
    ensures var s' := RecoverCrashedPayments(s);
            && |s'.topups| == |s.topups|
            && s'.topups[t] == (if PaymentCrashed(s, t) then s.topups[t].(status := TopupReview, lease := None)
                                else if s.topups[t].status == RetryWait && s.topups[t].availableAt <= s.clock
                                then s.topups[t].(status := PaymentQueued) else s.topups[t])
            && (PaymentCrashed(s, t) ==> TopupSubject(t) in s'.reviews)
  {}

  lemma PaymentsRecoveredStep(s: Tables)
    ensures PaymentStep(s, RecoverCrashedPayments(s))
  {
    var s' := RecoverCrashedPayments(s);
    assert |s'.topups| == |s.topups|;
    forall t | 0 <= t < |s.topups|
      ensures s'.topups[t] == s.topups[t]
              || (s.topups[t].status !in {Credited, Reversed} && s'.topups[t].status !in {Credited, Reversed}
                  && s'.topups[t].user == s.topups[t].user && s.topups[t].token <= s'.topups[t].token)
    {
      PaymentsRecoveredAt(s, t);
    }
  }

  lemma RecoverPaymentsGood(s: Tables)
    requires Inv(s)
    ensures Good(s, RecoverCrashedPayments(s))
  {
    AllAspects(s);
    PaymentsRecoveredStep(s);
    forall t: TopupId ensures PaymentAt(RecoverCrashedPayments(s), t) {
      assert PaymentAt(s, t);
      if t < |s.topups| { PaymentsRecoveredAt(s, t); }
    }
    PaymentStepGood(s, RecoverCrashedPayments(s));
  }

  // ---------------------------------------------------------------- maintenance

  lemma MaintainGood(s: Tables)
    requires Inv(s)
    ensures Good(s, MaintenancePass(s))
  {
    var s1 := RequeueExpired(s);
    var s2 := CompleteCaptured(s1);
    var s3 := RecoverCrashed(s2);
    var s4 := RequeueRetries(s3);
    RequeueExpiredGood(s);
    CompleteCapturedGood(s1);
    RecoverCrashedGood(s2);
    RequeueRetriesGood(s3);
    RecoverPaymentsGood(s4);
    GoodTransitive(s, s1, s2);
    GoodTransitive(s, s2, s3);
    GoodTransitive(s, s3, s4);
    GoodTransitive(s, s4, RecoverCrashedPayments(s4));
  }

  // ---------------------------------------------------------------- decisions

  lemma TopupDecisionGood(s: Tables, t: TopupId, d: TopupDecision)
    requires Inv(s) && DecideTopup(s, t, d).Ok?
    ensures Good(s, DecideTopup(s, t, d).value)
  {
    PaymentRow(s, t);
    match d
    case Reject => PaymentStepAt(s, DecideTopup(s, t, d).value, t);
    case CreditIt(confirmed, provider) =>
      var amount := if confirmed.Some? then confirmed.value
                    else if s.topups[t].amount.Some? then s.topups[t].amount.value else 0;
      var mid := s.(topups := s.topups[t := s.topups[t].(status := Redeemed, amount := Some(amount), thb := true,
                                                         provider := Some(provider))]);
      PaymentStepAt(s, mid, t);
      CreditGood(mid, t);
      GoodTransitive(s, mid, DecideTopup(s, t, d).value);
  }

  /** Moving the item to SETTLING breaks the lockstep with a job that has no lease,
      but neither the money nor the settlement part; closing the job restores it. */
  lemma SettlingForCaptureMoney(s: Tables, i: ItemId)
    requires Inv(s) && ItemIn(s, i, ManualReview)
    ensures var mid := SettlingForCapture(s, i);
            MoneyOk(mid) && SettlementOk(mid) && ReservationsKept(s, mid)
  {
    AllAspects(s);
    StagesMovedMoney(s, SettlingForCapture(s, i));
    StagesMovedKeeps(s, SettlingForCapture(s, i));
  }

  lemma CaptureDecisionSettles(s: Tables, i: ItemId, ctx: Context)
    requires Inv(s) && DecideItem(s, i, CaptureIt, ctx).Ok?
    ensures var s' := DecideItem(s, i, CaptureIt, ctx).value;
            MoneyOk(s') && SettlementOk(s') && ReservationsKept(s, s')
  {
    var mid := SettlingForCapture(s, i);
    var captured := CaptureReservation(mid, i, None, ctx).value;
    SettlingForCaptureMoney(s, i);
    CaptureKeepsMoney(mid, i, None, ctx);
    CaptureKeepsSettlement(mid, i, None, ctx);
    MoneyFrame(captured, DecideItem(s, i, CaptureIt, ctx).value);
    SettlementFrame(captured, DecideItem(s, i, CaptureIt, ctx).value);
  }

  lemma CaptureDecisionIsSettling(s: Tables, i: ItemId, ctx: Context)
    requires DecideItem(s, i, CaptureIt, ctx).Ok?
    ensures SettlingStep(s, DecideItem(s, i, CaptureIt, ctx).value)
  {
    SettlingForCaptureEffect(s, i);
    CaptureIsSettling(SettlingForCapture(s, i), i, None, ctx);
  }

  lemma CaptureDecisionGood(s: Tables, i: ItemId, ctx: Context)
    requires Inv(s) && DecideItem(s, i, CaptureIt, ctx).Ok?
    ensures Good(s, DecideItem(s, i, CaptureIt, ctx).value)
  {
    assert Holds(s, LockstepAspect);
    CaptureDecisionSettles(s, i, ctx);
    CaptureDecisionKeeps(s, i, ctx);
    CaptureDecisionIsSettling(s, i, ctx);
    SettlingGood(s, DecideItem(s, i, CaptureIt, ctx).value);
  }

  lemma ItemDecisionGood(s: Tables, i: ItemId, d: ItemDecision, ctx: Context)
    requires Inv(s) && DecideItem(s, i, d, ctx).Ok?
    ensures Good(s, DecideItem(s, i, d, ctx).value)
  {
    match d
    case Retry => RetryDecisionGood(s, i, ctx);
    case CaptureIt => CaptureDecisionGood(s, i, ctx);
    case _ =>
      var mid := ReleaseReservation(s, i, ReleaseStage(d), None, ctx).value;
      ReleaseGood(s, i, ReleaseStage(d), None, ctx);
      ForceFailGood(mid, i);
      GoodTransitive(s, mid, ForceFail(mid, i));
  }

  lemma ResolveGood(s: Tables, d: Decision, reason: string, isOwner: bool, expected: Option<nat>, ctx: Context)
    requires Inv(s) && ResolveReview(s, d, reason, isOwner, expected, ctx).Ok?
    ensures Good(s, ResolveReview(s, d, reason, isOwner, expected, ctx).value)
  {
    var s' := ResolveReview(s, d, reason, isOwner, expected, ctx).value;
    match d {
      case ItemCase(i, choice) =>
        var mid := DecideItem(s, i, choice, ctx).value;
        ItemDecisionGood(s, i, choice, ctx);
        ReviewStepGood(mid, s');
        GoodTransitive(s, mid, s');
      case TopupCase(t, verdict) =>
        var mid := DecideTopup(s, t, verdict).value;
        TopupDecisionGood(s, t, verdict);
        ReviewStepGood(mid, s');
        GoodTransitive(s, mid, s');
    }
  }
}
