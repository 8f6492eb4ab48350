/** Money steps, top-up decisions and pruning keep the invariant. */
module MoneySteps {
  import opened Common
  import opened Ledger
  import opened Schema
  import opened Wallet
  import opened Money
  import opened Promotions
  import opened Settlement
  import opened WalletLaws
  import opened Runner
  import opened Recovery
  import opened Lockstep
  import opened Payments
  import opened Retention
  import opened Frames

  lemma GoodTransitive(a: Tables, b: Tables, c: Tables)
    requires Good(a, b) && Good(b, c)
    ensures Good(a, c)
  {
    forall k: nat ensures KeptAt(a, c, k) { assert KeptAt(a, b, k) && KeptAt(b, c, k); }
  }

  lemma FromAspects(s: Tables)
    requires MoneyOk(s) && SettlementOk(s) && LockstepOk(s) && PaymentsOk(s) && BonusOk(s) && RegistryOk(s)
    ensures Inv(s)
  {
    forall a: Aspect ensures Holds(s, a) {}
  }

  // ---------------------------------------------------------------- settlement

  /** What settling may touch: the bank, items, orders, account locks and jobs. */
  ghost predicate SettlingStep(s: Tables, s': Tables) {
    && s' == s.(bank := s'.bank, items := s'.items, orders := s'.orders, locks := s'.locks, jobs := s'.jobs)
    && (forall i | i in s.jobs :: i in s'.jobs && s.jobs[i].token <= s'.jobs[i].token)
    && |s'.orders| == |s.orders|
    && forall o | 0 <= o < |s.orders| :: s'.orders[o].user == s.orders[o].user
  }

  lemma SettlingGood(s: Tables, s': Tables)
    requires Inv(s) && SettlingStep(s, s')
    requires MoneyOk(s') && SettlementOk(s') && LockstepOk(s') && ReservationsKept(s, s')
    ensures Good(s, s')
  {
    AllAspects(s);
    PaymentFrame(s, s');
    BonusFrame(s, s');
    RegistryFrame(s, s');
    FromAspects(s');
    forall k: nat ensures KeptAt(s, s', k) {}
  }

  lemma CaptureIsSettling(s: Tables, i: ItemId, fence: Option<Claim>, ctx: Context)
    requires CaptureReservation(s, i, fence, ctx).Ok?
    ensures SettlingStep(s, CaptureReservation(s, i, fence, ctx).value)
  {
    CaptureEffect(s, i, fence, ctx);
  }

  lemma ReleaseIsSettling(s: Tables, i: ItemId, terminal: Stage, fence: Option<Claim>, ctx: Context)
    requires ReleaseReservation(s, i, terminal, fence, ctx).Ok?
    ensures SettlingStep(s, ReleaseReservation(s, i, terminal, fence, ctx).value)
  {
    ReleaseEffect(s, i, terminal, fence, ctx);
  }

  lemma CaptureGood(s: Tables, i: ItemId, fence: Option<Claim>, ctx: Context)
    requires Inv(s) && CaptureReservation(s, i, fence, ctx).Ok?
    ensures Good(s, CaptureReservation(s, i, fence, ctx).value)
  {
    AllAspects(s);
    CaptureKeepsMoney(s, i, fence, ctx);
    CaptureKeepsSettlement(s, i, fence, ctx);
    CaptureKeeps(s, i, fence, ctx);
    CaptureIsSettling(s, i, fence, ctx);
    SettlingGood(s, CaptureReservation(s, i, fence, ctx).value);
  }

  lemma ReleaseGood(s: Tables, i: ItemId, terminal: Stage, fence: Option<Claim>, ctx: Context)
    requires Inv(s) && ReleaseReservation(s, i, terminal, fence, ctx).Ok?
    ensures Good(s, ReleaseReservation(s, i, terminal, fence, ctx).value)
  {
    AllAspects(s);
    ReleaseKeepsMoney(s, i, terminal, fence, ctx);
    ReleaseKeepsSettlement(s, i, terminal, fence, ctx);
    ReleaseKeeps(s, i, terminal, fence, ctx);
    ReleaseIsSettling(s, i, terminal, fence, ctx);
    SettlingGood(s, ReleaseReservation(s, i, terminal, fence, ctx).value);
  }

  // ---------------------------------------------------------------- refund, adjust, prune

  /** Steps that only write the bank and the refund table. */
  lemma BankStepGood(s: Tables, s': Tables)
    requires Inv(s) && s' == s.(bank := s'.bank, refunds := s'.refunds) && MoneyOk(s')
    requires forall i: nat :: RegistryAt(s', i)
    ensures Good(s, s')
  {
    AllAspects(s);
    SettlementFrame(s, s');
    LockstepFrame(s, s');
    PaymentFrame(s, s');
    BonusFrame(s, s');
    FromAspects(s');
    forall k: nat ensures KeptAt(s, s', k) {}
  }

  lemma RefundGood(s: Tables, i: ItemId, reason: string, expected: Option<nat>)
    requires Inv(s) && RefundCapturedItem(s, i, reason, expected).Ok?
    ensures Good(s, RefundCapturedItem(s, i, reason, expected).value)
  {
    AllAspects(s);
    RefundKeepsMoney(s, i, reason, expected);
    var s' := RefundCapturedItem(s, i, reason, expected).value;
    forall k: nat ensures RegistryAt(s', k) { assert RegistryAt(s, k); }
    BankStepGood(s, s');
  }

  lemma AdjustGood(s: Tables, u: UserId, amount: int, reason: string, ctx: Context)
    requires Inv(s) && AdjustBalance(s, u, amount, reason, ctx).Ok?
    ensures Good(s, AdjustBalance(s, u, amount, reason, ctx).value)
  {
    AllAspects(s);
    AdjustKeepsMoney(s, u, amount, reason, ctx);
    var s' := AdjustBalance(s, u, amount, reason, ctx).value;
    forall k: nat ensures RegistryAt(s', k) { assert RegistryAt(s, k); }
    BankStepGood(s, s');
  }

  lemma SameMeaningMoney(s: Tables, s': Tables)
    requires MoneyOk(s) && s' == s.(bank := s'.bank) && SameMeaning(s.bank, s'.bank) && BankOk(s'.bank, s.clock)
    ensures MoneyOk(s')
  {
    MoneyParts(s);
    forall u: UserId ensures ReservedOf(s', u) { assert ReservedOf(s, u); }
    forall u: UserId, q: Purpose | q != ForAdjustment ensures PostedAsDue(s', u, q) {
      assert PostedAsDue(s, u, q);
      assert Due(s', u, q) <==> Due(s, u, q);
    }
    forall u: UserId, i: nat ensures RightRow(s', u, i) { assert RightRow(s, u, i); }
    MoneyParts(s');
  }

  lemma PruneGood(s: Tables, order: seq<UserId>, cutoff: nat, limit: int)
    requires Inv(s) && PruneTables(s, order, cutoff, limit).Ok?
    ensures Good(s, PruneTables(s, order, cutoff, limit).value)
  {
    AllAspects(s);
    MoneyParts(s);
    PruneKeepsMeaning(s.bank, order, cutoff, limit, HeldUsers(s), s.refunds.Values, s.clock);
    var s' := PruneTables(s, order, cutoff, limit).value;
    SameMeaningMoney(s, s');
    forall k: nat ensures RegistryAt(s', k) { assert RegistryAt(s, k); }
    BankStepGood(s, s');
  }

  // ---------------------------------------------------------------- top-ups

  /** Steps that write the bank, reviews, usages and one top-up row. */
  lemma TopupStepGood(s: Tables, s': Tables, t: TopupId)
    requires Inv(s) && t < |s.topups| && MoneyOk(s') && BonusOk(s') && PaymentAt(s', t)
    requires s' == s.(bank := s'.bank, usages := s'.usages, topups := s'.topups, reviews := s'.reviews)
    requires |s'.topups| == |s.topups| && s'.topups == s.topups[t := s'.topups[t]]
    requires s'.topups[t].user == s.topups[t].user && s.topups[t].token <= s'.topups[t].token
    ensures Good(s, s')
  {
    AllAspects(s);
    SettlementFrame(s, s');
    LockstepFrame(s, s');
    RegistryFrame(s, s');
    forall k: TopupId ensures PaymentAt(s', k) { assert PaymentAt(s, k); }
    FromAspects(s');
    forall k: nat ensures KeptAt(s, s', k) {}
  }

  lemma CreditGood(s: Tables, t: TopupId)
    requires Inv(s) && CreditRedeemedTopup(s, t).Ok?
    ensures Good(s, CreditRedeemedTopup(s, t).value)
  {
    AllAspects(s);
    CreditKeepsMoney(s, t);
    CreditKeepsBonuses(s, t);
    assert PaymentAt(s, t);
    TopupStepGood(s, CreditRedeemedTopup(s, t).value, t);
  }

  /** A reversal is refused, opens a review, or only changes the top-up's status. */
  lemma ReverseEffect(s: Tables, t: TopupId, reason: string)
    requires ReverseTopup(s, t, reason).Ok?
    ensures t < |s.topups|
    ensures var s' := ReverseTopup(s, t, reason).value;
            || s' == s.(reviews := s'.reviews)
            || (s.topups[t].status == Credited
                && s' == s.(bank := s'.bank, topups := s.topups[t := s.topups[t].(status := Reversed)]))
  {}

  lemma ReversedKeepsBonuses(s: Tables, s': Tables, t: TopupId)
    requires BonusOk(s) && t < |s.topups| && s.topups[t].status == Credited
    requires s' == s.(bank := s'.bank, topups := s.topups[t := s.topups[t].(status := Reversed)])
    ensures BonusOk(s')
  {
    forall k | 0 <= k < |s'.usages| ensures UsageOk(s', s'.usages[k]) { assert UsageOk(s, s.usages[k]); }
  }

  lemma ReviewStepGood(s: Tables, s': Tables)
    requires Inv(s) && s' == s.(reviews := s'.reviews)
    ensures Good(s, s')
  {
    AllAspects(s);
    forall t: TopupId ensures PaymentAt(s', t) { assert PaymentAt(s, t); }
    PaymentStepGood(s, s');
  }

  lemma ReverseGood(s: Tables, t: TopupId, reason: string)
    requires Inv(s) && ReverseTopup(s, t, reason).Ok?
    ensures Good(s, ReverseTopup(s, t, reason).value)
  {
    var s' := ReverseTopup(s, t, reason).value;
    ReverseEffect(s, t, reason);
    if s' == s.(reviews := s'.reviews) {
      ReviewStepGood(s, s');
    } else {
      AllAspects(s);
      assert PaymentAt(s, t);
      ReverseKeepsMoney(s, t, reason);
      ReversedKeepsBonuses(s, s', t);
      TopupStepGood(s, s', t);
    }
  }

  // ---------------------------------------------------------------- payments

  lemma PaymentStepAt(s: Tables, s': Tables, t: TopupId)
    requires Inv(s) && t < |s.topups| && PaymentAt(s', t)
    requires |s'.topups| == |s.topups| && s' == s.(topups := s.topups[t := s'.topups[t]], reviews := s'.reviews)
    requires s.topups[t].status !in {Credited, Reversed} && s'.topups[t].status !in {Credited, Reversed}
    requires s'.topups[t].user == s.topups[t].user && s.topups[t].token <= s'.topups[t].token
    ensures Good(s, s')
  {
    AllAspects(s);
    forall k: TopupId ensures PaymentAt(s', k) { assert PaymentAt(s, k); }
    PaymentStepGood(s, s');
  }
}
