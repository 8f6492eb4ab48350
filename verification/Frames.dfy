/** The inductive invariant of the shop, and the frame lemmas that say which
    part of it a step can touch. */
module Frames {
  import opened Common
  import opened Ledger
  import opened Schema
  import opened Wallet
  import opened Money
  import opened Promotions
  import opened Settlement
  import opened WalletLaws
  import opened Runner
  import opened Lockstep
  import opened Payments

  /** Refunds stand only on captured items; customers with orders are known to the
      scheduler. */
  predicate RegistryAt(s: Tables, k: nat) {
    && (k in s.refunds ==> HasReservation(s, k) && s.items[k].reservation.value.state == ReservationState.Captured)
    && (k < |s.orders| ==> s.orders[k].user in s.scheduler)
  }

  ghost predicate RegistryOk(s: Tables) {
    forall k: nat :: RegistryAt(s, k)
  }

  ghost predicate BonusOk(s: Tables) {
    TiersOk(s.promotions) && CapsOk(s.promotions, s.usages) && BonusesOk(s)
  }

  datatype Aspect = MoneyAspect | SettlementAspect | LockstepAspect | PaymentAspect | BonusAspect | RegistryAspect

  ghost predicate Holds(s: Tables, a: Aspect) {
    match a
    case MoneyAspect => MoneyOk(s)
    case SettlementAspect => SettlementOk(s)
    case LockstepAspect => LockstepOk(s)
    case PaymentAspect => PaymentsOk(s)
    case BonusAspect => BonusOk(s)
    case RegistryAspect => RegistryOk(s)
  }

  /** The invariant of every reachable state. */
  ghost predicate Inv(s: Tables) {
    forall a: Aspect :: Holds(s, a)
  }

  /** What a step may never undo: a settled reservation stays as it is, fencing
      tokens never go down, a confirmed session stays confirmed. */
  predicate KeptAt(s: Tables, s': Tables, k: nat) {
    && |s.items| <= |s'.items| && s'.promotions == s.promotions
    && (k < |s.items| && s.items[k].reservation.Some? ==>
          s'.items[k].reservation.Some?
          && (SettledState(s.items[k].reservation.value) ==> s'.items[k].reservation == s.items[k].reservation))
    && (k in s.jobs ==> k in s'.jobs && s.jobs[k].token <= s'.jobs[k].token)
    && (k < |s.topups| ==> k < |s'.topups| && s.topups[k].token <= s'.topups[k].token
                           && s'.topups[k].user == s.topups[k].user)
    && (k in s.sessions && s.sessions[k].state == Confirmed ==> k in s'.sessions && s'.sessions[k].state == Confirmed)
  }

  ghost predicate Kept(s: Tables, s': Tables) {
    forall k: nat :: KeptAt(s, s', k)
  }

  ghost predicate Good(s: Tables, s': Tables) {
    Inv(s') && Kept(s, s') && s.clock <= s'.clock
  }

  // ---------------------------------------------------------------- frames

  /** Steps of the runner, of maintenance and of administrators: they move items
      between non-terminal states and touch no money. */
  predicate RunnerStepAt(s: Tables, s': Tables, k: nat) {
    && s' == s.(clock := s'.clock, items := s'.items, jobs := s'.jobs, scheduler := s'.scheduler, reviews := s'.reviews)
    && s.clock <= s'.clock && |s'.items| == |s.items| && s.scheduler.Keys <= s'.scheduler.Keys
    && (k < |s.items| ==> StageMovedAt(s.items, s'.items, k))
    && (k in s.jobs ==> k in s'.jobs && s.jobs[k].token <= s'.jobs[k].token)
  }

  ghost predicate RunnerStep(s: Tables, s': Tables) {
    forall k: nat :: RunnerStepAt(s, s', k)
  }

  lemma StagesMovedMoney(s: Tables, s': Tables)
    requires MoneyOk(s) && StagesMoved(s, s') && s'.bank == s.bank && s.clock <= s'.clock
    requires s'.refunds == s.refunds && s'.topups == s.topups
    ensures MoneyOk(s')
  {
    forall v: UserId ensures ReservedSum(s'.items, v) == ReservedSum(s.items, v) {
      forall i | 0 <= i < |s.items| ensures s'.items[i].reservation == s.items[i].reservation {
        assert StageMovedAt(s.items, s'.items, i);
      }
      ReservedSumSame(s.items, s'.items, v);
    }
    assert forall i {:trigger s'.items[i]} | 0 <= i < |s.items| :: s'.items[i].reservation == s.items[i].reservation by {
      forall i | 0 <= i < |s.items| ensures s'.items[i].reservation == s.items[i].reservation {
        assert StageMovedAt(s.items, s'.items, i);
      }
    }
    assert forall v: UserId, q: Purpose :: Due(s', v, q) <==> Due(s, v, q);
    assert forall q: Purpose :: Delta(s', q) == Delta(s, q);
    SameMoneyKeeps(s, s');
  }

  lemma PaymentFrame(s: Tables, s': Tables)
    requires PaymentsOk(s) && s'.topups == s.topups
    ensures PaymentsOk(s')
  {
    forall t: TopupId ensures PaymentAt(s', t) { assert PaymentAt(s, t); }
  }

  lemma BonusFrame(s: Tables, s': Tables)
    requires BonusOk(s) && s'.topups == s.topups && s'.promotions == s.promotions && s'.usages == s.usages
    ensures BonusOk(s')
  {
    forall k | 0 <= k < |s'.usages| ensures UsageOk(s', s'.usages[k]) { assert UsageOk(s, s.usages[k]); }
  }

  lemma RegistryFrame(s: Tables, s': Tables)
    requires RegistryOk(s) && s'.refunds == s.refunds && ReservationsKept(s, s') && |s'.orders| == |s.orders|
    requires forall o | 0 <= o < |s.orders| :: s'.orders[o].user == s.orders[o].user
    requires s.scheduler.Keys <= s'.scheduler.Keys
    ensures RegistryOk(s')
  {
    forall k: nat ensures RegistryAt(s', k) { assert RegistryAt(s, k); }
  }

  lemma AllAspects(s: Tables)
    requires Inv(s)
    ensures MoneyOk(s) && SettlementOk(s) && LockstepOk(s) && PaymentsOk(s) && BonusOk(s) && RegistryOk(s)
  {
    assert Holds(s, MoneyAspect) && Holds(s, SettlementAspect) && Holds(s, LockstepAspect);
    assert Holds(s, PaymentAspect) && Holds(s, BonusAspect) && Holds(s, RegistryAspect);
  }

  lemma RunnerStepGood(s: Tables, s': Tables)
    requires Inv(s) && RunnerStep(s, s') && LockstepOk(s')
    ensures Good(s, s')
  {
    AllAspects(s);
    assert RunnerStepAt(s, s', 0);
    forall k | 0 <= k < |s.items| ensures StageMovedAt(s.items, s'.items, k) { assert RunnerStepAt(s, s', k); }
    StagesMovedMoney(s, s');
    StagesMovedKeeps(s, s');
    PaymentFrame(s, s');
    BonusFrame(s, s');
    RegistryFrame(s, s');
    forall a: Aspect ensures Holds(s', a) {}
    forall k: nat ensures KeptAt(s, s', k) { assert RunnerStepAt(s, s', k); }
  }

  /** Steps that change a single top-up outside its credited life. */
  ghost predicate PaymentStep(s: Tables, s': Tables) {
    && s' == s.(topups := s'.topups, reviews := s'.reviews)
    && |s'.topups| == |s.topups|
    && forall t | 0 <= t < |s.topups| ::
         || s'.topups[t] == s.topups[t]
         || (s.topups[t].status !in {Credited, Reversed} && s'.topups[t].status !in {Credited, Reversed}
             && s'.topups[t].user == s.topups[t].user && s.topups[t].token <= s'.topups[t].token)
  }

  lemma PaymentStepMoney(s: Tables, s': Tables)
    requires MoneyOk(s) && PaymentStep(s, s')
    ensures MoneyOk(s')
  {
    assert forall v: UserId, q: Purpose :: Due(s', v, q) <==> Due(s, v, q);
    forall v: UserId, q: Purpose | Due(s, v, q) ensures Delta(s', q) == Delta(s, q) {
      if q.ForCredit? || q.ForReversal? { assert s'.topups[q.topup] == s.topups[q.topup]; }
    }
    SameMoneyKeeps(s, s');
  }

  lemma PaymentStepBonus(s: Tables, s': Tables)
    requires BonusOk(s) && PaymentStep(s, s')
    ensures BonusOk(s')
  {
    forall k | 0 <= k < |s'.usages| ensures UsageOk(s', s'.usages[k]) {
      assert UsageOk(s, s.usages[k]);
      assert s'.topups[s.usages[k].topup] == s.topups[s.usages[k].topup];
    }
  }

  lemma PaymentStepGood(s: Tables, s': Tables)
    requires Inv(s) && PaymentStep(s, s') && PaymentsOk(s')
    ensures Good(s, s')
  {
    AllAspects(s);
    PaymentStepMoney(s, s');
    PaymentStepBonus(s, s');
    SettlementFrame(s, s');
    LockstepFrame(s, s');
    RegistryFrame(s, s');
    forall a: Aspect ensures Holds(s', a) {}
    forall k: nat ensures KeptAt(s, s', k) {}
  }

  /** Steps that only touch sessions or the clock. */
  lemma SessionStepGood(s: Tables, s': Tables)
    requires Inv(s) && s.clock <= s'.clock && s' == s.(clock := s'.clock, sessions := s'.sessions)
    requires forall k | k in s.sessions && s.sessions[k].state == Confirmed ::
               k in s'.sessions && s'.sessions[k].state == Confirmed
    ensures Good(s, s')
  {
    AllAspects(s);
    StagesMovedMoney(s, s');
    SettlementFrame(s, s');
    LockstepFrame(s, s');
    PaymentFrame(s, s');
    BonusFrame(s, s');
    RegistryFrame(s, s');
    forall a: Aspect ensures Holds(s', a) {}
    forall k: nat ensures KeptAt(s, s', k) {}
  }

  lemma NothingChanged(s: Tables)
    requires Inv(s)
    ensures Good(s, s)
  {
    forall k: nat ensures KeptAt(s, s, k) {}
  }
}
