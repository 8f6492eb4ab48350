/** What each money transaction is admitted for, which cents it moves and which ledger row it
    writes, with states and numbers written out. */
module MoneyEffects {
  import opened Common
  import opened Ledger
  import opened Schema
  import opened Wallet
  import opened Money
  import opened Promotions
  import opened Settlement
  import opened WalletLaws
  import opened Runner
  import opened Recovery
  import opened Payments
  import opened Machine
  import opened Frames
  import opened Lockstep
  import opened MoneySteps
  import opened PaymentSteps
  import opened Safety
  import PaymentEffects
  import RunnerEffects

  predicate Stated(reason: string) {
    exists c | c in reason :: c != ' ' && c != '\t' && c != '\n' && c != '\r'
  }

  /** One new row at the end of a ledger, saying this. */
  predicate RowAdded(es: seq<Entry>, es': seq<Entry>, p: Posting, now: nat) {
    && |es'| == |es| + 1 && es'[..|es|] == es
    && var e := es'[|es|]; Posting(e.kind, e.deltaAvailable, e.deltaReserved, e.reference, e.key) == p && e.created == now
  }

  /** One wallet moves and its ledger gets the row for it; every other is as it was. */
  ghost predicate Moves(b: Bank, b': Bank, u: UserId, p: Posting, now: nat) {
    && WalletOf(b', u) == Balance(WalletOf(b, u).available + p.deltaAvailable, WalletOf(b, u).reserved + p.deltaReserved)
    && RowAdded(BookOf(b, u).entries, BookOf(b', u).entries, p, now)
    && forall v: UserId | v != u :: WalletOf(b', v) == WalletOf(b, v) && BookOf(b', v) == BookOf(b, v)
  }

  lemma FreshMoves(s: Tables, u: UserId, p: Posting)
    requires MoneyOk(s) && !KeyUsed(s.bank, p.key)
    ensures Post(s.bank, u, p, s.clock).Ok? <==> WalletOf(s.bank, u).available + p.deltaAvailable >= 0
                                                 && WalletOf(s.bank, u).reserved + p.deltaReserved >= 0
    ensures Post(s.bank, u, p, s.clock).Ok? ==> Moves(s.bank, Post(s.bank, u, p, s.clock).value, u, p, s.clock)
  {
    MoneyParts(s);
    if Post(s.bank, u, p, s.clock).Ok? { PostKeepsBank(s.bank, u, p, s.clock); }
  }

  lemma PostMoves(s: Tables, u: UserId, p: Posting)
    requires MoneyOk(s) && PurposeOf(p.key) != ForAdjustment && forall v: UserId :: !Due(s, v, PurposeOf(p.key))
    ensures Post(s.bank, u, p, s.clock).Ok? <==> WalletOf(s.bank, u).available + p.deltaAvailable >= 0
                                                 && WalletOf(s.bank, u).reserved + p.deltaReserved >= 0
    ensures Post(s.bank, u, p, s.clock).Ok? ==> Moves(s.bank, Post(s.bank, u, p, s.clock).value, u, p, s.clock)
  {
    MoneyParts(s);
    NotDueIsFresh(s, p.key);
    FreshMoves(s, u, p);
  }

  // ---------------------------------------------------------------- crediting

  /** The day a promotion counts: days begin at midnight seven hours ahead of UTC, and are
      24 hours long. */
  lemma SameBangkokDayIff(a: nat, b: nat)
    ensures BangkokDay(a) == BangkokDay(b) <==>
              exists day: int :: day * 86400 - 25200 <= a < (day + 1) * 86400 - 25200 && day * 86400 - 25200 <= b < (day + 1) * 86400 - 25200
  {
    var d := BangkokDay(a);
    assert d * 86400 <= a + 25200 < (d + 1) * 86400;
    if BangkokDay(b) == d { assert d * 86400 - 25200 <= b < (d + 1) * 86400 - 25200; }
    if day: int :| day * 86400 - 25200 <= a < (day + 1) * 86400 - 25200 && day * 86400 - 25200 <= b < (day + 1) * 86400 - 25200 {
      assert day == d;
    }
  }

  /** The bonus a top-up of this amount brings now. */
  function BonusOf(s: Tables, p: Topup, amount: nat): Bonus {
    ResolvePromotionBonus(s.promotions, s.usages, p.promotion, p.user, amount, (s.clock + 25200) / 86400)
  }

  /** Principal and bonus reach the top-up's own user, under one ledger row; the bonus is
      recorded for its promotion and day. */
  ghost predicate CreditedTo(s: Tables, s': Tables, t: TopupId, p: Topup, a: nat) {
    var bonus := BonusOf(s, p, a);
    && t < |s.topups| && (bonus.eligible ==> p.promotion.Some?)
    && Moves(s.bank, s'.bank, p.user, Posting(TopupCredit, a + bonus.cents, 0, TopupRef(t), CreditKey(t)), s.clock)
    && s'.topups == s.topups[t := p.(status := Credited, bonus := bonus.cents, lease := None)]
    && s'.usages == if bonus.eligible
                    then s.usages + [Usage(t, p.promotion.value, p.user, (s.clock + 25200) / 86400, a, bonus.cents)] else s.usages
  }

  /** A redeemed top-up in THB, and no other, is credited. */
  lemma RedeemedIsCredited(s: Tables, t: TopupId)
    requires Inv(s) && t < |s.topups| && s.topups[t].status == Redeemed
    ensures s.topups[t].amount.Some?
    ensures var o, p := Try(s, Step.Credit(t)), s.topups[t];
            && (o.Ok? <==> p.thb)
            && (o.Ok? ==> CreditedTo(s, o.value, t, p, p.amount.value)
                          && o.value == s.(bank := o.value.bank, topups := o.value.topups, usages := o.value.usages))
  {
    AllAspects(s);
    PaymentRow(s, t);
    NotRecordedYet(s, t);
    CreditMoves(s, t);
    CreditIsStep(s, t);
  }

  lemma CreditIsStep(s: Tables, t: TopupId)
    requires t < |s.topups| && s.topups[t].status in {Redeemed, Credited, Reversed}
    ensures Try(s, Step.Credit(t)) == CreditRedeemedTopup(s, t)
  {}

  lemma NotRecordedYet(s: Tables, t: TopupId)
    requires BonusesOk(s) && t < |s.topups| && s.topups[t].status !in {Credited, Reversed}
    ensures !HasUsage(s.usages, t)
  {
    forall k | 0 <= k < |s.usages| ensures s.usages[k].topup != t { assert UsageOk(s, s.usages[k]); }
  }

  lemma CreditMoves(s: Tables, t: TopupId)
    requires MoneyOk(s) && t < |s.topups| && s.topups[t].status == Redeemed && s.topups[t].amount.Some?
    requires !HasUsage(s.usages, t)
    ensures var o, p := CreditRedeemedTopup(s, t), s.topups[t];
            && (o.Ok? <==> p.thb)
            && (o.Ok? ==> CreditedTo(s, o.value, t, p, p.amount.value)
                          && o.value == s.(bank := o.value.bank, topups := o.value.topups, usages := o.value.usages))
  {
    var a, p := s.topups[t].amount.value, s.topups[t];
    var bonus := BonusOf(s, p, a);
    CreditingMoves(s, t, a, (s.clock + 25200) / 86400, bonus);
    assert p.thb ==> CreditRedeemedTopup(s, t) == Crediting(s, t, a, (s.clock + 25200) / 86400, bonus);
  }

  lemma CreditingMoves(s: Tables, t: TopupId, a: nat, day: nat, bonus: Bonus)
    requires MoneyOk(s) && t < |s.topups| && s.topups[t].status !in {Credited, Reversed} && !HasUsage(s.usages, t)
    requires bonus.eligible ==> s.topups[t].promotion.Some?
    ensures var o, p := Crediting(s, t, a, day, bonus), s.topups[t];
            && o.Ok?
            && Moves(s.bank, o.value.bank, p.user, Posting(TopupCredit, a + bonus.cents, 0, TopupRef(t), CreditKey(t)), s.clock)
            && o.value == s.(bank := o.value.bank,
                             topups := s.topups[t := p.(status := Credited, bonus := bonus.cents, lease := None)],
                             usages := if bonus.eligible
                                       then s.usages + [Usage(t, p.promotion.value, p.user, day, a, bonus.cents)] else s.usages)
  {
    BalancesNonnegative(s, s.topups[t].user);
    PostMoves(s, s.topups[t].user, CreditPosting(t, a + bonus.cents));
  }

  /** A row once credited, or reversed since, is not credited again. */
  lemma CreditedOnceOnly(s: Tables, t: TopupId)
    requires t < |s.topups| && s.topups[t].status in {Credited, Reversed}
    ensures Apply(s, Step.Credit(t)) == s
  {
    CreditIsStep(s, t);
  }

  /** From the provider's answer to the wallet: what it said the voucher was worth, and the
      bonus for it, is what the customer gets. */
  lemma AnswerReachesWallet(s: Tables, c: PayClaim, amount: nat, provider: string, delay: nat)
    requires Inv(s) && PaymentEffects.Paying(s, c) && c.token in s.topups[c.topup].log
    requires forall k | 0 <= k < |s.topups| && k != c.topup :: s.topups[k].provider != Some(provider)
    ensures var t, u := c.topup, s.topups[c.topup].user;
            var s1 := Apply(s, Answer(c, SaysRedeemed(amount, Some(provider)), delay));
            var s2 := Apply(s1, Step.Credit(t));
            && t < |s1.topups| && s1.topups[t].status == Redeemed && s1.topups[t].amount == Some(amount)
            && s1.topups[t].provider == Some(provider) && s1.topups[t].thb && s1.bank == s.bank
            && t < |s2.topups| && s2.topups[t].status == Credited && s2.topups[t].amount == Some(amount)
            && WalletOf(s2.bank, u) == Balance(WalletOf(s.bank, u).available + amount + s2.topups[t].bonus, WalletOf(s.bank, u).reserved)
            && s2.topups[t].bonus == BonusOf(s, s.topups[t], amount).cents
  {
    var r := SaysRedeemed(amount, Some(provider));
    PaymentEffects.AnswerRecorded(s, c, r, delay);
    StepGood(s, Answer(c, r, delay));
    AnsweredIsCredited(s, Apply(s, Answer(c, r, delay)), c.topup, amount);
  }

  lemma AnsweredIsCredited(s: Tables, s1: Tables, t: TopupId, amount: nat)
    requires Inv(s1) && t < |s.topups| == |s1.topups| && s1.topups[t].status == Redeemed && s1.topups[t].thb
    requires s1.topups[t].amount == Some(amount) && s1.topups[t].user == s.topups[t].user
    requires s1.topups[t].promotion == s.topups[t].promotion
    requires s1.bank == s.bank && s1.promotions == s.promotions && s1.usages == s.usages && s1.clock == s.clock
    ensures var s2, u := Apply(s1, Step.Credit(t)), s.topups[t].user;
            && t < |s2.topups| && s2.topups[t].status == Credited && s2.topups[t].amount == Some(amount)
            && WalletOf(s2.bank, u) == Balance(WalletOf(s.bank, u).available + amount + s2.topups[t].bonus, WalletOf(s.bank, u).reserved)
            && s2.topups[t].bonus == BonusOf(s, s.topups[t], amount).cents
  {
    RedeemedIsCredited(s1, t);
    CreditCarried(s, s1, Apply(s1, Step.Credit(t)), t, amount);
  }

  lemma CreditCarried(s: Tables, s1: Tables, s2: Tables, t: TopupId, amount: nat)
    requires t < |s.topups| == |s1.topups| && CreditedTo(s1, s2, t, s1.topups[t], amount)
    requires s1.topups[t].amount == Some(amount) && s1.topups[t].user == s.topups[t].user
    requires s1.topups[t].promotion == s.topups[t].promotion
    requires s1.bank == s.bank && s1.promotions == s.promotions && s1.usages == s.usages && s1.clock == s.clock
    ensures var u := s.topups[t].user;
            && t < |s2.topups| && s2.topups[t].status == Credited && s2.topups[t].amount == Some(amount)
            && WalletOf(s2.bank, u) == Balance(WalletOf(s.bank, u).available + amount + s2.topups[t].bonus, WalletOf(s.bank, u).reserved)
            && s2.topups[t].bonus == BonusOf(s, s.topups[t], amount).cents
  {}

  // ---------------------------------------------------------------- reversing

  /** A credited top-up is taken back whole, if the wallet has it; otherwise the owner is
      asked. */
  ghost predicate TakenBack(s: Tables, s': Tables, t: TopupId, total: nat)
    requires t < |s.topups|
  {
    var p := s.topups[t];
    if WalletOf(s.bank, p.user).available < total
    then s' == s.(reviews := if TopupSubject(t) in s.reviews then s.reviews else s.reviews[TopupSubject(t) := Review(Open, 1, true)])
    else Moves(s.bank, s'.bank, p.user, Posting(TopupReversal, 0 - total, 0, TopupRef(t), ReversalKey(t)), s.clock)
         && s' == s.(bank := s'.bank, topups := s.topups[t := p.(status := Reversed)])
  }

  lemma CreditIsReversed(s: Tables, t: TopupId, reason: string)
    requires Inv(s) && t < |s.topups|
    ensures s.topups[t].status == Credited ==> s.topups[t].amount.Some?
    ensures var p, o := s.topups[t], Try(s, Step.Reverse(t, reason));
            && (o.Ok? <==> Stated(reason) && p.status in {Credited, Reversed})
            && (o.Ok? && p.status == Reversed ==> o.value == s)
            && (o.Ok? && p.status == Credited ==> TakenBack(s, o.value, t, p.amount.value + p.bonus))
  {
    PaymentRow(s, t);
    AllAspects(s);
    ReverseMoves(s, t, reason);
    assert Try(s, Step.Reverse(t, reason)) == ReverseTopup(s, t, reason);
  }

  lemma ReverseMoves(s: Tables, t: TopupId, reason: string)
    requires MoneyOk(s) && t < |s.topups| && (s.topups[t].status == Credited ==> s.topups[t].amount.Some?)
    ensures var p, o := s.topups[t], ReverseTopup(s, t, reason);
            && (o.Ok? <==> Stated(reason) && p.status in {Credited, Reversed})
            && (o.Ok? && p.status == Reversed ==> o.value == s)
            && (o.Ok? && p.status == Credited ==> TakenBack(s, o.value, t, p.amount.value + p.bonus))
  {
    var p := s.topups[t];
    ReverseUnfolds(s, t, reason);
    if p.status == Credited { ReversingMoves(s, t, p.amount.value + p.bonus); }
  }

  lemma ReverseUnfolds(s: Tables, t: TopupId, reason: string)
    requires t < |s.topups| && (s.topups[t].status == Credited ==> s.topups[t].amount.Some?)
    ensures var p := s.topups[t];
            if Stated(reason) && p.status == Reversed then ReverseTopup(s, t, reason) == Ok(s)
            else if Stated(reason) && p.status == Credited
            then ReverseTopup(s, t, reason) == Reversing(s, t, p.amount.value + p.bonus)
            else ReverseTopup(s, t, reason).Err?
  {
    assert !Stated(reason) <==> Blank(reason);
  }

  lemma ReversingMoves(s: Tables, t: TopupId, total: nat)
    requires MoneyOk(s) && t < |s.topups| && s.topups[t].status == Credited
    ensures Reversing(s, t, total).Ok? && TakenBack(s, Reversing(s, t, total).value, t, total)
  {
    BalancesNonnegative(s, s.topups[t].user);
    PostMoves(s, s.topups[t].user, ReversalPosting(t, total));
  }
}
