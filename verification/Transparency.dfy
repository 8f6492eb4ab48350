/** Retention is invisible: a run with prunes and the same run without them go through
    the same states, but for which ledger rows have been archived. */
module Transparency {
  import opened Common
  import opened Ledger
  import opened Schema
  import opened Wallet
  import opened Money
  import opened Promotions
  import opened WalletLaws
  import opened Retention
  import opened Runner
  import Lockstep
  import opened Recovery
  import opened Payments
  import opened Checkout
  import opened Machine
  import opened Frames
  import opened MoneySteps
  import opened PaymentSteps
  import opened CheckoutLaws
  import opened Safety
  import opened LedgerGrowth

  /** The same tables, except that rows of the ledger may be archived in one and not in
      the other. */
  ghost predicate Twins(s: Tables, t: Tables) {
    t == s.(bank := t.bank) && SameMeaning(s.bank, t.bank)
  }

  /** Both committed, and twins again; or both refused alike. */
  ghost predicate TwinOutcomes(o: Outcome<Tables>, p: Outcome<Tables>) {
    if o.Ok? then p.Ok? && Twins(o.value, p.value) else p == o
  }

  // ---------------------------------------------------------------- postings

  lemma SameWallets(b: Bank, c: Bank, u: UserId)
    requires SameMeaning(b, c)
    ensures WalletOf(b, u) == WalletOf(c, u)
  {}

  /** The new row is the same, wherever the chain is cut. */
  lemma SameNewEntry(b: Bank, c: Bank, u: UserId, p: Posting, now: nat)
    requires SameMeaning(b, c) && BankOk(b, now) && BankOk(c, now)
    ensures NewEntry(b, u, p, WalletOf(b, u), now) == NewEntry(c, u, p, WalletOf(c, u), now)
  {
    assert UserBookOk(b, u, now) && UserBookOk(c, u, now);
    LinksToHistory(BookOf(b, u));
    LinksToHistory(BookOf(c, u));
    assert History(BookOf(b, u)) == History(BookOf(c, u));
  }

  lemma PostTwins(b: Bank, c: Bank, u: UserId, p: Posting, now: nat)
    requires SameMeaning(b, c) && BankOk(b, now) && BankOk(c, now) && !KeyUsed(b, p.key) && !KeyUsed(c, p.key)
    ensures var o, q := Post(b, u, p, now), Post(c, u, p, now);
            if o.Ok? then q.Ok? && SameMeaning(o.value, q.value) else q == o
  {
    if Post(b, u, p, now).Ok? {
      PostUnfolds(b, u, p, now);
      PostUnfolds(c, u, p, now);
      SameNewEntry(b, c, u, p, now);
      var e := NewEntry(b, u, p, WalletOf(b, u), now);
      var b', c' := Post(b, u, p, now).value, Post(c, u, p, now).value;
      forall v: UserId ensures History(BookOf(b', v)) == History(BookOf(c', v)) {
        assert History(BookOf(b, v)) == History(BookOf(c, v));
        if v == u {
          assert History(BookOf(b', u)) == History(BookOf(b, u)) + [e];
          assert History(BookOf(c', u)) == History(BookOf(c, u)) + [e];
        }
      }
    }
  }

  /** The guards that make a key fresh do not read the ledger. */
  lemma DuePostTwins(s: Tables, t: Tables, u: UserId, p: Posting)
    requires Twins(s, t) && MoneyOk(s) && MoneyOk(t)
    requires PurposeOf(p.key) != ForAdjustment && forall v: UserId :: !Due(s, v, PurposeOf(p.key))
    ensures var o, q := Post(s.bank, u, p, s.clock), Post(t.bank, u, p, t.clock);
            if o.Ok? then q.Ok? && SameMeaning(o.value, q.value) else q == o
  {
    MoneyParts(s);
    MoneyParts(t);
    assert forall v: UserId :: Due(t, v, PurposeOf(p.key)) <==> Due(s, v, PurposeOf(p.key));
    NotDueIsFresh(s, p.key);
    NotDueIsFresh(t, p.key);
    PostTwins(s.bank, t.bank, u, p, s.clock);
  }

  // ---------------------------------------------------------------- money operations

  lemma SettledTwins(s: Tables, i: ItemId, next: Stage, state: ReservationState, b: Bank, c: Bank)
    requires HasReservation(s, i) && SameMeaning(b, c)
    ensures Twins(FinalizeOrder(SettleItem(s, i, next, state).(bank := b), s.items[i].order),
                  FinalizeOrder(SettleItem(s, i, next, state).(bank := c), s.items[i].order))
  {
    var mid := SettleItem(s, i, next, state);
    FinalizeOnlyOrders(mid.(bank := b), s.items[i].order);
    FinalizeOnlyOrders(mid.(bank := c), s.items[i].order);
    FinalizeIgnoresBank(mid, s.items[i].order, b);
    FinalizeIgnoresBank(mid, s.items[i].order, c);
  }

  lemma FinalizeOnlyOrders(s: Tables, o: OrderId)
    ensures var s' := FinalizeOrder(s, o); s' == s.(orders := s'.orders, locks := s'.locks)
  {}

  lemma SettleItemTwins(s: Tables, t: Tables, i: ItemId, next: Stage, state: ReservationState)
    requires Twins(s, t) && HasReservation(s, i)
    ensures SettleItem(t, i, next, state) == SettleItem(s, i, next, state).(bank := t.bank)
  {}

  lemma CaptureTwins(s: Tables, t: Tables, i: ItemId, fence: Option<Claim>, ctx: Context)
    requires Twins(s, t) && MoneyOk(s) && MoneyOk(t)
    ensures TwinOutcomes(CaptureReservation(s, i, fence, ctx), CaptureReservation(t, i, fence, ctx))
  {
    if HasReservation(s, i) && s.items[i].reservation.value.state == Held {
      var r := s.items[i].reservation.value;
      var p := CapturePosting(i, r.amount, ctx);
      NotYetSettled(s, i);
      DuePostTwins(s, t, r.user, p);
      SettleItemTwins(s, t, i, ReadyToClaim, ReservationState.Captured);
      if Post(s.bank, r.user, p, s.clock).Ok? {
        SettledTwins(s, i, ReadyToClaim, ReservationState.Captured, Post(s.bank, r.user, p, s.clock).value,
                     Post(t.bank, r.user, p, s.clock).value);
      }
    }
  }

  /** What a release that passes its guards does. */
  ghost function Releasing(s: Tables, i: ItemId, terminal: Stage, ctx: Context): Outcome<Tables>
    requires HasReservation(s, i)
  {
    var r := s.items[i].reservation.value;
    var bank := Post(s.bank, r.user, ReleasePosting(i, r.amount, ctx), s.clock);
    if bank.Err? then Err(bank.error)
    else Ok(FinalizeOrder(SettleItem(s, i, terminal, ReservationState.Released).(bank := bank.value), s.items[i].order))
  }

  lemma ReleasingTwins(s: Tables, t: Tables, i: ItemId, terminal: Stage, ctx: Context)
    requires Twins(s, t) && MoneyOk(s) && MoneyOk(t) && HasReservation(s, i) && s.items[i].reservation.value.state == Held
    ensures TwinOutcomes(Releasing(s, i, terminal, ctx), Releasing(t, i, terminal, ctx))
  {
    var r := s.items[i].reservation.value;
    var p := ReleasePosting(i, r.amount, ctx);
    NotYetSettled(s, i);
    DuePostTwins(s, t, r.user, p);
    SettleItemTwins(s, t, i, terminal, ReservationState.Released);
    if Post(s.bank, r.user, p, s.clock).Ok? {
      SettledTwins(s, i, terminal, ReservationState.Released, Post(s.bank, r.user, p, s.clock).value,
                   Post(t.bank, r.user, p, s.clock).value);
    }
  }

  /** A release that passes the fence and finds nothing to give back. */
  lemma ReleaseSettledBefore(s: Tables, i: ItemId, terminal: Stage, fence: Option<Claim>, ctx: Context)
    requires terminal in ReleasedStates && (fence.Some? ==> fence.value.job == i && Owns(s, fence.value)) && HasReservation(s, i)
    requires s.items[i].reservation.value.state != Held || terminal !in ItemTransitions(s.items[i].state)
    ensures var state := s.items[i].reservation.value.state;
            ReleaseReservation(s, i, terminal, fence, ctx)
            == if state == ReservationState.Released then Ok(s) else if state != Held then Err(ReservationCaptured)
               else Err(IllegalTransition)
  {}

  lemma ReleaseTwins(s: Tables, t: Tables, i: ItemId, terminal: Stage, fence: Option<Claim>, ctx: Context)
    requires Twins(s, t) && MoneyOk(s) && MoneyOk(t)
    ensures TwinOutcomes(ReleaseReservation(s, i, terminal, fence, ctx), ReleaseReservation(t, i, terminal, fence, ctx))
  {
    if terminal !in ReleasedStates || (fence.Some? && !(fence.value.job == i && Owns(s, fence.value))) || !HasReservation(s, i) {
    } else if s.items[i].reservation.value.state == Held && terminal in ItemTransitions(s.items[i].state) {
      ReleasingTwins(s, t, i, terminal, ctx);
      assert ReleaseReservation(s, i, terminal, fence, ctx) == Releasing(s, i, terminal, ctx);
      assert ReleaseReservation(t, i, terminal, fence, ctx) == Releasing(t, i, terminal, ctx);
    } else {
      ReleaseSettledBefore(s, i, terminal, fence, ctx);
      ReleaseSettledBefore(t, i, terminal, fence, ctx);
    }
  }

  lemma RefundTwins(s: Tables, t: Tables, i: ItemId, reason: string, expected: Option<nat>)
    requires Twins(s, t) && MoneyOk(s) && MoneyOk(t)
    ensures TwinOutcomes(RefundCapturedItem(s, i, reason, expected), RefundCapturedItem(t, i, reason, expected))
  {
    if HasReservation(s, i) && i !in s.refunds {
      var r := s.items[i].reservation.value;
      assert forall v: UserId :: !Due(s, v, ForRefund(i)) && !Due(t, v, ForRefund(i));
      MoneyParts(s);
      MoneyParts(t);
      NotDueIsFresh(s, RefundKey(i));
      NotDueIsFresh(t, RefundKey(i));
      DuePostTwins(s, t, r.user, RefundPosting(i, r.amount));
    }
  }

  /** An adjustment is guarded by its key alone: the ledgers must agree on it. */
  lemma AdjustTwins(s: Tables, t: Tables, u: UserId, amount: int, reason: string, ctx: Context)
    requires Twins(s, t) && MoneyOk(s) && MoneyOk(t)
    requires KeyUsed(s.bank, AdjustKey(ctx)) <==> KeyUsed(t.bank, AdjustKey(ctx))
    ensures TwinOutcomes(AdjustBalance(s, u, amount, reason, ctx), AdjustBalance(t, u, amount, reason, ctx))
  {
    MoneyParts(s);
    MoneyParts(t);
    if !KeyUsed(s.bank, AdjustKey(ctx)) { PostTwins(s.bank, t.bank, u, AdjustPosting(amount, ctx), s.clock); }
  }

  lemma CreditingTwins(s: Tables, t: Tables, k: TopupId, principal: nat, day: nat, bonus: Bonus)
    requires Twins(s, t) && MoneyOk(s) && MoneyOk(t) && k < |s.topups|
    requires s.topups[k].status !in {Credited, Reversed} && (bonus.eligible ==> s.topups[k].promotion.Some?)
    ensures TwinOutcomes(Crediting(s, k, principal, day, bonus), Crediting(t, k, principal, day, bonus))
  {
    DuePostTwins(s, t, s.topups[k].user, CreditPosting(k, principal + bonus.cents));
  }

  lemma CreditTwins(s: Tables, t: Tables, k: TopupId)
    requires Twins(s, t) && MoneyOk(s) && MoneyOk(t)
    ensures TwinOutcomes(CreditRedeemedTopup(s, k), CreditRedeemedTopup(t, k))
  {
    if k >= |s.topups| || s.topups[k].status == Credited {
    } else if Credited !in TopupTransitions(s.topups[k].status) {
      assert CreditRedeemedTopup(s, k) == Err(IllegalTransition);
      assert CreditRedeemedTopup(t, k) == Err(IllegalTransition);
    } else if s.topups[k].amount.Some? && s.topups[k].thb {
      var row, day := s.topups[k], BangkokDay(s.clock);
      var bonus := ResolvePromotionBonus(s.promotions, s.usages, row.promotion, row.user, row.amount.value, day);
      CreditingTwins(s, t, k, row.amount.value, day, bonus);
      assert CreditRedeemedTopup(s, k) == Crediting(s, k, row.amount.value, day, bonus);
      assert CreditRedeemedTopup(t, k) == Crediting(t, k, row.amount.value, day, bonus);
    }
  }

  lemma ReversingTwins(s: Tables, t: Tables, k: TopupId, total: nat)
    requires Twins(s, t) && MoneyOk(s) && MoneyOk(t) && k < |s.topups| && s.topups[k].status == Credited
    ensures TwinOutcomes(Reversing(s, k, total), Reversing(t, k, total))
  {
    SameWallets(s.bank, t.bank, s.topups[k].user);
    DuePostTwins(s, t, s.topups[k].user, ReversalPosting(k, total));
  }

  lemma ReverseTwins(s: Tables, t: Tables, k: TopupId, reason: string)
    requires Twins(s, t) && MoneyOk(s) && MoneyOk(t)
    ensures TwinOutcomes(ReverseTopup(s, k, reason), ReverseTopup(t, k, reason))
  {
    if Blank(reason) || k >= |s.topups| {
      assert ReverseTopup(t, k, reason) == ReverseTopup(s, k, reason);
    } else if s.topups[k].status == Credited {
      var row := s.topups[k];
      var total := (if row.amount.Some? then row.amount.value else 0) + row.bonus;
      ReversingTwins(s, t, k, total);
      assert ReverseTopup(s, k, reason) == Reversing(s, k, total);
      assert ReverseTopup(t, k, reason) == Reversing(t, k, total);
    } else if s.topups[k].status == Reversed {
      assert ReverseTopup(s, k, reason) == Ok(s) && ReverseTopup(t, k, reason) == Ok(t);
    } else {
      ReverseRefused(s, k, reason);
      ReverseRefused(t, k, reason);
    }
  }

  lemma ReverseRefused(s: Tables, k: TopupId, reason: string)
    requires !Blank(reason) && k < |s.topups| && s.topups[k].status !in {Credited, Reversed}
    ensures ReverseTopup(s, k, reason) == Err(IllegalTransition)
  {}

  lemma ReserveOneTwins(s: Tables, t: Tables, u: UserId, r: Request, ctx: Context)
    requires Twins(s, t) && MoneyOk(s) && MoneyOk(t) && r.item !in s.refunds
    ensures ReserveOne(s, u, r, ctx).Ok? ==>
              ReserveOne(t, u, r, ctx).Ok? && Twins(ReserveOne(s, u, r, ctx).value, ReserveOne(t, u, r, ctx).value)
              && MoneyOk(ReserveOne(s, u, r, ctx).value) && MoneyOk(ReserveOne(t, u, r, ctx).value)
    ensures ReserveOne(s, u, r, ctx).Err? ==> ReserveOne(t, u, r, ctx) == ReserveOne(s, u, r, ctx)
  {
    SameWallets(s.bank, t.bank, u);
    if r.item < |s.items| && s.items[r.item].reservation.None? {
      assert forall v: UserId :: !Due(s, v, ForReserve(r.item));
      DuePostTwins(s, t, u, ReservePosting(r, ctx));
      if ReserveOne(s, u, r, ctx).Ok? {
        ReserveOneKeepsMoney(s, u, r, ctx);
        ReserveOneKeepsMoney(t, u, r, ctx);
      }
    }
  }

  lemma {:induction false} ReserveEachTwins(s: Tables, t: Tables, u: UserId, rs: seq<Request>, ctx: Context)
    requires Twins(s, t) && MoneyOk(s) && MoneyOk(t) && forall k | 0 <= k < |rs| :: rs[k].item !in s.refunds
    ensures TwinOutcomes(ReserveEach(s, u, rs, ctx), ReserveEach(t, u, rs, ctx))
    decreases |rs|
  {
    if rs != [] {
      ReserveOneTwins(s, t, u, rs[0], ctx);
      if ReserveOne(s, u, rs[0], ctx).Ok? {
        ReserveEachTwins(ReserveOne(s, u, rs[0], ctx).value, ReserveOne(t, u, rs[0], ctx).value, u, rs[1..], ctx);
      }
    }
  }

  // ---------------------------------------------------------------- checkout

  lemma CreateTwins(s: Tables, t: Tables, u: UserId, account: AccountId, lines: seq<Line>, catalogue: map<QuestId, Listing>)
    requires Twins(s, t)
    ensures TwinOutcomes(CreateOrder(s, u, account, lines, catalogue), CreateOrder(t, u, account, lines, catalogue))
  {
    if account !in s.locks {
      assert CreateOrder(s, u, account, lines, catalogue).value.items
             == CreateOrder(t, u, account, lines, catalogue).value.items;
    }
  }

  lemma {:induction false} ReserveNewTwins(s: Tables, t: Tables, u: UserId, account: AccountId, lines: seq<Line>,
                                           catalogue: map<QuestId, Listing>, ctx: Context)
    requires Twins(s, t) && Inv(s) && Inv(t) && CreateOrder(s, u, account, lines, catalogue).Ok?
    ensures CreateOrder(t, u, account, lines, catalogue).Ok?
    ensures TwinOutcomes(ReserveItems(CreateOrder(s, u, account, lines, catalogue).value, u, RequestsFor(|s.items|, lines), ctx),
                         ReserveItems(CreateOrder(t, u, account, lines, catalogue).value, u, RequestsFor(|s.items|, lines), ctx))
  {
    AllAspects(s);
    AllAspects(t);
    CreateTwins(s, t, u, account, lines, catalogue);
    CreatedMoney(s, u, account, lines, catalogue);
    CreatedMoney(t, u, account, lines, catalogue);
    var s1, t1 := CreateOrder(s, u, account, lines, catalogue).value, CreateOrder(t, u, account, lines, catalogue).value;
    NewItemsPriced(s, s1, u, account, lines, catalogue);
    SameWallets(s1.bank, t1.bank, u);
    ReserveEachTwins(s1, t1, u, RequestsFor(|s.items|, lines), ctx);
  }

  lemma QueueFirstTwins(s: Tables, t: Tables, i: ItemId, u: UserId)
    requires Twins(s, t)
    ensures TwinOutcomes(QueueFirst(s, i, u), QueueFirst(t, i, u))
  {}

  lemma ValidatedTwins(s: Tables, t: Tables, c: Caller, p: Preflight, blocked: bool, catalogue: map<QuestId, Listing>)
    requires Twins(s, t)
    ensures ValidateConfirmation(t, c, p, blocked, catalogue) == ValidateConfirmation(s, c, p, blocked, catalogue)
  {}

  lemma {:induction false} ConfirmTwins(s: Tables, t: Tables, c: Caller, p: Preflight, blocked: bool,
                                        catalogue: map<QuestId, Listing>, ctx: Context)
    requires Twins(s, t) && Inv(s) && Inv(t)
    ensures TwinOutcomes(ConfirmOrder(s, c, p, blocked, catalogue, ctx), ConfirmOrder(t, c, p, blocked, catalogue, ctx))
  {
    ValidatedTwins(s, t, c, p, blocked, catalogue);
    var session := ValidateConfirmation(s, c, p, blocked, catalogue);
    if session.Ok? {
      var lines, base := session.value.selected, |s.items|;
      var created := CreateOrder(s, c.actor, p.account, lines, catalogue);
      CreateTwins(s, t, c.actor, p.account, lines, catalogue);
      if created.Ok? {
        ReserveNewTwins(s, t, c.actor, p.account, lines, catalogue, ctx);
        var o := ReserveItems(created.value, c.actor, RequestsFor(base, lines), ctx);
        var q := ReserveItems(CreateOrder(t, c.actor, p.account, lines, catalogue).value, c.actor, RequestsFor(base, lines), ctx);
        if o.Ok? {
          QueueFirstTwins(o.value, q.value, base, c.actor);
          if QueueFirst(o.value, base, c.actor).Ok? {
            var s3, t3 := QueueFirst(o.value, base, c.actor).value, QueueFirst(q.value, base, c.actor).value;
            var sessions := s3.sessions[c.session := session.value.(state := Confirmed)];
            assert Twins(s3.(sessions := sessions), t3.(sessions := sessions));
          }
        }
      }
    }
  }

  // ---------------------------------------------------------------- decisions

  lemma CaptureDecisionTwins(s: Tables, t: Tables, i: ItemId, ctx: Context)
    requires Twins(s, t) && Inv(s) && Inv(t) && ItemIn(s, i, ManualReview)
    ensures TwinOutcomes(DecideItem(s, i, CaptureIt, ctx), DecideItem(t, i, CaptureIt, ctx))
  {
    var s1, t1 := SettlingForCapture(s, i), SettlingForCapture(t, i);
    SettlingForCaptureMoney(s, i);
    SettlingForCaptureMoney(t, i);
    SettlingForCaptureTwins(s, t, i);
    CaptureTwins(s1, t1, i, None, ctx);
    JobClosedTwins(CaptureReservation(s1, i, None, ctx), CaptureReservation(t1, i, None, ctx), i);
    CaptureCloses(s, i, ctx);
    CaptureCloses(t, i, ctx);
  }

  lemma CaptureCloses(s: Tables, i: ItemId, ctx: Context)
    requires ItemIn(s, i, ManualReview)
    ensures DecideItem(s, i, CaptureIt, ctx) == JobClosed(CaptureReservation(SettlingForCapture(s, i), i, None, ctx), i)
  {
    var o := CaptureReservation(SettlingForCapture(s, i), i, None, ctx);
    if o.Ok? {
      Lockstep.SettlingForCaptureEffect(s, i);
      Lockstep.CaptureEffect(SettlingForCapture(s, i), i, None, ctx);
      assert i in o.value.jobs <==> i in s.jobs;
    }
  }

  lemma SettlingForCaptureTwins(s: Tables, t: Tables, i: ItemId)
    requires Twins(s, t)
    ensures Twins(SettlingForCapture(s, i), SettlingForCapture(t, i))
  {}

  /** The end of a CAPTURE decision. */
  ghost function JobClosed(o: Outcome<Tables>, i: ItemId): Outcome<Tables> {
    if o.Err? || i !in o.value.jobs then o
    else Ok(WithJob(o.value, i, o.value.jobs[i].(state := Completed, version := o.value.jobs[i].version + 1)))
  }

  lemma JobClosedTwins(o: Outcome<Tables>, p: Outcome<Tables>, i: ItemId)
    requires TwinOutcomes(o, p)
    ensures TwinOutcomes(JobClosed(o, i), JobClosed(p, i))
  {}

  lemma RetryDecisionTwins(s: Tables, t: Tables, i: ItemId, ctx: Context)
    requires Twins(s, t)
    ensures TwinOutcomes(DecideItem(s, i, Retry, ctx), DecideItem(t, i, Retry, ctx))
  {
    if ItemIn(s, i, ManualReview) && i in s.jobs && s.jobs[i].state == ManualReview {
      var j := s.jobs[i].(state := Queued, availableAt := s.clock, lease := None, version := s.jobs[i].version + 1);
      assert Twins(WithJob(s, i, j).(items := SetStage(s.items, i, Queued)), WithJob(t, i, j).(items := SetStage(t.items, i, Queued)));
    } else {
      assert DecideItem(s, i, Retry, ctx) == Err(StaleState) == DecideItem(t, i, Retry, ctx);
    }
  }

  lemma ReleaseDecisionTwins(s: Tables, t: Tables, i: ItemId, d: ItemDecision, ctx: Context)
    requires Twins(s, t) && Inv(s) && Inv(t) && (d.ReleaseIt? || d.StopIt? || d.FailIt?)
    ensures TwinOutcomes(DecideItem(s, i, d, ctx), DecideItem(t, i, d, ctx))
  {
    AllAspects(s);
    AllAspects(t);
    var o, p := ReleaseReservation(s, i, ReleaseStage(d), None, ctx), ReleaseReservation(t, i, ReleaseStage(d), None, ctx);
    ReleaseTwins(s, t, i, ReleaseStage(d), None, ctx);
    if o.Ok? { ReviewMoveTwins(o.value, p.value, i); }
  }

  lemma ItemDecisionTwins(s: Tables, t: Tables, i: ItemId, d: ItemDecision, ctx: Context)
    requires Twins(s, t) && Inv(s) && Inv(t)
    ensures TwinOutcomes(DecideItem(s, i, d, ctx), DecideItem(t, i, d, ctx))
  {
    if d.Retry? { RetryDecisionTwins(s, t, i, ctx); }
    else if !d.CaptureIt? { ReleaseDecisionTwins(s, t, i, d, ctx); }
    else if ItemIn(s, i, ManualReview) { CaptureDecisionTwins(s, t, i, ctx); }
  }

  lemma TopupDecisionTwins(s: Tables, t: Tables, k: TopupId, d: TopupDecision)
    requires Twins(s, t) && Inv(s) && Inv(t)
    ensures TwinOutcomes(DecideTopup(s, k, d), DecideTopup(t, k, d))
  {
    if k < |s.topups| && s.topups[k].status == TopupReview && d.CreditIt? {
      var amount := if d.amount.Some? then d.amount.value
                    else if s.topups[k].amount.Some? then s.topups[k].amount.value else 0;
      if amount > 0 {
        var row := s.topups[k].(status := Redeemed, amount := Some(amount), thb := true, provider := Some(d.provider));
        var s1, t1 := s.(topups := s.topups[k := row]), t.(topups := t.topups[k := row]);
        PaymentRow(s, k);
        PaymentRow(t, k);
        PaymentStepAt(s, s1, k);
        PaymentStepAt(t, t1, k);
        AllAspects(s1);
        AllAspects(t1);
        CreditTwins(s1, t1, k);
      }
    }
  }

  lemma ResolveTwins(s: Tables, t: Tables, d: Decision, reason: string, isOwner: bool, expected: Option<nat>, ctx: Context)
    requires Twins(s, t) && Inv(s) && Inv(t)
    ensures TwinOutcomes(ResolveReview(s, d, reason, isOwner, expected, ctx),
                         ResolveReview(t, d, reason, isOwner, expected, ctx))
  {
    match d
    case ItemCase(i, choice) => ItemDecisionTwins(s, t, i, choice, ctx);
    case TopupCase(k, verdict) => TopupDecisionTwins(s, t, k, verdict);
  }

  // ---------------------------------------------------------------- everything else

  lemma RenewTwins(s: Tables, t: Tables, c: Claim, ttl: nat)
    requires Twins(s, t)
    ensures TwinOutcomes(Renew(s, c, ttl), Renew(t, c, ttl))
  {}

  lemma BeginRunTwins(s: Tables, t: Tables, seen: Seen)
    requires Twins(s, t)
    ensures TwinOutcomes(TransitionRunning(s, seen), TransitionRunning(t, seen))
  {}

  lemma BeginSettlingTwins(s: Tables, t: Tables, seen: Seen)
    requires Twins(s, t)
    ensures TwinOutcomes(TransitionToSettling(s, seen), TransitionToSettling(t, seen))
  {
    var i := seen.claim.job;
    var verifying := UpdateOwnedJob(s, seen, Verifying, false);
    assert UpdateOwnedJob(t, seen, Verifying, false) == verifying;
    if verifying.Ok? && ItemIn(s, i, Running) {
      var s1 := WithJob(s, i, verifying.value).(items := SetStage(s.items, i, Verifying));
      var t1 := WithJob(t, i, verifying.value).(items := SetStage(t.items, i, Verifying));
      assert Twins(s1, t1);
      var again := Seen(seen.claim, Verifying, verifying.value.version);
      assert UpdateOwnedJob(t1, again, Settling, false) == UpdateOwnedJob(s1, again, Settling, false);
    }
  }

  lemma CompleteJobTwins(s: Tables, t: Tables, seen: Seen)
    requires Twins(s, t)
    ensures TwinOutcomes(CompleteJob(s, seen), CompleteJob(t, seen))
  {}

  lemma CheckpointTwins(s: Tables, t: Tables, c: Claim, delay: nat)
    requires Twins(s, t)
    ensures TwinOutcomes(CheckpointRetry(s, c, delay), CheckpointRetry(t, c, delay))
  {}

  lemma PrepareTwins(s: Tables, t: Tables, c: Claim, kind: MutationKind, baseline: int)
    requires Twins(s, t)
    ensures TwinOutcomes(PrepareMutation(s, c, kind, baseline), PrepareMutation(t, c, kind, baseline))
  {}

  lemma MarkTwins(s: Tables, t: Tables, c: Claim, k: nat, status: MutationStatus, evidence: Option<Fresh>)
    requires Twins(s, t)
    ensures TwinOutcomes(MarkMutation(s, c, k, status, evidence), MarkMutation(t, c, k, status, evidence))
  {}

  lemma ProgressTwins(s: Tables, t: Tables, c: Claim, progress: int)
    requires Twins(s, t)
    ensures TwinOutcomes(UpdateProgress(s, c, progress), UpdateProgress(t, c, progress))
  {}

  lemma FailTwins(s: Tables, t: Tables, i: ItemId)
    requires Twins(s, t)
    ensures TwinOutcomes(FailJob(s, i), FailJob(t, i))
  {}

  lemma MaterializeTwins(s: Tables, t: Tables, o: OrderId)
    requires Twins(s, t)
    ensures TwinOutcomes(MaterializeNext(s, o), MaterializeNext(t, o))
  {}

  lemma ReviewRowsIgnoreBank(s: Tables, i: ItemId, b: Bank)
    ensures ReviewRows(s.(bank := b), i) == ReviewRows(s, i).(bank := b)
  {}

  lemma OpenReviewTwins(s: Tables, t: Tables, i: ItemId, reason: string, ownerOnly: bool)
    requires Twins(s, t)
    ensures TwinOutcomes(OpenOrderItemReview(s, i, reason, ownerOnly), OpenOrderItemReview(t, i, reason, ownerOnly))
  {
    var reviews := OpenReview(s.reviews, ItemSubject(i), ownerOnly);
    if Blank(reason) || i >= |s.items| {
    } else if s.items[i].state == ManualReview {
      assert Twins(s.(reviews := reviews), t.(reviews := reviews));
    } else if ManualReview in ItemTransitions(s.items[i].state) {
      ReviewRowsIgnoreBank(s, i, t.bank);
      assert Twins(ReviewRows(s, i).(reviews := reviews), ReviewRows(t, i).(reviews := reviews));
    }
  }

  lemma LeaseStepTwins(s: Tables, t: Tables, step: Step)
    requires Twins(s, t)
    requires step.Heartbeat? || step.BeginRun? || step.BeginSettling? || step.Complete?
    ensures TwinOutcomes(Try(s, step), Try(t, step))
  {
    match step
    case Heartbeat(c, ttl) => RenewTwins(s, t, c, ttl);
    case BeginRun(seen) => BeginRunTwins(s, t, seen);
    case BeginSettling(seen) => BeginSettlingTwins(s, t, seen);
    case Complete(seen) => CompleteJobTwins(s, t, seen);
  }

  lemma WorkStepTwins(s: Tables, t: Tables, step: Step)
    requires Twins(s, t)
    requires step.Checkpoint? || step.Prepare? || step.Mark? || step.ReportProgress?
    ensures TwinOutcomes(Try(s, step), Try(t, step))
  {
    match step
    case Checkpoint(c, delay) => CheckpointTwins(s, t, c, delay);
    case Prepare(c, kind, baseline) => PrepareTwins(s, t, c, kind, baseline);
    case Mark(c, k, status, evidence) => MarkTwins(s, t, c, k, status, evidence);
    case ReportProgress(c, progress) => ProgressTwins(s, t, c, progress);
  }

  lemma DispatchTwins(s: Tables, t: Tables, i: ItemId, holder: WorkerId, ttl: nat)
    requires Twins(s, t)
    ensures TwinOutcomes(Acquire(s, i, holder, ttl), Acquire(t, i, holder, ttl))
  {
    assert forall u: UserId :: Eligible(s, u) <==> Eligible(t, u);
    assert Dispatchable(s, i) <==> Dispatchable(t, i);
  }

  lemma ReviewMoveTwins(s: Tables, t: Tables, i: ItemId)
    requires Twins(s, t)
    ensures Twins(MoveToManualReview(s, i), MoveToManualReview(t, i)) && Twins(ForceFail(s, i), ForceFail(t, i))
  {}

  lemma RowStepTwins(s: Tables, t: Tables, step: Step)
    requires Twins(s, t) && (step.FailItem? || step.ToReview? || step.ForceFailItem?)
    ensures TwinOutcomes(Try(s, step), Try(t, step))
  {
    match step
    case FailItem(i) => FailTwins(s, t, i);
    case ToReview(i) => ReviewMoveTwins(s, t, i); assert Try(s, step) == Ok(MoveToManualReview(s, i));
    case ForceFailItem(i) => ReviewMoveTwins(s, t, i); assert Try(s, step) == Ok(ForceFail(s, i));
  }

  lemma NextStepTwins(s: Tables, t: Tables, step: Step)
    requires Twins(s, t) && (step.Materialize? || step.OpenItemReview?)
    ensures TwinOutcomes(Try(s, step), Try(t, step))
  {
    if step.Materialize? { MaterializeTwins(s, t, step.order); }
    else { OpenReviewTwins(s, t, step.item, step.reason, step.ownerOnly); }
  }

  lemma PayableTwins(s: Tables, t: Tables, k: TopupId, holder: WorkerId, ttl: nat)
    requires Twins(s, t)
    ensures TwinOutcomes(AcquirePayment(s, k, holder, ttl), AcquirePayment(t, k, holder, ttl))
  {
    assert forall j: nat :: Payable(s, j) <==> Payable(t, j);
  }

  lemma AnswerTwins(s: Tables, t: Tables, c: PayClaim, r: Reply, delay: nat)
    requires Twins(s, t)
    ensures TwinOutcomes(RecordResult(s, c, r, delay), RecordResult(t, c, r, delay))
  {}

  lemma SubmitTwins(s: Tables, t: Tables, u: UserId, voucher: nat, blocked: bool, receiver: bool,
                    promotion: Option<PromotionId>)
    requires Twins(s, t)
    ensures TwinOutcomes(SubmitVoucher(s, u, voucher, blocked, receiver, promotion),
                         SubmitVoucher(t, u, voucher, blocked, receiver, promotion))
  {}

  lemma RenewPaymentTwins(s: Tables, t: Tables, c: PayClaim, ttl: nat)
    requires Twins(s, t)
    ensures TwinOutcomes(RenewPayment(s, c, ttl), RenewPayment(t, c, ttl))
  {}

  lemma AttemptTwins(s: Tables, t: Tables, c: PayClaim)
    requires Twins(s, t)
    ensures TwinOutcomes(CreateAttempt(s, c), CreateAttempt(t, c))
  {}

  lemma MarkSentTwins(s: Tables, t: Tables, c: PayClaim)
    requires Twins(s, t)
    ensures Twins(MarkPossiblySent(s, c), MarkPossiblySent(t, c))
  {}

  lemma AttemptStepTwins(s: Tables, t: Tables, step: Step)
    requires Twins(s, t) && (step.RenewPay? || step.RecordAttempt? || step.MarkSent?)
    ensures TwinOutcomes(Try(s, step), Try(t, step))
  {
    match step
    case RenewPay(c, ttl) => RenewPaymentTwins(s, t, c, ttl);
    case RecordAttempt(c) => AttemptTwins(s, t, c);
    case MarkSent(c) => MarkSentTwins(s, t, c);
  }

  lemma PaymentTwins(s: Tables, t: Tables, step: Step)
    requires Twins(s, t) && (step.Submit? || step.ClaimPayment? || step.Answer?)
    ensures TwinOutcomes(Try(s, step), Try(t, step))
  {
    match step
    case Submit(u, voucher, blocked, receiver, promotion) => SubmitTwins(s, t, u, voucher, blocked, receiver, promotion);
    case ClaimPayment(k, holder, ttl) => PayableTwins(s, t, k, holder, ttl);
    case Answer(c, r, delay) => AnswerTwins(s, t, c, r, delay);
  }

  lemma SelectTwins(s: Tables, t: Tables, c: Caller, lines: seq<Line>)
    requires Twins(s, t)
    ensures TwinOutcomes(UpdateSelection(s, c, lines), UpdateSelection(t, c, lines))
  {}

  lemma QuoteTwins(s: Tables, t: Tables, c: Caller, catalogue: map<QuestId, Listing>)
    requires Twins(s, t)
    ensures TwinOutcomes(BuildQuote(s, c, catalogue), BuildQuote(t, c, catalogue))
  {}

  lemma StartTwins(s: Tables, t: Tables, x: SessionId, row: Session)
    requires Twins(s, t)
    ensures TwinOutcomes(CreateSession(s, x, row), CreateSession(t, x, row))
  {}

  lemma ExpireTwins(s: Tables, t: Tables)
    requires Twins(s, t)
    ensures Twins(ExpireSessions(s), ExpireSessions(t))
  {
    assert ExpireSessions(s).sessions == ExpireSessions(t).sessions;
  }

  lemma SessionTwins(s: Tables, t: Tables, step: Step)
    requires Twins(s, t)
    requires step.Tick? || step.StartSession? || step.Select? || step.Quote? || step.EndSessions?
    ensures TwinOutcomes(Try(s, step), Try(t, step))
  {
    if step.EndSessions? { ExpireTwins(s, t); }
    else if step.StartSession? { StartTwins(s, t, step.session, step.row); }
    else if step.Select? { SelectTwins(s, t, step.caller, step.lines); }
    else if step.Quote? { QuoteTwins(s, t, step.caller, step.catalogue); }
    else { assert Twins(s.(clock := s.clock + step.seconds), t.(clock := t.clock + step.seconds)); }
  }

  lemma RunnerTwins(s: Tables, t: Tables, step: Step)
    requires Twins(s, t) && RunnerKind(step)
    ensures TwinOutcomes(Try(s, step), Try(t, step))
  {
    if step.Dispatch? { DispatchTwins(s, t, step.item, step.holder, step.ttl); }
    else if step.FailItem? || step.ToReview? || step.ForceFailItem? { RowStepTwins(s, t, step); }
    else if step.Materialize? || step.OpenItemReview? { NextStepTwins(s, t, step); }
    else if step.Heartbeat? || step.BeginRun? || step.BeginSettling? || step.Complete? { LeaseStepTwins(s, t, step); }
    else { WorkStepTwins(s, t, step); }
  }

  lemma RequeueTwins(s: Tables, t: Tables)
    requires Twins(s, t)
    ensures Twins(RequeueExpired(s), RequeueExpired(t)) && Twins(RequeueRetries(s), RequeueRetries(t))
  {
    assert RequeueExpired(s).jobs == RequeueExpired(t).jobs && RequeueExpired(s).items == RequeueExpired(t).items;
    assert RequeueRetries(s).jobs == RequeueRetries(t).jobs && RequeueRetries(s).items == RequeueRetries(t).items;
  }

  lemma CompleteTwins(s: Tables, t: Tables)
    requires Twins(s, t)
    ensures Twins(CompleteCaptured(s), CompleteCaptured(t))
  {
    assert CompleteCaptured(s).jobs == CompleteCaptured(t).jobs;
  }

  lemma CrashedTwins(s: Tables, t: Tables)
    requires Twins(s, t)
    ensures forall i: ItemId :: Crashed(t, i) == Crashed(s, i)
    ensures forall i | i in s.jobs :: NeedsReview(t, i) == NeedsReview(s, i)
  {}

  lemma RecoverRowsTwins(s: Tables, t: Tables)
    requires Twins(s, t)
    ensures RecoverCrashed(s).jobs == RecoverCrashed(t).jobs
    ensures RecoverCrashed(s).items == RecoverCrashed(t).items
  {
    CrashedTwins(s, t);
    assert forall i | i in s.jobs :: AfterCrash(t, i) == AfterCrash(s, i);
    assert RecoverCrashed(s).jobs.Keys == RecoverCrashed(t).jobs.Keys;
  }

  lemma CrashReviewRows(s: Tables)
    ensures forall x :: x in CrashReviews(s) <==> x.ItemSubject? && NewlyReviewed(s, x.item)
    ensures forall x | x in CrashReviews(s) :: CrashReviews(s)[x] == Review(Open, 1, false)
  {}

  lemma RecoverReviewsTwins(s: Tables, t: Tables)
    requires Twins(s, t)
    ensures RecoverCrashed(s).reviews == RecoverCrashed(t).reviews
  {
    CrashedTwins(s, t);
    assert CrashReviews(s) == CrashReviews(t) by {
      CrashReviewRows(s);
      CrashReviewRows(t);
      assert forall i: ItemId :: NewlyReviewed(t, i) == NewlyReviewed(s, i);
    }
  }

  lemma RecoverTwins(s: Tables, t: Tables)
    requires Twins(s, t)
    ensures Twins(RecoverCrashed(s), RecoverCrashed(t))
  {
    RecoverRowsTwins(s, t);
    RecoverReviewsTwins(s, t);
  }

  lemma PaymentRowsTwins(s: Tables, t: Tables)
    requires Twins(s, t)
    ensures RecoverCrashedPayments(s).topups == RecoverCrashedPayments(t).topups
  {
    assert forall k: TopupId :: PaymentCrashed(t, k) == PaymentCrashed(s, k);
  }

  lemma PaymentReviewsTwins(s: Tables, t: Tables)
    requires Twins(s, t)
    ensures RecoverCrashedPayments(s).reviews == RecoverCrashedPayments(t).reviews
  {
    assert forall k: TopupId :: PaymentCrashed(t, k) == PaymentCrashed(s, k);
  }

  lemma RecoverPaymentsTwins(s: Tables, t: Tables)
    requires Twins(s, t)
    ensures Twins(RecoverCrashedPayments(s), RecoverCrashedPayments(t))
  {
    PaymentRowsTwins(s, t);
    PaymentReviewsTwins(s, t);
  }

  lemma MaintainTwins(s: Tables, t: Tables)
    requires Twins(s, t)
    ensures Twins(MaintenancePass(s), MaintenancePass(t))
  {
    RequeueTwins(s, t);
    CompleteTwins(RequeueExpired(s), RequeueExpired(t));
    RecoverTwins(RecoverExpiredLeases(s), RecoverExpiredLeases(t));
    RequeueTwins(RecoverCrashed(RecoverExpiredLeases(s)), RecoverCrashed(RecoverExpiredLeases(t)));
    RecoverPaymentsTwins(RequeueRetries(RecoverCrashed(RecoverExpiredLeases(s))),
                         RequeueRetries(RecoverCrashed(RecoverExpiredLeases(t))));
  }

  lemma SettleStepTwins(s: Tables, t: Tables, step: Step)
    requires Twins(s, t) && MoneyOk(s) && MoneyOk(t) && (step.CaptureItem? || step.ReleaseItem? || step.Refund?)
    ensures TwinOutcomes(Try(s, step), Try(t, step))
  {
    match step
    case CaptureItem(c, ctx) => CaptureTwins(s, t, c.job, Some(c), ctx);
    case ReleaseItem(i, terminal, fence, ctx) => ReleaseTwins(s, t, i, terminal, fence, ctx);
    case Refund(i, reason, expected) => RefundTwins(s, t, i, reason, expected);
  }

  lemma TopupStepTwins(s: Tables, t: Tables, step: Step)
    requires Twins(s, t) && MoneyOk(s) && MoneyOk(t) && (step.Credit? || step.Reverse?)
    ensures TwinOutcomes(Try(s, step), Try(t, step))
  {
    if step.Credit? { CreditTwins(s, t, step.topup); } else { ReverseTwins(s, t, step.topup, step.reason); }
  }

  lemma MoneyTwins(s: Tables, t: Tables, step: Step)
    requires Twins(s, t) && Inv(s) && Inv(t) && MoneyKind(step) && !step.Prune?
    requires step.Adjust? ==> (KeyUsed(s.bank, AdjustKey(step.context)) <==> KeyUsed(t.bank, AdjustKey(step.context)))
    ensures TwinOutcomes(Try(s, step), Try(t, step))
  {
    AllAspects(s);
    AllAspects(t);
    if step.CaptureItem? || step.ReleaseItem? || step.Refund? { SettleStepTwins(s, t, step); }
    else if step.Credit? || step.Reverse? { TopupStepTwins(s, t, step); }
    else if step.Adjust? { AdjustTwins(s, t, step.user, step.amount, step.reason, step.context); }
    else if step.Maintain? { MaintainTwins(s, t); }
    else { ResolveTwins(s, t, step.decision, step.reason, step.isOwner, step.expected, step.context); }
  }

  // ---------------------------------------------------------------- whole runs

  lemma StepTwins(s: Tables, t: Tables, step: Step)
    requires Twins(s, t) && Inv(s) && Inv(t) && !step.Prune?
    requires step.Adjust? ==> (KeyUsed(s.bank, AdjustKey(step.context)) <==> KeyUsed(t.bank, AdjustKey(step.context)))
    ensures Twins(Apply(s, step), Apply(t, step))
  {
    if RunnerKind(step) { RunnerTwins(s, t, step); }
    else if MoneyKind(step) { MoneyTwins(s, t, step); }
    else if step.RenewPay? || step.RecordAttempt? || step.MarkSent? { AttemptStepTwins(s, t, step); }
    else if PaymentKind(step) { PaymentTwins(s, t, step); }
    else if step.Confirm? { ConfirmTwins(s, t, step.caller, step.preflight, step.blocked, step.catalogue, step.context); }
    else { SessionTwins(s, t, step); }
  }

  lemma PruneTwins(s: Tables, t: Tables, step: Step)
    requires Twins(s, t) && Inv(s) && step.Prune?
    ensures Twins(Apply(s, step), t)
  {
    if Try(s, step).Ok? {
      AllAspects(s);
      MoneyParts(s);
      PruneKeepsMeaning(s.bank, step.users, step.cutoff, step.limit, HeldUsers(s), s.refunds.Values, s.clock);
      forall u: UserId ensures History(BookOf(Apply(s, step).bank, u)) == History(BookOf(t.bank, u)) {
        assert History(BookOf(s.bank, u)) == History(BookOf(t.bank, u));
      }
    }
  }

  /** The run without its prunes. */
  function Unpruned(steps: seq<Step>): seq<Step> {
    if steps == [] then []
    else (if steps[0].Prune? then [] else [steps[0]]) + Unpruned(steps[1..])
  }

  /** The second ledger has archived no more than the first. */
  ghost predicate KeepsMore(c: Bank, b: Bank) {
    forall u: UserId :: |BookOf(c, u).archived| <= |BookOf(b, u).archived|
  }

  lemma KeptKeys(b: Bank, c: Bank, key: Key)
    requires SameMeaning(b, c) && KeepsMore(c, b) && KeyUsed(b, key)
    ensures KeyUsed(c, key)
  {
    var u :| u in b.books && KeyIn(b.books[u].entries, key);
    var mine, theirs := BookOf(b, u), BookOf(c, u);
    var i :| 0 <= i < |mine.entries| && mine.entries[i].key == key;
    assert History(mine) == History(theirs) && |theirs.archived| <= |mine.archived|;
    var k := |mine.archived| + i;
    assert History(mine)[k] == mine.entries[i];
    assert theirs.entries[k - |theirs.archived|].key == key;
    assert u in c.books && KeyIn(c.books[u].entries, key);
  }

  lemma {:induction false} PruneBooksArchive(b: Bank, order: seq<UserId>, cutoff: nat, budget: nat, held: set<UserId>)
    ensures KeepsMore(b, PruneBooks(b, order, cutoff, budget, held))
    decreases |order|
  {
    if order != [] {
      if order[0] in held || order[0] !in b.books {
        PruneBooksArchive(b, order[1..], cutoff, budget, held);
      } else {
        var bk := b.books[order[0]];
        var gone := |Candidates(bk.entries, cutoff, budget)|;
        var b1 := b.(books := b.books[order[0] := PruneBook(bk, cutoff, budget)]);
        assert KeepsMore(b, b1);
        PruneBooksArchive(b1, order[1..], cutoff, if gone <= budget then budget - gone else 0, held);
      }
    }
  }

  /** The pruned run stays behind the other in what it keeps. */
  lemma StepKeepsMore(s: Tables, t: Tables, step: Step)
    requires KeepsMore(t.bank, s.bank)
    ensures KeepsMore(if step.Prune? then t.bank else Apply(t, step).bank, Apply(s, step).bank)
  {
    if step.Prune? {
      if Try(s, step).Ok? { PruneBooksArchive(s.bank, step.users, step.cutoff, step.limit, HeldUsers(s)); }
    } else {
      StepAppends(s, step);
      StepAppends(t, step);
      forall u: UserId ensures |BookOf(Apply(t, step).bank, u).archived| <= |BookOf(Apply(s, step).bank, u).archived| {
        assert BookGrows(s.bank, Apply(s, step).bank, u) && BookGrows(t.bank, Apply(t, step).bank, u);
      }
    }
  }

  /** An adjustment is replayed after its row was pruned: the pruned ledger has lost the
      key, and nothing else stands against paying again. */
  predicate PrunedReplay(s: Tables, t: Tables, step: Step) {
    step.Adjust? && KeyUsed(t.bank, AdjustKey(step.context)) && !KeyUsed(s.bank, AdjustKey(step.context)) && Try(s, step).Ok?
  }

  lemma UnlessReplayed(s: Tables, t: Tables, step: Step)
    requires Twins(s, t) && KeepsMore(t.bank, s.bank) && Inv(s) && Inv(t) && !step.Prune? && !PrunedReplay(s, t, step)
    ensures Twins(Apply(s, step), Apply(t, step))
  {
    if step.Adjust? && KeyUsed(s.bank, AdjustKey(step.context)) { KeptKeys(s.bank, t.bank, AdjustKey(step.context)); }
    if step.Adjust? && KeyUsed(s.bank, AdjustKey(step.context)) != KeyUsed(t.bank, AdjustKey(step.context)) {
      assert Try(s, step).Err? && Apply(t, step) == t;
    } else {
      StepTwins(s, t, step);
    }
  }

  /** A replay is never made good: the second row is in the pruned run's history for
      ever, and the other run never writes one like it. */
  lemma {:induction false} ReplayIsFinal(s: Tables, t: Tables, step: Step, later: seq<Step>)
    requires Twins(s, t) && Inv(s) && PrunedReplay(s, t, step)
    ensures Apply(t, step) == t
    ensures !Twins(Run(Apply(s, step), later), Run(t, Unpruned(later)))
  {
    var u, key := step.user, AdjustKey(step.context);
    var h := History(BookOf(s.bank, u));
    ReplayedRow(s, step);
    StepGood(s, step);
    HistoryOnlyGrows(Apply(s, step), later, u);
    NothingPruned(later);
    UnprunedAppends(t, Unpruned(later));
    assert History(BookOf(t.bank, u)) == h;
    NotWrittenAgain(t.bank, Run(t, Unpruned(later)).bank, u, key);
    var end := Run(Apply(s, step), later);
    assert |History(BookOf(end.bank, u))| > |h| && History(BookOf(end.bank, u))[|h|].key == key;
  }

  /** The replay writes a second row under its key. */
  lemma {:induction false} ReplayedRow(s: Tables, step: Step)
    requires step.Adjust? && !KeyUsed(s.bank, AdjustKey(step.context)) && Try(s, step).Ok?
    ensures var h, h' := History(BookOf(s.bank, step.user)), History(BookOf(Apply(s, step).bank, step.user));
            |h'| == |h| + 1 && h' == h + [h'[|h|]] && h'[|h|].key == AdjustKey(step.context)
  {
    var u, p := step.user, AdjustPosting(step.amount, step.context);
    assert Post(s.bank, u, p, s.clock) == Ok(Apply(s, step).bank);
    PostUnfolds(s.bank, u, p, s.clock);
    var e := NewEntry(s.bank, u, p, WalletOf(s.bank, u), s.clock);
    assert History(BookOf(Apply(s, step).bank, u)) == History(BookOf(s.bank, u)) + [e];
  }

  /** A ledger that only grows, and still has the key, never writes it again. */
  lemma NotWrittenAgain(b: Bank, b': Bank, u: UserId, key: Key)
    requires AppendOnly(b, b') && KeyUsed(b, key)
    ensures var h, h' := History(BookOf(b, u)), History(BookOf(b', u));
            |h| <= |h'| && forall k | |h| <= k < |h'| :: h'[k].key != key
  {
    var now, end := BookOf(b, u), BookOf(b', u);
    assert BookGrows(b, b', u);
    forall k | |History(now)| <= k < |History(end)| ensures History(end)[k].key != key {
      assert History(end)[k] == end.entries[k - |end.archived|];
    }
  }

  lemma {:induction false} NothingPruned(steps: seq<Step>)
    ensures forall k | 0 <= k < |Unpruned(steps)| :: !Unpruned(steps)[k].Prune?
  {
    if steps != [] { NothingPruned(steps[1..]); }
  }

  /** No adjustment of the run is replayed after its row was pruned. `t` is the state
      without the prunes so far. */
  ghost predicate NoPrunedReplay(s: Tables, t: Tables, steps: seq<Step>)
    decreases |steps|
  {
    steps != [] ==>
      if steps[0].Prune? then NoPrunedReplay(Apply(s, steps[0]), t, steps[1..])
      else !PrunedReplay(s, t, steps[0]) && NoPrunedReplay(Apply(s, steps[0]), Apply(t, steps[0]), steps[1..])
  }

  lemma {:induction false} TwinRuns(s: Tables, t: Tables, steps: seq<Step>)
    requires Twins(s, t) && KeepsMore(t.bank, s.bank) && Inv(s) && Inv(t)
    ensures Twins(Run(s, steps), Run(t, Unpruned(steps))) <==> NoPrunedReplay(s, t, steps)
    decreases |steps|
  {
    if steps != [] {
      var rest := steps[1..];
      StepGood(s, steps[0]);
      StepGood(t, steps[0]);
      StepKeepsMore(s, t, steps[0]);
      if steps[0].Prune? {
        PruneTwins(s, t, steps[0]);
        assert Unpruned(steps) == Unpruned(rest);
        TwinRuns(Apply(s, steps[0]), t, rest);
      } else {
        assert Unpruned(steps)[0] == steps[0] && Unpruned(steps)[1..] == Unpruned(rest);
        if PrunedReplay(s, t, steps[0]) {
          ReplayIsFinal(s, t, steps[0], rest);
        } else {
          UnlessReplayed(s, t, steps[0]);
          TwinRuns(Apply(s, steps[0]), Apply(t, steps[0]), rest);
        }
      }
    }
  }

  /** Pruning is invisible over whole runs, to every table, every wallet and the full
      history of every ledger, exactly when no adjustment is replayed after its row was
      pruned: any interleaving of prunes with anything else then ends where the run
      without the prunes ends. */
  lemma {:induction false} PruningIsInvisibleIff(s: Tables, steps: seq<Step>)
    requires Inv(s)
    ensures Twins(Run(s, steps), Run(s, Unpruned(steps))) <==> NoPrunedReplay(s, s, steps)
  {
    TwinRuns(s, s, steps);
  }

  /** In particular for every run in which no administrator adjusts a balance. */
  lemma {:induction false} WithoutAdjustments(s: Tables, t: Tables, steps: seq<Step>)
    requires forall k | 0 <= k < |steps| :: !steps[k].Adjust?
    ensures NoPrunedReplay(s, t, steps)
    decreases |steps|
  {
    if steps != [] {
      assert !steps[0].Adjust?;
      WithoutAdjustments(Apply(s, steps[0]), if steps[0].Prune? then t else Apply(t, steps[0]), steps[1..]);
    }
  }
}
