/** What settling, refunding and adjusting are admitted for and what they leave, and what a
    review decision does, with states and numbers written out. */
module SettlementEffects {
  import opened Common
  import opened Ledger
  import opened Schema
  import opened Wallet
  import opened Money
  import opened Promotions
  import opened Settlement
  import opened WalletLaws
  import opened Runner
  import opened Recovery
  import opened Payments
  import opened Machine
  import opened Frames
  import opened Lockstep
  import opened MoneySteps
  import opened MoneyEffects
  import PaymentSteps
  import RunnerEffects

  // ---------------------------------------------------------------- settling an item

  predicate OnHold(s: Tables, i: ItemId) {
    i < |s.items| && s.items[i].reservation.Some?
  }

  function HoldOf(s: Tables, i: ItemId): Reservation
    requires OnHold(s, i)
  {
    s.items[i].reservation.value
  }

  predicate Ended(state: Stage) {
    || state == ReadyToClaim || state == ExpiredReleased || state == ExternalCompletedReleased
    || state == StoppedReleased || state == FailedReleased
  }

  /** The item's order has another item that has not ended. */
  predicate OthersOpen(s: Tables, i: ItemId)
    requires i < |s.items|
  {
    exists k | 0 <= k < |s.items| :: k != i && s.items[k].order == s.items[i].order && !Ended(s.items[k].state)
  }

  /** The item ends with its reservation; if it was the order's last, the order is completed
      and lets go of its credential and of its account; nothing else changes, but money. */
  ghost predicate EndsAs(s: Tables, s': Tables, i: ItemId, state: Stage, progress: int, settled: ReservationState)
    requires OnHold(s, i)
  {
    var x, r := s.items[i], HoldOf(s, i);
    && s'.items == s.items[i := Item(x.order, x.price, x.deadline, state,
                                     Some(Reservation(r.user, r.amount, settled, r.version + 1)), progress)]
    && (if x.order < |s.orders| && !s.orders[x.order].completed && !OthersOpen(s, i)
        then s'.orders == s.orders[x.order := Order(s.orders[x.order].user, s.orders[x.order].account, true, false)]
             && s'.locks == map a | a in s.locks && s.locks[a] != x.order :: s.locks[a]
        else s'.orders == s.orders && s'.locks == s.locks)
  }

  lemma SettledEndsAs(s: Tables, i: ItemId, next: Stage, settled: ReservationState, bank: Bank)
    requires HasReservation(s, i) && Ended(next)
    ensures var s' := FinalizeOrder(SettleItem(s, i, next, settled).(bank := bank), s.items[i].order);
            && EndsAs(s, s', i, next, if next == ReadyToClaim then 100 else s.items[i].progress, settled)
            && s' == s.(bank := bank, items := s'.items, orders := s'.orders, locks := s'.locks)
  {
    var mid := SettleItem(s, i, next, settled).(bank := bank);
    assert mid.items[i].state == next;
    assert OrderActive(mid.items, s.items[i].order) <==> OthersOpen(s, i) by {
      if OrderActive(mid.items, s.items[i].order) {
        var k :| 0 <= k < |mid.items| && mid.items[k].order == s.items[i].order && mid.items[k].state !in TerminalItemStates;
        assert k != i && s.items[k] == mid.items[k];
      }
      if OthersOpen(s, i) {
        var k :| 0 <= k < |s.items| && k != i && s.items[k].order == s.items[i].order && !Ended(s.items[k].state);
        assert mid.items[k] == s.items[k];
      }
    }
  }

  // ---------------------------------------------------------------- capture

  /** The reserved cents are gone and the item is ready to claim. */
  ghost predicate Charged(s: Tables, s': Tables, i: ItemId, ctx: Context)
    requires OnHold(s, i)
  {
    var r := HoldOf(s, i);
    && Moves(s.bank, s'.bank, r.user, Posting(Kind.Capture, 0, 0 - r.amount, ItemRef(i), CaptureKey(ctx, i)), s.clock)
    && EndsAs(s, s', i, ReadyToClaim, 100, ReservationState.Captured)
    && s' == s.(bank := s'.bank, items := s'.items, orders := s'.orders, locks := s'.locks)
  }

  lemma HeldIsCharged(s: Tables, i: ItemId, ctx: Context)
    requires MoneyOk(s) && HasReservation(s, i) && s.items[i].reservation.value.state == Held && s.items[i].state == Settling
    ensures CaptureReservation(s, i, None, ctx).Ok? && Charged(s, CaptureReservation(s, i, None, ctx).value, i, ctx)
  {
    var r := s.items[i].reservation.value;
    CaptureSucceeds(s, i, None, ctx);
    NotYetSettled(s, i);
    PostMoves(s, r.user, CapturePosting(i, r.amount, ctx));
    var bank := Post(s.bank, r.user, CapturePosting(i, r.amount, ctx), s.clock).value;
    SettledEndsAs(s, i, ReadyToClaim, ReservationState.Captured, bank);
  }

  /** The job's owner charges a settling item; one already charged stays as it is. */
  lemma ItemIsCharged(s: Tables, c: Claim, ctx: Context)
    requires Inv(s)
    ensures var i, o := c.job, Try(s, CaptureItem(c, ctx));
            && (o.Ok? <==> RunnerEffects.Mine(s, c) && OnHold(s, i)
                           && (HoldOf(s, i).state == ReservationState.Captured
                               || (HoldOf(s, i).state == Held && s.items[i].state == Settling)))
            && (o.Ok? && HoldOf(s, i).state == ReservationState.Captured ==> o.value == s)
            && (o.Ok? && HoldOf(s, i).state == Held ==> Charged(s, o.value, i, ctx))
            && (o.Err? ==> o.error == if !RunnerEffects.Mine(s, c) then FencingLost else if !OnHold(s, i) then ReservationNotFound
                                      else if HoldOf(s, i).state == ReservationState.Released then ReservationNotActive
                                      else IllegalTransition)
  {
    AllAspects(s);
    CaptureIff(s, c, ctx);
    assert Try(s, CaptureItem(c, ctx)) == CaptureReservation(s, c.job, Some(c), ctx);
  }

  lemma CaptureIff(s: Tables, c: Claim, ctx: Context)
    requires MoneyOk(s)
    ensures var i, o := c.job, CaptureReservation(s, c.job, Some(c), ctx);
            && (o.Ok? <==> RunnerEffects.Mine(s, c) && OnHold(s, i)
                           && (HoldOf(s, i).state == ReservationState.Captured
                               || (HoldOf(s, i).state == Held && s.items[i].state == Settling)))
            && (o.Ok? && HoldOf(s, i).state == ReservationState.Captured ==> o.value == s)
            && (o.Ok? && HoldOf(s, i).state == Held ==> Charged(s, o.value, i, ctx))
            && (o.Err? ==> o.error == if !RunnerEffects.Mine(s, c) then FencingLost else if !OnHold(s, i) then ReservationNotFound
                                      else if HoldOf(s, i).state == ReservationState.Released then ReservationNotActive
                                      else IllegalTransition)
  {
    var i := c.job;
    if Owns(s, c) && HasReservation(s, i) && s.items[i].reservation.value.state == Held && s.items[i].state == Settling {
      HeldIsCharged(s, i, ctx);
      assert CaptureReservation(s, i, Some(c), ctx) == CaptureReservation(s, i, None, ctx);
    }
  }

  // ---------------------------------------------------------------- release

  predicate Released(terminal: Stage) {
    || terminal == ExpiredReleased || terminal == ExternalCompletedReleased || terminal == StoppedReleased
    || terminal == FailedReleased
  }

  /** Failure is for items that ran, the other three ends for items that did not; a person
      may decide either. */
  predicate MayEnd(from: Stage, terminal: Stage) {
    if terminal == FailedReleased
    then from == Running || from == Verifying || from == WaitingRateLimit || from == WaitingRetry || from == Settling || from == ManualReview
    else
      && (terminal == ExpiredReleased || terminal == ExternalCompletedReleased || terminal == StoppedReleased)
      && (from == Stage.Reserved || from == Queued || from == Leased || from == ManualReview)
  }

  /** The reserved cents are available again and the item has ended so. */
  ghost predicate GivenBack(s: Tables, s': Tables, i: ItemId, terminal: Stage, ctx: Context)
    requires OnHold(s, i)
  {
    var r := HoldOf(s, i);
    && Moves(s.bank, s'.bank, r.user, Posting(Kind.Release, r.amount, 0 - r.amount, ItemRef(i), ReleaseKey(ctx, i)), s.clock)
    && EndsAs(s, s', i, terminal, s.items[i].progress, ReservationState.Released)
    && s' == s.(bank := s'.bank, items := s'.items, orders := s'.orders, locks := s'.locks)
  }

  lemma HeldIsGivenBack(s: Tables, i: ItemId, terminal: Stage, ctx: Context)
    requires MoneyOk(s) && HasReservation(s, i) && s.items[i].reservation.value.state == Held && MayEnd(s.items[i].state, terminal)
    ensures ReleaseReservation(s, i, terminal, None, ctx).Ok?
    ensures GivenBack(s, ReleaseReservation(s, i, terminal, None, ctx).value, i, terminal, ctx)
  {
    var r := s.items[i].reservation.value;
    ReservedCoversItem(s, i);
    BalancesNonnegative(s, r.user);
    NotYetSettled(s, i);
    PostMoves(s, r.user, ReleasePosting(i, r.amount, ctx));
    var bank := Post(s.bank, r.user, ReleasePosting(i, r.amount, ctx), s.clock).value;
    ReleaseUnfolds(s, i, terminal, ctx, bank);
    SettledEndsAs(s, i, terminal, ReservationState.Released, bank);
  }

  lemma ReleaseUnfolds(s: Tables, i: ItemId, terminal: Stage, ctx: Context, bank: Bank)
    requires HasReservation(s, i) && s.items[i].reservation.value.state == Held && MayEnd(s.items[i].state, terminal)
    requires var r := s.items[i].reservation.value; Post(s.bank, r.user, ReleasePosting(i, r.amount, ctx), s.clock) == Ok(bank)
    ensures ReleaseReservation(s, i, terminal, None, ctx)
            == Ok(FinalizeOrder(SettleItem(s, i, terminal, ReservationState.Released).(bank := bank), s.items[i].order))
  {
    MayEndIff(s.items[i].state, terminal);
  }

  /** Giving an item's cents back: to one of four ends, by its owner where a claim is
      presented; one already given back stays as it is, a charged one is refused. */
  lemma ItemIsGivenBack(s: Tables, i: ItemId, terminal: Stage, fence: Option<Claim>, ctx: Context)
    requires Inv(s)
    ensures var o := Try(s, ReleaseItem(i, terminal, fence, ctx));
            && (o.Ok? <==>
                  && Released(terminal)
                  && (fence.Some? ==> fence.value.job == i && RunnerEffects.Mine(s, fence.value)) && OnHold(s, i)
                  && (HoldOf(s, i).state == ReservationState.Released
                      || (HoldOf(s, i).state == Held && MayEnd(s.items[i].state, terminal))))
            && (o.Ok? && HoldOf(s, i).state == ReservationState.Released ==> o.value == s)
            && (o.Ok? && HoldOf(s, i).state == Held ==> GivenBack(s, o.value, i, terminal, ctx))
            && (o.Err? ==> o.error == if !Released(terminal) then InvalidArgument
                                      else if fence.Some? && !(fence.value.job == i && RunnerEffects.Mine(s, fence.value)) then FencingLost
                                      else if !OnHold(s, i) then ReservationNotFound
                                      else if HoldOf(s, i).state == ReservationState.Captured then ReservationCaptured
                                      else IllegalTransition)
  {
    AllAspects(s);
    ReleaseIff(s, i, terminal, fence, ctx);
    assert Try(s, ReleaseItem(i, terminal, fence, ctx)) == ReleaseReservation(s, i, terminal, fence, ctx);
  }

  lemma MayEndIff(from: Stage, terminal: Stage)
    ensures terminal in ReleasedStates && terminal in ItemTransitions(from) <==> MayEnd(from, terminal)
  {}

  lemma ReleaseIff(s: Tables, i: ItemId, terminal: Stage, fence: Option<Claim>, ctx: Context)
    requires MoneyOk(s)
    ensures var o := ReleaseReservation(s, i, terminal, fence, ctx);
            && (o.Ok? <==>
                  && Released(terminal)
                  && (fence.Some? ==> fence.value.job == i && RunnerEffects.Mine(s, fence.value)) && OnHold(s, i)
                  && (HoldOf(s, i).state == ReservationState.Released
                      || (HoldOf(s, i).state == Held && MayEnd(s.items[i].state, terminal))))
            && (o.Ok? && HoldOf(s, i).state == ReservationState.Released ==> o.value == s)
            && (o.Ok? && HoldOf(s, i).state == Held ==> GivenBack(s, o.value, i, terminal, ctx))
            && (o.Err? ==> o.error == if !Released(terminal) then InvalidArgument
                                      else if fence.Some? && !(fence.value.job == i && RunnerEffects.Mine(s, fence.value)) then FencingLost
                                      else if !OnHold(s, i) then ReservationNotFound
                                      else if HoldOf(s, i).state == ReservationState.Captured then ReservationCaptured
                                      else IllegalTransition)
  {
    if HasReservation(s, i) && s.items[i].reservation.value.state == Held {
      MayEndIff(s.items[i].state, terminal);
      if MayEnd(s.items[i].state, terminal) && (fence.Some? ==> fence.value.job == i && Owns(s, fence.value)) {
        HeldIsGivenBack(s, i, terminal, ctx);
        assert ReleaseReservation(s, i, terminal, fence, ctx) == ReleaseReservation(s, i, terminal, None, ctx);
      }
    }
  }

  // ---------------------------------------------------------------- refund, adjust

  /** A charged item is refunded once, in full, for a reason, at the version the operator
      saw; the refund names its ledger row. */
  lemma ItemIsRefunded(s: Tables, i: ItemId, reason: string, expected: Option<nat>)
    requires Inv(s)
    ensures var o := Try(s, Step.Refund(i, reason, expected));
            && (o.Ok? <==> Stated(reason)
                           && (i in s.refunds
                               || (OnHold(s, i) && HoldOf(s, i).state == ReservationState.Captured
                                   && (expected.None? || expected.value == HoldOf(s, i).version))))
            && (o.Ok? && i in s.refunds ==> o.value == s)
            && (o.Ok? && i !in s.refunds ==>
                  var r := HoldOf(s, i);
                  && Moves(s.bank, o.value.bank, r.user, Posting(RefundCredit, r.amount, 0, RefundRef(i), RefundKey(i)), s.clock)
                  && o.value == s.(bank := o.value.bank, refunds := s.refunds[i := s.bank.nextId]))
            && (o.Err? ==> o.error == if !Stated(reason) then InvalidArgument else if !OnHold(s, i) then ReservationNotFound
                                      else if HoldOf(s, i).state != ReservationState.Captured then RefundNotCaptured else StaleState)
  {
    AllAspects(s);
    assert !Stated(reason) <==> Blank(reason);
    if i !in s.refunds && HasReservation(s, i) {
      var r := s.items[i].reservation.value;
      assert forall v: UserId :: !Due(s, v, ForRefund(i));
      MoneyParts(s);
      NotDueIsFresh(s, RefundKey(i));
      BalancesNonnegative(s, r.user);
      FreshMoves(s, r.user, RefundPosting(i, r.amount));
    }
    assert Try(s, Step.Refund(i, reason, expected)) == RefundCapturedItem(s, i, reason, expected);
  }

  /** Some ledger still has a row of this adjustment. */
  predicate OnLedger(b: Bank, ctx: Context) {
    exists u | u in b.books :: exists k | 0 <= k < |b.books[u].entries| :: b.books[u].entries[k].key == AdjustKey(ctx)
  }

  /** An adjustment needs an amount, a reason and, when cents are taken, that they are there;
      one whose row is still on a ledger changes nothing. */
  lemma BalanceIsAdjusted(s: Tables, u: UserId, amount: int, reason: string, ctx: Context)
    requires Inv(s)
    ensures var o := Try(s, Step.Adjust(u, amount, reason, ctx));
            && (o.Ok? <==> amount != 0 && Stated(reason)
                           && (OnLedger(s.bank, ctx) || WalletOf(s.bank, u).available + amount >= 0))
            && (o.Ok? && OnLedger(s.bank, ctx) ==> o.value == s)
            && (o.Ok? && !OnLedger(s.bank, ctx) ==>
                  && Moves(s.bank, o.value.bank, u,
                           Posting(if amount > 0 then AdminCredit else AdminDebit, amount, 0, AdjustmentRef(ctx), AdjustKey(ctx)), s.clock)
                  && o.value == s.(bank := o.value.bank))
            && (o.Err? ==> o.error == if amount == 0 || !Stated(reason) then InvalidArgument else InsufficientBalance)
  {
    AllAspects(s);
    assert !Stated(reason) <==> Blank(reason);
    assert OnLedger(s.bank, ctx) <==> KeyUsed(s.bank, AdjustKey(ctx));
    BalancesNonnegative(s, u);
    if !KeyUsed(s.bank, AdjustKey(ctx)) { FreshMoves(s, u, AdjustPosting(amount, ctx)); }
    assert Try(s, Step.Adjust(u, amount, reason, ctx)) == AdjustBalance(s, u, amount, reason, ctx);
  }
}
