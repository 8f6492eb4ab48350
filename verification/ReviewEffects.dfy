/** What a review decision is admitted for and what it leaves, what a maintenance pass makes of
    payments, and whose ledger rows a prune may not touch, with states and numbers written out. */
module ReviewEffects {
  import opened Common
  import opened Ledger
  import opened Schema
  import opened Wallet
  import opened Money
  import opened Promotions
  import opened Settlement
  import opened WalletLaws
  import opened Runner
  import opened Recovery
  import opened Payments
  import opened Retention
  import opened Machine
  import opened Frames
  import opened Lockstep
  import opened MoneySteps
  import opened MoneyEffects
  import opened SettlementEffects
  import RunnerEffects

  // ---------------------------------------------------------------- who may decide

  /** The review is open, at the version the person saw, decided for a reason and, if it is
      the owner's, by the owner. */
  predicate MayDecide(s: Tables, subject: Subject, reason: string, isOwner: bool, expected: Option<nat>) {
    && Stated(reason) && subject in s.reviews
    && (expected.None? || s.reviews[subject].version == expected.value)
    && (s.reviews[subject].ownerOnly ==> isOwner)
  }

  // ---------------------------------------------------------------- decisions on items

  /** The job's row, when there is a job, has this state, no lease and so many versions more. */
  predicate JobEnds(s: Tables, s': Tables, i: ItemId, state: Stage, versions: nat, lease: Option<Lease>) {
    s'.jobs == if i in s.jobs then s.jobs[i := s.jobs[i].(state := state, version := s.jobs[i].version + versions, lease := lease)]
               else s.jobs
  }

  /** RETRY queues item and job again, at once. */
  lemma RetryDecided(s: Tables, i: ItemId, reason: string, isOwner: bool, expected: Option<nat>, ctx: Context)
    ensures var o := Try(s, Step.Resolve(ItemCase(i, Retry), reason, isOwner, expected, ctx));
            && (o.Ok? <==> MayDecide(s, ItemSubject(i), reason, isOwner, expected)
                           && i < |s.items| && s.items[i].state == ManualReview && i in s.jobs && s.jobs[i].state == ManualReview)
            && (o.Ok? ==>
                  o.value == s.(items := s.items[i := s.items[i].(state := Queued)],
                                jobs := s.jobs[i := s.jobs[i].(state := Queued, availableAt := s.clock, lease := None,
                                                               version := s.jobs[i].version + 1)],
                                reviews := s.reviews - {ItemSubject(i)}))
  {
    DecidedIff(s, ItemCase(i, Retry), reason, isOwner, expected, ctx);
  }

  lemma DecidedIff(s: Tables, d: Decision, reason: string, isOwner: bool, expected: Option<nat>, ctx: Context)
    ensures var o := Try(s, Step.Resolve(d, reason, isOwner, expected, ctx));
            var applied := match d case ItemCase(i, choice) => DecideItem(s, i, choice, ctx)
                                   case TopupCase(t, verdict) => DecideTopup(s, t, verdict);
            && (o.Ok? <==> MayDecide(s, SubjectOf(d), reason, isOwner, expected) && (d.TopupCase? ==> isOwner) && applied.Ok?)
            && (o.Ok? ==> o.value == applied.value.(reviews := applied.value.reviews - {SubjectOf(d)}))
  {
    assert !Stated(reason) <==> Blank(reason);
    assert Try(s, Step.Resolve(d, reason, isOwner, expected, ctx)) == ResolveReview(s, d, reason, isOwner, expected, ctx);
  }

  /** How the item of a decided review ends: its cents move, or moved before. */
  ghost predicate ItemEnds(s: Tables, s': Tables, i: ItemId, terminal: Stage, ctx: Context)
    requires OnHold(s, i)
  {
    var r := HoldOf(s, i);
    && Moves(s.bank, s'.bank, r.user,
             if terminal == ReadyToClaim then Posting(Kind.Capture, 0, 0 - r.amount, ItemRef(i), CaptureKey(ctx, i))
             else Posting(Kind.Release, r.amount, 0 - r.amount, ItemRef(i), ReleaseKey(ctx, i)), s.clock)
    && (if terminal == ReadyToClaim then EndsAs(s, s', i, ReadyToClaim, 100, ReservationState.Captured)
        else EndsAs(s, s', i, terminal, s.items[i].progress, ReservationState.Released))
  }

  /** Nothing but what a decision writes. */
  predicate OnlyDecided(s: Tables, s': Tables, i: ItemId) {
    s' == s.(bank := s'.bank, items := s'.items, orders := s'.orders, locks := s'.locks, jobs := s'.jobs,
             reviews := s.reviews - {ItemSubject(i)})
  }

  /** The end a releasing decision gives the item. */
  function EndOf(d: ItemDecision): Stage {
    match d
    case StopIt => StoppedReleased
    case ReleaseIt => FailedReleased
    case FailIt => FailedReleased
    case Retry => ManualReview
    case CaptureIt => ManualReview
  }

  /** RELEASE and FAIL end the item as failed, STOP as stopped; the job fails. An item whose
      cents were given back before stays in review. */
  lemma ReleaseDecided(s: Tables, i: ItemId, d: ItemDecision, reason: string, isOwner: bool, expected: Option<nat>, ctx: Context)
    requires Inv(s) && (d.ReleaseIt? || d.StopIt? || d.FailIt?)
    ensures var o := Try(s, Step.Resolve(ItemCase(i, d), reason, isOwner, expected, ctx));
            && (o.Ok? <==> MayDecide(s, ItemSubject(i), reason, isOwner, expected)
                           && i < |s.items| && s.items[i].state == ManualReview
                           && OnHold(s, i) && HoldOf(s, i).state != ReservationState.Captured)
            && (o.Ok? ==>
                  && JobEnds(s, o.value, i, Failed, 1, None) && OnlyDecided(s, o.value, i)
                  && (if HoldOf(s, i).state == Held then ItemEnds(s, o.value, i, EndOf(d), ctx)
                      else o.value == s.(jobs := o.value.jobs, reviews := o.value.reviews)))
  {
    DecidedIff(s, ItemCase(i, d), reason, isOwner, expected, ctx);
    AllAspects(s);
    ReleaseApplied(s, i, d, ctx);
  }

  lemma ReleaseApplied(s: Tables, i: ItemId, d: ItemDecision, ctx: Context)
    requires MoneyOk(s) && (d.ReleaseIt? || d.StopIt? || d.FailIt?)
    ensures var o := DecideItem(s, i, d, ctx);
            && (o.Ok? <==> i < |s.items| && s.items[i].state == ManualReview
                           && OnHold(s, i) && HoldOf(s, i).state != ReservationState.Captured)
            && (o.Ok? ==>
                  && JobEnds(s, o.value, i, Failed, 1, None)
                  && o.value == s.(bank := o.value.bank, items := o.value.items, orders := o.value.orders, locks := o.value.locks,
                                   jobs := o.value.jobs)
                  && (if HoldOf(s, i).state == Held then ItemEnds(s, o.value, i, EndOf(d), ctx)
                      else o.value == s.(jobs := o.value.jobs)))
  {
    ReleaseIff(s, i, EndOf(d), None, ctx);
    if ItemIn(s, i, ManualReview) {
      var o := ReleaseReservation(s, i, EndOf(d), None, ctx);
      ReleasedThenFailed(s, i, d, ctx);
      if o.Ok? {
        JobFails(s, o.value, i);
        if HoldOf(s, i).state == Held { EndSeen(s, o.value, ForceFail(o.value, i), i, EndOf(d), ctx); }
      }
    }
  }

  lemma ReleasedThenFailed(s: Tables, i: ItemId, d: ItemDecision, ctx: Context)
    requires (d.ReleaseIt? || d.StopIt? || d.FailIt?) && ItemIn(s, i, ManualReview)
    ensures var o := ReleaseReservation(s, i, EndOf(d), None, ctx);
            DecideItem(s, i, d, ctx) == if o.Ok? then Ok(ForceFail(o.value, i)) else o
  {}

  lemma JobFails(s: Tables, mid: Tables, i: ItemId)
    requires mid == s.(bank := mid.bank, items := mid.items, orders := mid.orders, locks := mid.locks)
    ensures var s' := ForceFail(mid, i); JobEnds(s, s', i, Failed, 1, None) && s' == mid.(jobs := s'.jobs)
  {}

  /** How an item ends does not show in the jobs. */
  lemma EndSeen(s: Tables, mid: Tables, s': Tables, i: ItemId, terminal: Stage, ctx: Context)
    requires OnHold(s, i) && s' == mid.(jobs := s'.jobs) && GivenBack(s, mid, i, terminal, ctx) && terminal != ReadyToClaim
    ensures ItemEnds(s, s', i, terminal, ctx)
  {}

  /** CAPTURE charges the item and completes its job. An item that was charged before is left
      SETTLING. */
  lemma CaptureDecided(s: Tables, i: ItemId, reason: string, isOwner: bool, expected: Option<nat>, ctx: Context)
    requires Inv(s)
    ensures var o := Try(s, Step.Resolve(ItemCase(i, CaptureIt), reason, isOwner, expected, ctx));
            && (o.Ok? <==> MayDecide(s, ItemSubject(i), reason, isOwner, expected)
                           && i < |s.items| && s.items[i].state == ManualReview
                           && OnHold(s, i) && HoldOf(s, i).state != ReservationState.Released)
            && (o.Ok? ==>
                  && (if i in s.jobs && s.jobs[i].state == ManualReview then JobEnds(s, o.value, i, Completed, 2, None)
                      else JobEnds(s, o.value, i, Completed, 1, if i in s.jobs then s.jobs[i].lease else None))
                  && OnlyDecided(s, o.value, i)
                  && (if HoldOf(s, i).state == Held then ItemEnds(s, o.value, i, ReadyToClaim, ctx)
                      else o.value == s.(items := s.items[i := s.items[i].(state := Settling)], jobs := o.value.jobs,
                                         reviews := o.value.reviews)))
  {
    DecidedIff(s, ItemCase(i, CaptureIt), reason, isOwner, expected, ctx);
    AllAspects(s);
    CaptureApplied(s, i, ctx);
  }

  /** The tables in which a CAPTURE decision charges the item. */
  function ToCharge(s: Tables, i: ItemId): Tables
    requires i < |s.items|
  {
    s.(items := s.items[i := s.items[i].(state := Settling)],
       jobs := if i in s.jobs && s.jobs[i].state == ManualReview
               then s.jobs[i := s.jobs[i].(state := Settling, lease := None, version := s.jobs[i].version + 1)] else s.jobs)
  }

  lemma ChargeableMoney(s: Tables, i: ItemId)
    requires MoneyOk(s) && SettlementOk(s) && i < |s.items| && s.items[i].state == ManualReview
    ensures MoneyOk(ToCharge(s, i))
  {
    assert RowsOk(s, i);
    StagesMovedMoney(s, ToCharge(s, i));
  }

  /** Charging does not look at the state the item had before. */
  lemma ChargedSince(s: Tables, s': Tables, i: ItemId, ctx: Context)
    requires i < |s.items| && OnHold(s, i) && Charged(ToCharge(s, i), s', i, ctx)
    ensures ItemEnds(s, s', i, ReadyToClaim, ctx)
    ensures s' == ToCharge(s, i).(bank := s'.bank, items := s'.items, orders := s'.orders, locks := s'.locks)
  {
    var mid := ToCharge(s, i);
    assert OthersOpen(mid, i) <==> OthersOpen(s, i) by {
      if OthersOpen(mid, i) {
        var k :| 0 <= k < |mid.items| && k != i && mid.items[k].order == s.items[i].order && !Ended(mid.items[k].state);
        assert s.items[k] == mid.items[k];
      }
      if OthersOpen(s, i) {
        var k :| 0 <= k < |s.items| && k != i && s.items[k].order == s.items[i].order && !Ended(s.items[k].state);
        assert mid.items[k] == s.items[k];
      }
    }
    WrittenAgain(s.items, i, s.items[i].(state := Settling), s'.items[i]);
  }

  lemma WrittenAgain(items: seq<Item>, i: nat, x: Item, y: Item)
    requires i < |items|
    ensures items[i := x][i := y] == items[i := y]
  {}

  lemma CaptureApplied(s: Tables, i: ItemId, ctx: Context)
    requires MoneyOk(s) && SettlementOk(s)
    ensures var o := DecideItem(s, i, CaptureIt, ctx);
            && (o.Ok? <==> i < |s.items| && s.items[i].state == ManualReview
                           && OnHold(s, i) && HoldOf(s, i).state != ReservationState.Released)
            && (o.Ok? ==>
                  && (if i in s.jobs && s.jobs[i].state == ManualReview then JobEnds(s, o.value, i, Completed, 2, None)
                      else JobEnds(s, o.value, i, Completed, 1, if i in s.jobs then s.jobs[i].lease else None))
                  && o.value == s.(bank := o.value.bank, items := o.value.items, orders := o.value.orders, locks := o.value.locks,
                                   jobs := o.value.jobs)
                  && (if HoldOf(s, i).state == Held then ItemEnds(s, o.value, i, ReadyToClaim, ctx)
                      else o.value == s.(items := s.items[i := s.items[i].(state := Settling)], jobs := o.value.jobs)))
  {
    if ItemIn(s, i, ManualReview) && HasReservation(s, i) {
      var mid := ToCharge(s, i);
      assert SettlingForCapture(s, i) == mid;
      var o := CaptureReservation(mid, i, None, ctx);
      if HoldOf(s, i).state == Held {
        ChargeableMoney(s, i);
        HeldIsCharged(mid, i, ctx);
        ChargedSince(s, o.value, i, ctx);
      }
      if o.Ok? { JobCompletes(s, o.value, i, ctx); }
    }
  }

  lemma JobCompletes(s: Tables, mid: Tables, i: ItemId, ctx: Context)
    requires i < |s.items| && s.items[i].state == ManualReview
    requires CaptureReservation(SettlingForCapture(s, i), i, None, ctx) == Ok(mid) && mid.jobs == ToCharge(s, i).jobs
    ensures var o := DecideItem(s, i, CaptureIt, ctx);
            && o.Ok? && o.value == mid.(jobs := o.value.jobs)
            && (if i in s.jobs && s.jobs[i].state == ManualReview then JobEnds(s, o.value, i, Completed, 2, None)
                else JobEnds(s, o.value, i, Completed, 1, if i in s.jobs then s.jobs[i].lease else None))
  {
    assert DecideItem(s, i, CaptureIt, ctx)
           == Ok(if i in s.jobs then WithJob(mid, i, mid.jobs[i].(state := Completed, version := mid.jobs[i].version + 1)) else mid);
    if i in s.jobs {
      RunnerEffects.WrittenTwice(s.jobs, i, mid.jobs[i], mid.jobs[i].(state := Completed, version := mid.jobs[i].version + 1));
    }
  }

  // ---------------------------------------------------------------- decisions on top-ups

  lemma RejectDecided(s: Tables, t: TopupId, reason: string, isOwner: bool, expected: Option<nat>, ctx: Context)
    ensures var o := Try(s, Step.Resolve(TopupCase(t, Reject), reason, isOwner, expected, ctx));
            && (o.Ok? <==> MayDecide(s, TopupSubject(t), reason, isOwner, expected) && isOwner
                           && t < |s.topups| && s.topups[t].status == TopupReview)
            && (o.Ok? ==> o.value == s.(topups := s.topups[t := s.topups[t].(status := Rejected)],
                                        reviews := s.reviews - {TopupSubject(t)}))
  {
    DecidedIff(s, TopupCase(t, Reject), reason, isOwner, expected, ctx);
  }

  /** The amount the owner confirms, else the one recorded. */
  function Confirmed(p: Topup, confirmed: Option<int>): int {
    match confirmed
    case Some(a) => a
    case None => if p.amount.Some? then p.amount.value else 0
  }

  /** The row as the owner confirms it: this amount, in THB, under this provider's id. */
  function ConfirmedRow(p: Topup, amount: nat, provider: string): Topup {
    Topup(p.user, p.voucher, Redeemed, Some(amount), true, p.bonus, p.promotion, Some(provider), p.attempts, p.token,
          p.availableAt, p.lease, p.log)
  }

  /** The owner credits a top-up in review with a positive amount under a provider's id that no
      other top-up carries. */
  lemma CreditDecided(s: Tables, t: TopupId, confirmed: Option<int>, provider: string, reason: string, isOwner: bool,
                      expected: Option<nat>, ctx: Context)
    requires Inv(s)
    ensures var o := Try(s, Step.Resolve(TopupCase(t, CreditIt(confirmed, provider)), reason, isOwner, expected, ctx));
            && (o.Ok? <==> MayDecide(s, TopupSubject(t), reason, isOwner, expected) && isOwner
                           && t < |s.topups| && s.topups[t].status == TopupReview
                           && Confirmed(s.topups[t], confirmed) > 0 && Stated(provider)
                           && forall k | 0 <= k < |s.topups| && k != t :: s.topups[k].provider != Some(provider))
            && (o.Ok? ==>
                  var a := Confirmed(s.topups[t], confirmed);
                  && CreditedTo(s, o.value, t, ConfirmedRow(s.topups[t], a, provider), a)
                  && o.value == s.(bank := o.value.bank, topups := o.value.topups, usages := o.value.usages,
                                   reviews := s.reviews - {TopupSubject(t)}))
  {
    DecidedIff(s, TopupCase(t, CreditIt(confirmed, provider)), reason, isOwner, expected, ctx);
    CreditApplied(s, t, confirmed, provider);
  }

  /** The owner's word on the row, before it is credited. */
  lemma WordKeepsMoney(s: Tables, t: TopupId, row: Topup)
    requires Inv(s) && t < |s.topups| && s.topups[t].status == TopupReview
    requires row.status == Redeemed && row.user == s.topups[t].user && row.token == s.topups[t].token
    ensures var mid := s.(topups := s.topups[t := row]); MoneyOk(mid) && !HasUsage(mid.usages, t)
  {
    AllAspects(s);
    PaymentStepMoney(s, s.(topups := s.topups[t := row]));
    NotRecordedYet(s, t);
  }

  lemma CreditApplied(s: Tables, t: TopupId, confirmed: Option<int>, provider: string)
    requires Inv(s)
    ensures var o := DecideTopup(s, t, CreditIt(confirmed, provider));
            && (o.Ok? <==> t < |s.topups| && s.topups[t].status == TopupReview
                           && Confirmed(s.topups[t], confirmed) > 0 && Stated(provider)
                           && forall k | 0 <= k < |s.topups| && k != t :: s.topups[k].provider != Some(provider))
            && (o.Ok? ==>
                  var a := Confirmed(s.topups[t], confirmed);
                  && CreditedTo(s, o.value, t, ConfirmedRow(s.topups[t], a, provider), a)
                  && o.value == s.(bank := o.value.bank, topups := o.value.topups, usages := o.value.usages))
  {
    assert !Stated(provider) <==> Blank(provider);
    if t < |s.topups| && s.topups[t].status == TopupReview && Confirmed(s.topups[t], confirmed) > 0 {
      var a := Confirmed(s.topups[t], confirmed);
      var row := ConfirmedRow(s.topups[t], a, provider);
      var mid := s.(topups := s.topups[t := row]);
      WordKeepsMoney(s, t, row);
      CreditMoves(mid, t);
      DecisionCredits(s, t, confirmed, provider);
      CreditSeen(s, mid, CreditRedeemedTopup(mid, t).value, t, a);
    }
  }

  lemma DecisionCredits(s: Tables, t: TopupId, confirmed: Option<int>, provider: string)
    requires t < |s.topups| && s.topups[t].status == TopupReview && Confirmed(s.topups[t], confirmed) > 0
    ensures var taken := exists k | 0 <= k < |s.topups| :: k != t && s.topups[k].provider == Some(provider);
            var mid := s.(topups := s.topups[t := ConfirmedRow(s.topups[t], Confirmed(s.topups[t], confirmed), provider)]);
            if Blank(provider) || taken then DecideTopup(s, t, CreditIt(confirmed, provider)).Err?
            else DecideTopup(s, t, CreditIt(confirmed, provider)) == CreditRedeemedTopup(mid, t)
  {
    assert s.topups[t].(status := Redeemed, amount := Some(Confirmed(s.topups[t], confirmed)), thb := true, provider := Some(provider))
           == ConfirmedRow(s.topups[t], Confirmed(s.topups[t], confirmed), provider);
  }

  /** A credit looks at the row that is credited and at nothing else of the top-ups. */
  lemma CreditSeen(s: Tables, mid: Tables, s': Tables, t: TopupId, a: nat)
    requires t < |s.topups| == |mid.topups| && mid == s.(topups := s.topups[t := mid.topups[t]])
    requires CreditedTo(mid, s', t, mid.topups[t], a)
    ensures CreditedTo(s, s', t, mid.topups[t], a)
  {
    var row := s'.topups[t];
    assert mid.topups[t := row] == s.topups[t := row];
  }
}
