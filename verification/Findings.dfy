/** Where the code does less than its tables and comments promise: each such case with
    the exact condition under which it happens. */
module Findings {
  import opened Common
  import opened Ledger
  import opened Schema
  import opened Wallet
  import opened Money
  import opened Settlement
  import opened WalletLaws
  import opened Runner
  import opened Recovery
  import opened Payments
  import opened Checkout
  import opened Lockstep
  import opened MaintenanceLaws
  import opened Retention
  import opened Machine
  import opened Frames
  import opened MoneySteps
  import opened CheckoutLaws
  import opened Safety

  // ------------------------------------------------ terminal items are not final

  predicate TerminalItem(s: Tables, i: ItemId) {
    i < |s.items| && s.items[i].state in TerminalItemStates
  }

  /** The three unguarded item writes: a move to manual review, a worker's checkpoint
      and the recovery of a crashed job whose item has been released. */
  predicate Reopening(s: Tables, step: Step, i: ItemId)
    requires i < |s.items|
  {
    match step
    case ToReview(k) => k == i && i in s.jobs && s.jobs[i].state !in ClosedJobStates + {ManualReview}
    case Checkpoint(c, _) => c.job == i && Owns(s, c)
    case Maintain => i in s.jobs && Reopens(RowsOf(s, i), s.clock)
    case _ => false
  }

  /** The item is left in the state it had. */
  predicate Untouched(s: Tables, s': Tables, i: ItemId)
    requires i < |s.items|
  {
    i < |s'.items| && s'.items[i] == s.items[i]
  }

  lemma CheckpointReopens(s: Tables, c: Claim, delay: nat, i: ItemId)
    requires LockstepOk(s) && TerminalItem(s, i) && CheckpointRetry(s, c, delay).Ok?
    ensures |CheckpointRetry(s, c, delay).value.items| == |s.items|
    ensures CheckpointRetry(s, c, delay).value.items[i].state !in TerminalItemStates <==> c.job == i && Owns(s, c)
  {
    assert LockstepAt(s, c.job);
  }

  lemma ReviewReopens(s: Tables, k: ItemId, i: ItemId)
    requires TerminalItem(s, i)
    ensures |MoveToManualReview(s, k).items| == |s.items|
    ensures MoveToManualReview(s, k).items[i].state !in TerminalItemStates <==> Reopening(s, ToReview(k), i)
  {}

  /** The other item writes of the runner are guarded by the state they expect. */
  lemma GuardedRunnerTouches(s: Tables, step: Step, i: ItemId)
    requires TerminalItem(s, i) && Try(s, step).Ok?
    requires step.Dispatch? || step.BeginRun? || step.BeginSettling? || step.Materialize? || step.OpenItemReview?
             || step.ReportProgress?
    ensures Untouched(s, Try(s, step).value, i)
  {
    if step.OpenItemReview? { OpenReviewTouches(s, step.item, step.reason, step.ownerOnly, i); }
    else if step.BeginSettling? { SettlingStartTouches(s, step.seen, i); }
    else if step.Materialize? { MaterializeTouches(s, step.order, i); }
    else if step.Dispatch? { DispatchTouches(s, step.item, step.holder, step.ttl, i); }
    else if step.BeginRun? { RunStartTouches(s, step.seen, i); }
  }

  lemma DispatchTouches(s: Tables, k: ItemId, holder: WorkerId, ttl: nat, i: ItemId)
    requires TerminalItem(s, i) && Acquire(s, k, holder, ttl).Ok?
    ensures Untouched(s, Acquire(s, k, holder, ttl).value, i)
  {}

  lemma RunStartTouches(s: Tables, seen: Seen, i: ItemId)
    requires TerminalItem(s, i) && TransitionRunning(s, seen).Ok?
    ensures Untouched(s, TransitionRunning(s, seen).value, i)
  {}

  lemma SettlingStartTouches(s: Tables, seen: Seen, i: ItemId)
    requires TerminalItem(s, i) && TransitionToSettling(s, seen).Ok?
    ensures Untouched(s, TransitionToSettling(s, seen).value, i)
  {}

  lemma MaterializeTouches(s: Tables, o: OrderId, i: ItemId)
    requires TerminalItem(s, i) && MaterializeNext(s, o).Ok?
    ensures Untouched(s, MaterializeNext(s, o).value, i)
  {}

  lemma OpenReviewTouches(s: Tables, k: ItemId, reason: string, ownerOnly: bool, i: ItemId)
    requires TerminalItem(s, i) && OpenOrderItemReview(s, k, reason, ownerOnly).Ok?
    ensures Untouched(s, OpenOrderItemReview(s, k, reason, ownerOnly).value, i)
  {}

  lemma JobOnlyTouches(s: Tables, step: Step, i: ItemId)
    requires TerminalItem(s, i) && Try(s, step).Ok?
    requires step.Heartbeat? || step.Complete? || step.FailItem? || step.Prepare? || step.Mark? || step.ForceFailItem?
    ensures Untouched(s, Try(s, step).value, i)
  {}

  lemma RunnerReopens(s: Tables, step: Step, i: ItemId)
    requires LockstepOk(s) && TerminalItem(s, i) && Try(s, step).Ok? && RunnerKind(step)
    ensures i < |Try(s, step).value.items|
    ensures Try(s, step).value.items[i].state !in TerminalItemStates <==> Reopening(s, step, i)
  {
    if step.Checkpoint? { CheckpointReopens(s, step.claim, step.delay, i); }
    else if step.ToReview? { ReviewReopens(s, step.item, i); }
    else if step.Heartbeat? || step.Complete? || step.FailItem? || step.Prepare? || step.Mark? || step.ForceFailItem? {
      JobOnlyTouches(s, step, i);
    }
    else { GuardedRunnerTouches(s, step, i); }
  }

  lemma ItemDecisionTouches(s: Tables, k: ItemId, d: ItemDecision, ctx: Context, i: ItemId)
    requires SettlementOk(s) && TerminalItem(s, i) && DecideItem(s, k, d, ctx).Ok?
    ensures Untouched(s, DecideItem(s, k, d, ctx).value, i)
  {
    match d {
      case Retry =>
      case CaptureIt => CaptureEffect(SettlingForCapture(s, k), k, None, ctx);
      case _ => ReleaseEffect(s, k, ReleaseStage(d), None, ctx);
    }
  }

  lemma SettlingTouches(s: Tables, step: Step, i: ItemId)
    requires SettlementOk(s) && TerminalItem(s, i) && Try(s, step).Ok? && (step.CaptureItem? || step.ReleaseItem?)
    ensures Untouched(s, Try(s, step).value, i)
  {
    assert RowsOk(s, i);
    if step.CaptureItem? { CaptureEffect(s, step.claim.job, Some(step.claim), step.context); }
    else { ReleaseEffect(s, step.item, step.terminal, step.fence, step.context); }
  }

  lemma OtherMoneyTouches(s: Tables, step: Step, i: ItemId)
    requires TerminalItem(s, i) && Try(s, step).Ok? && MoneyKind(step) && !step.Maintain? && !step.CaptureItem?
    requires !step.ReleaseItem? && !(step.Resolve? && step.decision.ItemCase?)
    ensures Untouched(s, Try(s, step).value, i)
  {
    if step.Reverse? { ReverseEffect(s, step.topup, step.reason); }
    else if step.Resolve? { TopupDecisionTouches(s, step.decision.topup, step.decision.verdict, i); }
  }

  lemma TopupDecisionTouches(s: Tables, t: TopupId, d: TopupDecision, i: ItemId)
    requires TerminalItem(s, i) && DecideTopup(s, t, d).Ok?
    ensures Untouched(s, DecideTopup(s, t, d).value, i)
  {}

  lemma MoneyTouches(s: Tables, step: Step, i: ItemId)
    requires SettlementOk(s) && TerminalItem(s, i) && Try(s, step).Ok? && MoneyKind(step) && !step.Maintain?
    ensures Untouched(s, Try(s, step).value, i)
  {
    if step.CaptureItem? || step.ReleaseItem? { SettlingTouches(s, step, i); }
    else if step.Resolve? && step.decision.ItemCase? {
      ItemDecisionTouches(s, step.decision.item, step.decision.choice, step.context, i);
    }
    else { OtherMoneyTouches(s, step, i); }
  }

  lemma OthersTouch(s: Tables, step: Step, i: ItemId)
    requires TerminalItem(s, i) && Try(s, step).Ok?
    requires !RunnerKind(step) && !MoneyKind(step)
    ensures Untouched(s, Try(s, step).value, i)
  {
    if step.Confirm? { ConfirmTouches(s, step.caller, step.preflight, step.blocked, step.catalogue, step.context, i); }
  }

  lemma ConfirmTouches(s: Tables, c: Caller, p: Preflight, blocked: bool, catalogue: map<QuestId, Listing>, ctx: Context,
                       i: ItemId)
    requires TerminalItem(s, i) && ConfirmOrder(s, c, p, blocked, catalogue, ctx).Ok?
    ensures Untouched(s, ConfirmOrder(s, c, p, blocked, catalogue, ctx).value, i)
  {
    ConfirmUnfolds(s, c, p, blocked, catalogue, ctx);
    var lines := s.sessions[c.session].selected;
    ReserveEachTouches(CreateOrder(s, c.actor, p.account, lines, catalogue).value, c.actor,
                       RequestsFor(|s.items|, lines), ctx, i);
  }

  /** A terminal item is not final: exactly three writes take it back to an open state,
      and only while its job has not been closed. */
  lemma TerminalItemReopensIff(s: Tables, step: Step, i: ItemId)
    requires Inv(s) && TerminalItem(s, i)
    ensures i < |Apply(s, step).items|
    ensures Apply(s, step).items[i].state !in TerminalItemStates <==> Try(s, step).Ok? && Reopening(s, step, i)
  {
    AllAspects(s);
    if Try(s, step).Ok? {
      if RunnerKind(step) { RunnerReopens(s, step, i); }
      else if step.Maintain? { PassReopens(s, i); }
      else if MoneyKind(step) { MoneyTouches(s, step, i); }
      else { OthersTouch(s, step, i); }
    }
  }

  /** Reopening is harmless to the money: the released cents are never captured in any
      later state, by anyone. */
  lemma {:induction false} ReleasedNeverCaptured(s: Tables, i: ItemId, steps: seq<Step>, fence: Option<Claim>, ctx: Context)
    requires Inv(s) && HasReservation(s, i) && s.items[i].reservation.value.state == ReservationState.Released
    ensures CaptureReservation(Run(s, steps), i, fence, ctx).Err?
  {
    SettledForever(s, i, steps);
  }

  /** A CAPTURE decision leaves its item ready to claim, unless the reservation had been
      captured before the item was reopened: then the capture changes nothing and the
      item is left SETTLING with its job completed. */
  lemma CaptureDecisionStrandsIff(s: Tables, i: ItemId, ctx: Context)
    requires Inv(s) && DecideItem(s, i, CaptureIt, ctx).Ok?
    ensures var s' := DecideItem(s, i, CaptureIt, ctx).value;
            && HasReservation(s, i) && i < |s'.items|
            && s'.items[i].state == (if s.items[i].reservation.value.state == ReservationState.Captured
                                     then Settling else ReadyToClaim)
            && (i in s.jobs ==> i in s'.jobs && s'.jobs[i].state == Completed)
  {
    CaptureEffect(SettlingForCapture(s, i), i, None, ctx);
  }

  // ------------------------------------------------ failures before execution

  /** A worker that fails for a business reason releases its item as FAILED_RELEASED.
      That succeeds exactly when the job is past LEASED; before execution it never is,
      so the failure is refused and the item waits for its lease to run out. */
  lemma FailedReleaseIff(s: Tables, c: Claim, ctx: Context)
    requires Inv(s) && Owns(s, c) && HasReservation(s, c.job) && s.items[c.job].reservation.value.state == Held
    ensures ReleaseReservation(s, c.job, FailedReleased, Some(c), ctx).Ok? <==> s.jobs[c.job].state != Leased
    ensures s.jobs[c.job].state == Leased ==>
              ReleaseReservation(s, c.job, FailedReleased, Some(c), ctx) == Err(IllegalTransition)
  {
    AllAspects(s);
    assert LockstepAt(s, c.job) && RowsOk(s, c.job);
    ReservedCoversItem(s, c.job);
  }

  // ------------------------------------------------ operations that are not fenced

  /** Moving a job to manual review is not fenced: a worker whose claim is long gone
      takes the lease away from the present owner, exactly while the job is open. */
  lemma UnfencedReviewTakesLease(s: Tables, c: Claim)
    requires Inv(s) && Owns(s, c)
    ensures var s' := Apply(s, ToReview(c.job));
            && !Owns(s', c) && s'.jobs[c.job].state == ManualReview && s'.jobs[c.job].lease.None?
            && ItemIn(s', c.job, ManualReview)
  {
    AllAspects(s);
    assert LockstepAt(s, c.job);
  }

  // ------------------------------------------------ pruning and replayed adjustments

  /** An adjustment is idempotent exactly as long as its ledger row survives: its only
      guard is the idempotency key, so a replay after the row was pruned pays again. */
  lemma AdjustmentMovesMoneyIff(s: Tables, u: UserId, amount: int, reason: string, ctx: Context)
    requires Inv(s) && amount != 0 && !Blank(reason) && WalletOf(s.bank, u).available + amount >= 0
    ensures var o := AdjustBalance(s, u, amount, reason, ctx);
            o.Ok? && WalletOf(o.value.bank, u).available
                     == WalletOf(s.bank, u).available + (if KeyUsed(s.bank, AdjustKey(ctx)) then 0 else amount)
  {
    AllAspects(s);
    BalancesNonnegative(s, u);
  }

  /** One posting to an empty bank. */
  lemma FirstPosting(b: Bank, u: UserId, p: Posting, now: nat)
    requires b == Bank(map[], map[], 0) && p.deltaAvailable >= 0 && p.deltaReserved == 0
    ensures var e := NewEntry(b, u, p, Balance(0, 0), now);
            Post(b, u, p, now) == Ok(Bank(map[u := Balance(p.deltaAvailable, 0)], map[u := Book([], [e], [])], 1))
  {
    var e := NewEntry(b, u, p, Balance(0, 0), now);
    PostUnfolds(b, u, p, now);
    assert BookOf(b, u).entries + [e] == [e];
  }

  /** An adjustment whose row was pruned, seen from the tables right before and after. */
  lemma ReplayAfterPrune(s: Tables, pruned: Tables, e: Entry, reason: string, ctx: Context)
    requires !Blank(reason) && e.key == AdjustKey(ctx) && e.created < 1
    requires s.bank == Bank(map[0 := Balance(100, 0)], map[0 := Book([], [e], [])], 1) && s.reviews == map[] && s.refunds == map[]
    requires PruneTables(s, [0], 1, 1) == Ok(pruned)
    ensures AdjustBalance(s, 0, 100, reason, ctx) == Ok(s)
    ensures var o := AdjustBalance(pruned, 0, 100, reason, ctx); o.Ok? && WalletOf(o.value.bank, 0) == Balance(200, 0)
  {
    assert KeyIn(s.bank.books[0].entries, AdjustKey(ctx)) by { assert [e][0].key == AdjustKey(ctx); }
    assert HeldUsers(s) == {};
    OneRowPruned(s.bank, e);
    assert !KeyUsed(pruned.bank, AdjustKey(ctx));
  }

  /** The smallest such replay, in a new shop: an adjustment of a hundred cents is
      replayed without effect before its row is pruned, and pays again afterwards. */
  lemma PrunedAdjustmentReplayed(s: Tables, reason: string, ctx: Context)
    requires s.bank == Bank(map[], map[], 0) && s.clock == 0 && s.reviews == map[] && s.refunds == map[] && !Blank(reason)
    ensures AdjustBalance(s, 0, 100, reason, ctx).Ok?
    ensures var once := AdjustBalance(s, 0, 100, reason, ctx).value.(clock := 1);
            && AdjustBalance(once, 0, 100, reason, ctx) == Ok(once)
            && PruneTables(once, [0], 1, 1).Ok?
            && var again := AdjustBalance(PruneTables(once, [0], 1, 1).value, 0, 100, reason, ctx);
            && again.Ok? && WalletOf(again.value.bank, 0) == Balance(200, 0)
  {
    var p := AdjustPosting(100, ctx);
    var e := NewEntry(s.bank, 0, p, Balance(0, 0), 0);
    FirstPosting(s.bank, 0, p, 0);
    var once := AdjustBalance(s, 0, 100, reason, ctx).value.(clock := 1);
    OneRowPruned(once.bank, e);
    assert HeldUsers(once) == {};
    ReplayAfterPrune(once, PruneTables(once, [0], 1, 1).value, e, reason, ctx);
  }

  lemma {:induction false} OneRowPruned(b: Bank, e: Entry)
    requires b.books == map[0 := Book([], [e], [])] && e.created < 1
    ensures PruneBooks(b, [0], 1, 1, {}) == b.(books := map[0 := Book([e], [], [CheckpointOf(e)])])
    ensures PruneLedger(b, [0], 1, 1, {}, {}) == Ok(PruneBooks(b, [0], 1, 1, {}))
  {
    var bk := b.books[0];
    assert [e][1..] == [];
    assert Candidates([e], 1, 1) == [e] + Candidates([e][1..], 1, 0) == [e];
    assert HasId([e], e.id) by { assert [e][0].id == e.id; }
    assert Surviving([e], [e]) == [] + Surviving([e][1..], [e]) == [];
    assert PruneBook(bk, 1, 1) == Book([e], [], [CheckpointOf(e)]);
    var b1 := b.(books := b.books[0 := PruneBook(bk, 1, 1)]);
    assert [0][1..] == [];
    assert PruneBooks(b, [0], 1, 1, {}) == PruneBooks(b1, [0][1..], 1, 0, {}) == b1;
  }
}
