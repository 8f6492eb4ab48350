/** The ledger is append-only: whatever happens, a row once written is never changed,
    and no row is written under a key that a surviving row carries. */
module LedgerGrowth {
  import opened Common
  import opened Ledger
  import opened Schema
  import opened Wallet
  import opened Money
  import opened Retention
  import opened Recovery
  import opened Checkout
  import opened Machine
  import opened Frames
  import opened CheckoutLaws
  import opened Safety
  import FairQueue

  /** This user's surviving rows are kept, and the rows added carry new keys. */
  ghost predicate BookGrows(b: Bank, b': Bank, u: UserId) {
    var now, later := BookOf(b, u), BookOf(b', u);
    && later.archived == now.archived && now.entries <= later.entries
    && forall i | |now.entries| <= i < |later.entries| :: !KeyUsed(b, later.entries[i].key)
  }

  ghost predicate AppendOnly(b: Bank, b': Bank) {
    forall u: UserId :: BookGrows(b, b', u)
  }

  lemma KeysStay(b: Bank, b': Bank, key: Key)
    requires AppendOnly(b, b') && KeyUsed(b, key)
    ensures KeyUsed(b', key)
  {
    var u :| u in b.books && KeyIn(b.books[u].entries, key);
    assert BookGrows(b, b', u) && BookOf(b, u) == b.books[u];
    var i :| 0 <= i < |b.books[u].entries| && b.books[u].entries[i].key == key;
    assert BookOf(b', u).entries[i].key == key;
    assert u in b'.books && KeyIn(b'.books[u].entries, key);
  }

  lemma AppendedTwice(b: Bank, b1: Bank, b2: Bank)
    requires AppendOnly(b, b1) && AppendOnly(b1, b2)
    ensures AppendOnly(b, b2)
  {
    forall u: UserId ensures BookGrows(b, b2, u) {
      assert BookGrows(b, b1, u) && BookGrows(b1, b2, u);
      var later := BookOf(b2, u).entries;
      forall i | |BookOf(b, u).entries| <= i < |later| ensures !KeyUsed(b, later[i].key) {
        if i < |BookOf(b1, u).entries| {
          assert later[i] == BookOf(b1, u).entries[i];
        } else if KeyUsed(b, later[i].key) {
          KeysStay(b, b1, later[i].key);
        }
      }
    }
  }

  // ---------------------------------------------------------------- operations

  lemma PostAppends(b: Bank, u: UserId, p: Posting, now: nat)
    requires Post(b, u, p, now).Ok?
    ensures AppendOnly(b, Post(b, u, p, now).value)
  {
    var b1 := b.(wallets := b.wallets[u := AfterPosting(WalletOf(b, u), p)]);
    assert KeyUsed(b1, p.key) == KeyUsed(b, p.key);
    if !KeyUsed(b, p.key) { PostUnfolds(b, u, p, now); }
  }

  /** A transaction that posts at most one row. */
  ghost predicate PostsOnce(s: Tables, o: Outcome<Tables>) {
    o.Ok? && o.value.bank != s.bank ==> exists u, p :: Post(s.bank, u, p, s.clock) == Ok(o.value.bank)
  }

  lemma PostsOnceAppends(s: Tables, o: Outcome<Tables>)
    requires PostsOnce(s, o) && o.Ok?
    ensures AppendOnly(s.bank, o.value.bank)
  {
    if o.value.bank != s.bank {
      var u, p :| Post(s.bank, u, p, s.clock) == Ok(o.value.bank);
      PostAppends(s.bank, u, p, s.clock);
    }
  }

  lemma CapturePosts(s: Tables, i: ItemId, fence: Option<Claim>, ctx: Context)
    ensures PostsOnce(s, CaptureReservation(s, i, fence, ctx))
  {}

  lemma ReleasePosts(s: Tables, i: ItemId, terminal: Stage, fence: Option<Claim>, ctx: Context)
    ensures PostsOnce(s, ReleaseReservation(s, i, terminal, fence, ctx))
  {}

  lemma RefundPosts(s: Tables, i: ItemId, reason: string, expected: Option<nat>)
    ensures PostsOnce(s, RefundCapturedItem(s, i, reason, expected))
  {}

  lemma AdjustPosts(s: Tables, u: UserId, amount: int, reason: string, ctx: Context)
    ensures PostsOnce(s, AdjustBalance(s, u, amount, reason, ctx))
  {}

  lemma CreditPosts(s: Tables, k: TopupId)
    ensures PostsOnce(s, CreditRedeemedTopup(s, k))
  {}

  lemma ReversePosts(s: Tables, k: TopupId, reason: string)
    ensures PostsOnce(s, ReverseTopup(s, k, reason))
  {}

  lemma ItemDecisionPosts(s: Tables, i: ItemId, d: ItemDecision, ctx: Context)
    ensures PostsOnce(s, DecideItem(s, i, d, ctx))
  {
    match d
    case Retry =>
    case CaptureIt => CapturePosts(SettlingForCapture(s, i), i, None, ctx);
    case _ => ReleasePosts(s, i, ReleaseStage(d), None, ctx);
  }

  lemma TopupDecisionPosts(s: Tables, k: TopupId, d: TopupDecision)
    ensures PostsOnce(s, DecideTopup(s, k, d))
  {
    if k < |s.topups| && s.topups[k].status == TopupReview && d.CreditIt? {
      var amount := if d.amount.Some? then d.amount.value
                    else if s.topups[k].amount.Some? then s.topups[k].amount.value else 0;
      if amount > 0 {
        var row := s.topups[k].(status := Redeemed, amount := Some(amount), thb := true, provider := Some(d.provider));
        CreditPosts(s.(topups := s.topups[k := row]), k);
      }
    }
  }

  lemma ReserveOneAppends(s: Tables, u: UserId, r: Request, ctx: Context)
    requires ReserveOne(s, u, r, ctx).Ok?
    ensures AppendOnly(s.bank, ReserveOne(s, u, r, ctx).value.bank)
  {
    PostAppends(s.bank, u, ReservePosting(r, ctx), s.clock);
  }

  lemma {:induction false} ReserveEachAppends(s: Tables, u: UserId, rs: seq<Request>, ctx: Context)
    requires ReserveEach(s, u, rs, ctx).Ok?
    ensures AppendOnly(s.bank, ReserveEach(s, u, rs, ctx).value.bank)
    decreases |rs|
  {
    if rs != [] {
      var s1 := ReserveOne(s, u, rs[0], ctx).value;
      ReserveOneAppends(s, u, rs[0], ctx);
      ReserveEachAppends(s1, u, rs[1..], ctx);
      AppendedTwice(s.bank, s1.bank, ReserveEach(s, u, rs, ctx).value.bank);
    }
  }

  lemma {:induction false} ConfirmAppends(s: Tables, c: Caller, p: Preflight, blocked: bool, catalogue: map<QuestId, Listing>,
                                          ctx: Context)
    requires ConfirmOrder(s, c, p, blocked, catalogue, ctx).Ok?
    ensures AppendOnly(s.bank, ConfirmOrder(s, c, p, blocked, catalogue, ctx).value.bank)
  {
    ConfirmUnfolds(s, c, p, blocked, catalogue, ctx);
    var lines := s.sessions[c.session].selected;
    var s1 := CreateOrder(s, c.actor, p.account, lines, catalogue).value;
    ReserveEachAppends(s1, c.actor, RequestsFor(|s.items|, lines), ctx);
  }

  // ---------------------------------------------------------------- steps

  lemma JobStepKeepsBank(s: Tables, step: Step)
    requires step.Heartbeat? || step.BeginRun? || step.BeginSettling? || step.Complete? || step.Checkpoint?
             || step.Prepare? || step.Mark? || step.ReportProgress?
    requires Try(s, step).Ok?
    ensures Try(s, step).value.bank == s.bank
  {}

  lemma RowStepKeepsBank(s: Tables, step: Step)
    requires step.FailItem? || step.ToReview? || step.ForceFailItem?
    requires Try(s, step).Ok?
    ensures Try(s, step).value.bank == s.bank
  {}

  lemma QueueStepKeepsBank(s: Tables, step: Step)
    requires step.Dispatch? || step.Materialize? || step.OpenItemReview?
    requires Try(s, step).Ok?
    ensures Try(s, step).value.bank == s.bank
  {}

  lemma RunnerKeepsBank(s: Tables, step: Step)
    requires RunnerKind(step) && Try(s, step).Ok?
    ensures Try(s, step).value.bank == s.bank
  {
    if step.FailItem? || step.ToReview? || step.ForceFailItem? { RowStepKeepsBank(s, step); }
    else if step.Dispatch? || step.Materialize? || step.OpenItemReview? { QueueStepKeepsBank(s, step); }
    else { JobStepKeepsBank(s, step); }
  }

  lemma PaymentKeepsBank(s: Tables, step: Step)
    requires PaymentKind(step) && Try(s, step).Ok?
    ensures Try(s, step).value.bank == s.bank
  {}

  lemma SessionKeepsBank(s: Tables, step: Step)
    requires step.Tick? || step.StartSession? || step.Select? || step.Quote? || step.EndSessions?
    requires Try(s, step).Ok?
    ensures Try(s, step).value.bank == s.bank
  {}

  lemma SettleStepPosts(s: Tables, step: Step)
    requires step.CaptureItem? || step.ReleaseItem? || step.Refund?
    ensures PostsOnce(s, Try(s, step))
  {
    match step
    case CaptureItem(c, ctx) => CapturePosts(s, c.job, Some(c), ctx);
    case ReleaseItem(i, terminal, fence, ctx) => ReleasePosts(s, i, terminal, fence, ctx);
    case Refund(i, reason, expected) => RefundPosts(s, i, reason, expected);
  }

  lemma BalanceStepPosts(s: Tables, step: Step)
    requires step.Adjust? || step.Credit? || step.Reverse?
    ensures PostsOnce(s, Try(s, step))
  {
    match step
    case Adjust(u, amount, reason, ctx) => AdjustPosts(s, u, amount, reason, ctx);
    case Credit(t) => CreditPosts(s, t);
    case Reverse(t, reason) => ReversePosts(s, t, reason);
  }

  lemma ResolvePosts(s: Tables, d: Decision, reason: string, isOwner: bool, expected: Option<nat>, ctx: Context)
    ensures PostsOnce(s, ResolveReview(s, d, reason, isOwner, expected, ctx))
  {
    match d
    case ItemCase(i, choice) => ItemDecisionPosts(s, i, choice, ctx);
    case TopupCase(k, verdict) => TopupDecisionPosts(s, k, verdict);
  }

  lemma MoneyPosts(s: Tables, step: Step)
    requires MoneyKind(step) && !step.Prune?
    ensures PostsOnce(s, Try(s, step))
  {
    if step.CaptureItem? || step.ReleaseItem? || step.Refund? { SettleStepPosts(s, step); }
    else if step.Adjust? || step.Credit? || step.Reverse? { BalanceStepPosts(s, step); }
    else if step.Resolve? { ResolvePosts(s, step.decision, step.reason, step.isOwner, step.expected, step.context); }
    else { assert MaintenancePass(s).bank == s.bank; }
  }

  ghost predicate SameMoney(b: Bank, b': Bank) {
    forall v: UserId :: WalletOf(b', v) == WalletOf(b, v) && BookOf(b', v) == BookOf(b, v)
  }

  ghost predicate OneRowUnder(b: Bank, b': Bank, u: UserId, p: Posting, now: nat) {
    !KeyUsed(b, p.key) && PostedOnly(b, b', u, p, now)
  }

  lemma UsedKeyMovesNothing(b: Bank, b': Bank, u: UserId, p: Posting, now: nat)
    requires BankOk(b, now) && BankOk(b', now) && KeyUsed(b, p.key) && Post(b, u, p, now) == Ok(b')
    ensures SameMoney(b, b')
  {
    var b1 := b.(wallets := b.wallets[u := AfterPosting(WalletOf(b, u), p)]);
    assert KeyUsed(b1, p.key);
    forall v: UserId ensures WalletOf(b', v) == WalletOf(b, v) && BookOf(b', v) == BookOf(b, v) {
      assert UserBookOk(b, v, now) && UserBookOk(b', v, now);
    }
  }

  /** A money transaction leaves every wallet and ledger alone, or it moves one wallet
      and writes the one row for it, under a key that was free. */
  lemma MoneyMovesWithRow(s: Tables, step: Step)
    requires Inv(s) && MoneyKind(step) && !step.Prune? && Try(s, step).Ok?
    ensures var s' := Try(s, step).value;
            SameMoney(s.bank, s'.bank) || exists u, p :: OneRowUnder(s.bank, s'.bank, u, p, s.clock)
  {
    var s' := Try(s, step).value;
    MoneyPosts(s, step);
    if s'.bank != s.bank {
      var u, p :| Post(s.bank, u, p, s.clock) == Ok(s'.bank);
      BanksOk(s, step);
      if KeyUsed(s.bank, p.key) {
        UsedKeyMovesNothing(s.bank, s'.bank, u, p, s.clock);
      } else {
        PostKeepsBank(s.bank, u, p, s.clock);
        assert OneRowUnder(s.bank, s'.bank, u, p, s.clock);
      }
    }
  }

  lemma BanksOk(s: Tables, step: Step)
    requires Inv(s) && MoneyKind(step) && Try(s, step).Ok?
    ensures BankOk(s.bank, s.clock) && BankOk(Try(s, step).value.bank, s.clock)
  {
    StepGood(s, step);
    AllAspects(s);
    MoneyParts(s);
    AllAspects(Try(s, step).value);
    MoneyParts(Try(s, step).value);
    FairQueue.MoneyTurns(s, step);
  }

  /** Every step but the prune only adds rows, under keys no surviving row carries. */
  lemma StepAppends(s: Tables, step: Step)
    requires !step.Prune?
    ensures AppendOnly(s.bank, Apply(s, step).bank)
  {
    if Try(s, step).Ok? {
      if RunnerKind(step) { RunnerKeepsBank(s, step); }
      else if MoneyKind(step) { MoneyPosts(s, step); PostsOnceAppends(s, Try(s, step)); }
      else if PaymentKind(step) { PaymentKeepsBank(s, step); }
      else if step.Confirm? { ConfirmAppends(s, step.caller, step.preflight, step.blocked, step.catalogue, step.context); }
      else { SessionKeepsBank(s, step); }
    }
  }

  /** With retention too: what was ever written stays the beginning of every user's
      full history, and deleting rows never touches the rest. */
  lemma {:induction false} HistoryOnlyGrows(s: Tables, steps: seq<Step>, u: UserId)
    requires Inv(s)
    ensures History(BookOf(s.bank, u)) <= History(BookOf(Run(s, steps).bank, u))
    decreases |steps|
  {
    if steps != [] {
      StepKeepsHistory(s, steps[0], u);
      StepGood(s, steps[0]);
      HistoryOnlyGrows(Apply(s, steps[0]), steps[1..], u);
    }
  }

  lemma {:induction false} UnprunedAppends(s: Tables, steps: seq<Step>)
    requires forall k | 0 <= k < |steps| :: !steps[k].Prune?
    ensures AppendOnly(s.bank, Run(s, steps).bank)
    decreases |steps|
  {
    if steps != [] {
      StepAppends(s, steps[0]);
      UnprunedAppends(Apply(s, steps[0]), steps[1..]);
      AppendedTwice(s.bank, Apply(s, steps[0]).bank, Run(s, steps).bank);
    }
  }

  lemma PruneKeepsHistory(s: Tables, order: seq<UserId>, cutoff: nat, limit: int, u: UserId)
    requires Inv(s) && PruneTables(s, order, cutoff, limit).Ok?
    ensures History(BookOf(PruneTables(s, order, cutoff, limit).value.bank, u)) == History(BookOf(s.bank, u))
  {
    AllAspects(s);
    MoneyParts(s);
    PruneKeepsMeaning(s.bank, order, cutoff, limit, HeldUsers(s), s.refunds.Values, s.clock);
  }

  lemma StepKeepsHistory(s: Tables, step: Step, u: UserId)
    requires Inv(s)
    ensures History(BookOf(s.bank, u)) <= History(BookOf(Apply(s, step).bank, u))
  {
    if !step.Prune? {
      StepAppends(s, step);
      assert BookGrows(s.bank, Apply(s, step).bank, u);
    } else if Try(s, step).Ok? {
      PruneKeepsHistory(s, step.users, step.cutoff, step.limit, u);
    }
  }
}
