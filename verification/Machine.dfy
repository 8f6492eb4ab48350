/** The whole shop as a state machine: every transaction of every worker is one
    step, and a crash is the absence of the steps that would have followed. */
module Machine {
  import opened Common
  import opened Ledger
  import opened Schema
  import opened Wallet
  import opened Runner
  import opened Recovery
  import opened Payments
  import opened Checkout
  import opened Retention

  datatype Step =
    | Tick(seconds: nat)
    | StartSession(session: SessionId, row: Session)
    | Select(caller: Caller, lines: seq<Line>)
    | Quote(caller: Caller, catalogue: map<QuestId, Listing>)
    | Confirm(caller: Caller, preflight: Preflight, blocked: bool, catalogue: map<QuestId, Listing>, context: Context)
    | EndSessions
    | Dispatch(item: ItemId, holder: WorkerId, ttl: nat)
    | Heartbeat(claim: Claim, ttl: nat)
    | BeginRun(seen: Seen)
    | BeginSettling(seen: Seen)
    | Complete(seen: Seen)
    | FailItem(item: ItemId)
    | Checkpoint(claim: Claim, delay: nat)
    | ToReview(item: ItemId)
    | Materialize(order: OrderId)
    | Prepare(claim: Claim, kind: MutationKind, baseline: int)
    | ReportProgress(claim: Claim, progress: int)
    | Mark(claim: Claim, mutation: nat, status: MutationStatus, evidence: Option<Fresh>)
    | CaptureItem(claim: Claim, context: Context)
    | ReleaseItem(item: ItemId, terminal: Stage, fence: Option<Claim>, context: Context)
    | Refund(item: ItemId, reason: string, expected: Option<nat>)
    | Adjust(user: UserId, amount: int, reason: string, context: Context)
    | Submit(user: UserId, voucher: nat, blocked: bool, receiver: bool, promotion: Option<PromotionId>)
    | ClaimPayment(topup: TopupId, holder: WorkerId, ttl: nat)
    | RenewPay(pay: PayClaim, ttl: nat)
    | RecordAttempt(pay: PayClaim)
    | MarkSent(pay: PayClaim)
    | Answer(pay: PayClaim, reply: Reply, delay: nat)
    | Credit(topup: TopupId)
    | Reverse(topup: TopupId, reason: string)
    | Maintain
    | ForceFailItem(item: ItemId)
    | OpenItemReview(item: ItemId, reason: string, ownerOnly: bool)
    | Resolve(decision: Decision, reason: string, isOwner: bool, expected: Option<nat>, context: Context)
    | Prune(users: seq<UserId>, cutoff: nat, limit: int)

  /** The transaction of a step; a worker can only present what it was handed. */
  function Try(s: Tables, step: Step): Outcome<Tables> {
    match step
    case Tick(n) => Ok(s.(clock := s.clock + n))
    case StartSession(x, row) => CreateSession(s, x, row)
    case Select(c, lines) => UpdateSelection(s, c, lines)
    case Quote(c, catalogue) => BuildQuote(s, c, catalogue)
    case Confirm(c, p, blocked, catalogue, ctx) => ConfirmOrder(s, c, p, blocked, catalogue, ctx)
    case EndSessions => Ok(ExpireSessions(s))
    case Dispatch(i, holder, ttl) => Acquire(s, i, holder, ttl)
    case Heartbeat(c, ttl) => Renew(s, c, ttl)
    case BeginRun(seen) => TransitionRunning(s, seen)
    case BeginSettling(seen) => TransitionToSettling(s, seen)
    case Complete(seen) => CompleteJob(s, seen)
    case FailItem(i) => FailJob(s, i)
    case Checkpoint(c, delay) => CheckpointRetry(s, c, delay)
    case ToReview(i) => Ok(MoveToManualReview(s, i))
    case Materialize(o) => MaterializeNext(s, o)
    case Prepare(c, kind, baseline) => PrepareMutation(s, c, kind, baseline)
    case ReportProgress(c, progress) => UpdateProgress(s, c, progress)
    case Mark(c, k, status, evidence) => MarkMutation(s, c, k, status, evidence)
    case CaptureItem(c, ctx) => CaptureReservation(s, c.job, Some(c), ctx)
    case ReleaseItem(i, terminal, fence, ctx) => ReleaseReservation(s, i, terminal, fence, ctx)
    case Refund(i, reason, expected) => RefundCapturedItem(s, i, reason, expected)
    case Adjust(u, amount, reason, ctx) => AdjustBalance(s, u, amount, reason, ctx)
    case Submit(u, voucher, blocked, receiver, promotion) => SubmitVoucher(s, u, voucher, blocked, receiver, promotion)
    case ClaimPayment(t, holder, ttl) => AcquirePayment(s, t, holder, ttl)
    case RenewPay(c, ttl) => RenewPayment(s, c, ttl)
    case RecordAttempt(c) => if Issued(s, c) then CreateAttempt(s, c) else Err(NotFound)
    case MarkSent(c) => if Issued(s, c) then Ok(MarkPossiblySent(s, c)) else Err(NotFound)
    case Answer(c, r, delay) => if Plausible(s, c, r) then RecordResult(s, c, r, delay) else Err(NotFound)
    case Credit(t) => if SeenRedeemed(s, t) then CreditRedeemedTopup(s, t) else Err(NotFound)
    case Reverse(t, reason) => ReverseTopup(s, t, reason)
    case Maintain => Ok(MaintenancePass(s))
    case ForceFailItem(i) => Ok(ForceFail(s, i))
    case OpenItemReview(i, reason, ownerOnly) => OpenOrderItemReview(s, i, reason, ownerOnly)
    case Resolve(d, reason, isOwner, expected, ctx) => ResolveReview(s, d, reason, isOwner, expected, ctx)
    case Prune(users, cutoff, limit) => PruneTables(s, users, cutoff, limit)
  }

  /** A refused transaction rolls back. */
  function Apply(s: Tables, step: Step): Tables {
    Settled(Try(s, step), s)
  }

  function Run(s: Tables, steps: seq<Step>): Tables
    decreases |steps|
  {
    if steps == [] then s else Run(Apply(s, steps[0]), steps[1..])
  }

  lemma {:induction false} RunAgain(s: Tables, steps: seq<Step>, last: Step)
    ensures Run(s, steps + [last]) == Apply(Run(s, steps), last)
    decreases |steps|
  {
    if steps == [] {
      assert [] + [last] == [last] && [last][1..] == [];
      assert Run(s, [last]) == Run(Apply(s, last), []);
    } else {
      assert (steps + [last])[1..] == steps[1..] + [last];
      RunAgain(Apply(s, steps[0]), steps[1..], last);
    }
  }

  // ---------------------------------------------------------------- kinds of steps

  predicate RunnerKind(step: Step) {
    || step.Dispatch? || step.Heartbeat? || step.BeginRun? || step.BeginSettling? || step.Complete? || step.FailItem?
    || step.Checkpoint? || step.ToReview? || step.Materialize? || step.Prepare? || step.Mark?
    || step.ReportProgress? || step.ForceFailItem? || step.OpenItemReview?
  }

  predicate MoneyKind(step: Step) {
    || step.CaptureItem? || step.ReleaseItem? || step.Refund? || step.Adjust? || step.Credit? || step.Reverse?
    || step.Prune? || step.Maintain? || step.Resolve?
  }

  predicate PaymentKind(step: Step) {
    step.Submit? || step.ClaimPayment? || step.RenewPay? || step.RecordAttempt? || step.MarkSent? || step.Answer?
  }
}
