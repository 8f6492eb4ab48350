/** Runner, maintenance and review-opening steps keep the invariant. */
module RunnerSteps {
  import opened Common
  import opened Ledger
  import opened Schema
  import opened Wallet
  import opened Settlement
  import opened Runner
  import opened Recovery
  import opened Lockstep
  import opened Frames

  lemma HasJobRow(s: Tables, i: ItemId)
    requires Inv(s) && i in s.jobs
    ensures i < |s.items| && s.items[i].state != Selected && LockstepOk(s)
  {
    assert Holds(s, LockstepAspect);
    assert LockstepAt(s, i);
  }

  lemma DispatchGood(s: Tables, i: ItemId, holder: WorkerId, ttl: nat)
    requires Inv(s) && Acquire(s, i, holder, ttl).Ok?
    ensures Good(s, Acquire(s, i, holder, ttl).value)
  {
    HasJobRow(s, i);
    AcquireKeeps(s, i, holder, ttl);
    RunnerStepGood(s, Acquire(s, i, holder, ttl).value);
  }

  lemma RenewGood(s: Tables, c: Claim, ttl: nat)
    requires Inv(s) && Renew(s, c, ttl).Ok?
    ensures Good(s, Renew(s, c, ttl).value)
  {
    HasJobRow(s, c.job);
    RenewKeeps(s, c, ttl);
    RunnerStepGood(s, Renew(s, c, ttl).value);
  }

  lemma BeginRunGood(s: Tables, seen: Seen)
    requires Inv(s) && TransitionRunning(s, seen).Ok?
    ensures Good(s, TransitionRunning(s, seen).value)
  {
    HasJobRow(s, seen.claim.job);
    TransitionRunningKeeps(s, seen);
    RunnerStepGood(s, TransitionRunning(s, seen).value);
  }

  lemma BeginSettlingGood(s: Tables, seen: Seen)
    requires Inv(s) && TransitionToSettling(s, seen).Ok?
    ensures Good(s, TransitionToSettling(s, seen).value)
  {
    HasJobRow(s, seen.claim.job);
    TransitionToSettlingKeeps(s, seen);
    RunnerStepGood(s, TransitionToSettling(s, seen).value);
  }

  lemma CompleteGood(s: Tables, seen: Seen)
    requires Inv(s) && CompleteJob(s, seen).Ok?
    ensures Good(s, CompleteJob(s, seen).value)
  {
    HasJobRow(s, seen.claim.job);
    CompleteJobKeeps(s, seen);
    RunnerStepGood(s, CompleteJob(s, seen).value);
  }

  lemma FailItemGood(s: Tables, i: ItemId)
    requires Inv(s) && FailJob(s, i).Ok?
    ensures Good(s, FailJob(s, i).value)
  {
    assert Holds(s, LockstepAspect);
    FailJobKeeps(s, i);
    RunnerStepGood(s, FailJob(s, i).value);
  }

  lemma CheckpointGood(s: Tables, c: Claim, delay: nat)
    requires Inv(s) && CheckpointRetry(s, c, delay).Ok?
    ensures Good(s, CheckpointRetry(s, c, delay).value)
  {
    HasJobRow(s, c.job);
    CheckpointRetryKeeps(s, c, delay);
    RunnerStepGood(s, CheckpointRetry(s, c, delay).value);
  }

  lemma ToReviewGood(s: Tables, i: ItemId)
    requires Inv(s)
    ensures Good(s, MoveToManualReview(s, i))
  {
    assert Holds(s, LockstepAspect);
    if i in s.jobs { HasJobRow(s, i); }
    MoveToManualReviewKeeps(s, i);
    RunnerStepGood(s, MoveToManualReview(s, i));
  }

  lemma ProgressGood(s: Tables, c: Claim, progress: int)
    requires Inv(s) && UpdateProgress(s, c, progress).Ok?
    ensures Good(s, UpdateProgress(s, c, progress).value)
  {
    HasJobRow(s, c.job);
    assert Holds(s, SettlementAspect);
    assert RowsOk(s, c.job);
    UpdateProgressKeeps(s, c, progress);
    RunnerStepGood(s, UpdateProgress(s, c, progress).value);
  }

  lemma QueueItemGood(s: Tables, i: ItemId, u: UserId)
    requires Inv(s) && QueueItem(s, i, u).Ok? && u in s.scheduler
    ensures Good(s, QueueItem(s, i, u).value)
  {
    assert Holds(s, LockstepAspect);
    QueueItemKeeps(s, i, u);
    RunnerStepGood(s, QueueItem(s, i, u).value);
  }

  lemma MaterializeGood(s: Tables, o: OrderId)
    requires Inv(s) && MaterializeNext(s, o).Ok?
    ensures Good(s, MaterializeNext(s, o).value)
  {
    var s' := MaterializeNext(s, o).value;
    if s' == s {
      NothingChanged(s);
    } else {
      assert Holds(s, RegistryAspect);
      assert RegistryAt(s, o);
      QueueItemGood(s, FirstReserved(s.items, o, 0).value, s.orders[o].user);
    }
  }

  lemma PrepareGood(s: Tables, c: Claim, kind: MutationKind, baseline: int)
    requires Inv(s) && PrepareMutation(s, c, kind, baseline).Ok?
    ensures Good(s, PrepareMutation(s, c, kind, baseline).value)
  {
    HasJobRow(s, c.job);
    MutationsKeep(s, c.job, s.jobs[c.job].mutations + [Mutation(kind, baseline, InFlight, None)]);
    RunnerStepGood(s, PrepareMutation(s, c, kind, baseline).value);
  }

  lemma MarkGood(s: Tables, c: Claim, k: nat, status: MutationStatus, evidence: Option<Fresh>)
    requires Inv(s) && MarkMutation(s, c, k, status, evidence).Ok?
    ensures Good(s, MarkMutation(s, c, k, status, evidence).value)
  {
    HasJobRow(s, c.job);
    var ms := s.jobs[c.job].mutations;
    MutationsKeep(s, c.job, ms[k := ms[k].(status := status, evidence := evidence)]);
    RunnerStepGood(s, MarkMutation(s, c, k, status, evidence).value);
  }

  lemma ForceFailGood(s: Tables, i: ItemId)
    requires Inv(s)
    ensures Good(s, ForceFail(s, i))
  {
    assert Holds(s, LockstepAspect);
    ForceFailKeeps(s, i);
    RunnerStepGood(s, ForceFail(s, i));
  }

  lemma ReviewRowsStepAt(s: Tables, i: ItemId, k: nat)
    requires i < |s.items| && ManualReview in ItemTransitions(s.items[i].state)
    ensures RunnerStepAt(s, ReviewRows(s, i), k)
  {}

  lemma OpenItemReviewStepAt(s: Tables, i: ItemId, reason: string, ownerOnly: bool, k: nat)
    requires OpenOrderItemReview(s, i, reason, ownerOnly).Ok?
    ensures RunnerStepAt(s, OpenOrderItemReview(s, i, reason, ownerOnly).value, k)
  {
    if s.items[i].state != ManualReview { ReviewRowsStepAt(s, i, k); }
  }

  lemma OpenItemReviewGood(s: Tables, i: ItemId, reason: string, ownerOnly: bool)
    requires Inv(s) && OpenOrderItemReview(s, i, reason, ownerOnly).Ok?
    ensures Good(s, OpenOrderItemReview(s, i, reason, ownerOnly).value)
  {
    assert Holds(s, LockstepAspect);
    OpenOrderItemReviewKeeps(s, i, reason, ownerOnly);
    var s' := OpenOrderItemReview(s, i, reason, ownerOnly).value;
    forall k: nat ensures RunnerStepAt(s, s', k) { OpenItemReviewStepAt(s, i, reason, ownerOnly, k); }
    RunnerStepGood(s, s');
  }

  lemma RetryDecisionGood(s: Tables, i: ItemId, ctx: Context)
    requires Inv(s) && DecideItem(s, i, Retry, ctx).Ok?
    ensures Good(s, DecideItem(s, i, Retry, ctx).value)
  {
    HasJobRow(s, i);
    RetryDecisionKeeps(s, i, ctx);
    RunnerStepGood(s, DecideItem(s, i, Retry, ctx).value);
  }

  // ---------------------------------------------------------------- maintenance

  lemma RequeueExpiredGood(s: Tables)
    requires Inv(s)
    ensures Good(s, RequeueExpired(s))
  {
    assert Holds(s, LockstepAspect);
    RequeueExpiredKeeps(s);
    RunnerStepGood(s, RequeueExpired(s));
  }

  lemma CompleteCapturedGood(s: Tables)
    requires Inv(s)
    ensures Good(s, CompleteCaptured(s))
  {
    assert Holds(s, LockstepAspect);
    CompleteCapturedKeeps(s);
    RunnerStepGood(s, CompleteCaptured(s));
  }

  lemma RecoverCrashedStepAt(s: Tables, k: nat)
    requires LockstepOk(s)
    ensures RunnerStepAt(s, RecoverCrashed(s), k)
  {
    assert LockstepAt(s, k);
  }

  lemma RecoverCrashedGood(s: Tables)
    requires Inv(s)
    ensures Good(s, RecoverCrashed(s))
  {
    assert Holds(s, LockstepAspect);
    RecoverCrashedKeeps(s);
    forall k: nat ensures RunnerStepAt(s, RecoverCrashed(s), k) { RecoverCrashedStepAt(s, k); }
    RunnerStepGood(s, RecoverCrashed(s));
  }

  lemma RequeueRetriesGood(s: Tables)
    requires Inv(s)
    ensures Good(s, RequeueRetries(s))
  {
    assert Holds(s, LockstepAspect);
    RequeueRetriesKeeps(s);
    RunnerStepGood(s, RequeueRetries(s));
  }
}
