/** Jobs and items move together: every step of the runner, of maintenance, of
    administrators and of review decisions keeps them in lockstep. */
module Lockstep {
  import opened Common
  import opened Ledger
  import opened Schema
  import opened Wallet
  import opened Runner
  import opened Recovery

  const JobStates: set<Stage> :=
    {Queued, Leased, Running, Verifying, WaitingRateLimit, WaitingRetry, ManualReview, Settling, Completed, Failed}

  /** An open job whose item is not terminal is in exactly its item's state; a job
      has a lease exactly in the four worker states; an item that has a job is
      neither selected nor reserved; attempts and tokens count acquisitions. */
  predicate LockstepAt(s: Tables, i: nat) {
    i in s.jobs ==>
      var j := s.jobs[i];
      && i < |s.items| && s.items[i].state !in {Selected, Stage.Reserved}
      && j.state in JobStates && j.token == j.attempts && j.user in s.scheduler
      && (j.lease.Some? <==> j.state in LeaseStates)
      && (j.state !in ClosedJobStates && s.items[i].state !in TerminalItemStates ==> s.items[i].state == j.state)
  }

  ghost predicate LockstepOk(s: Tables) {
    forall i: nat :: LockstepAt(s, i)
  }

  // ---------------------------------------------------------------- runner steps

  lemma AcquireKeeps(s: Tables, i: ItemId, holder: WorkerId, ttl: nat)
    requires LockstepOk(s) && Acquire(s, i, holder, ttl).Ok?
    ensures LockstepOk(Acquire(s, i, holder, ttl).value)
  {
    forall k: nat ensures LockstepAt(Acquire(s, i, holder, ttl).value, k) { assert LockstepAt(s, k); }
  }

  lemma RenewKeeps(s: Tables, c: Claim, ttl: nat)
    requires LockstepOk(s) && Renew(s, c, ttl).Ok?
    ensures LockstepOk(Renew(s, c, ttl).value)
  {
    forall k: nat ensures LockstepAt(Renew(s, c, ttl).value, k) { assert LockstepAt(s, k); }
  }

  lemma TransitionRunningKeeps(s: Tables, seen: Seen)
    requires LockstepOk(s) && TransitionRunning(s, seen).Ok?
    ensures LockstepOk(TransitionRunning(s, seen).value)
  {
    forall k: nat ensures LockstepAt(TransitionRunning(s, seen).value, k) { assert LockstepAt(s, k); }
  }

  lemma TransitionToSettlingKeeps(s: Tables, seen: Seen)
    requires LockstepOk(s) && TransitionToSettling(s, seen).Ok?
    ensures LockstepOk(TransitionToSettling(s, seen).value)
  {
    forall k: nat ensures LockstepAt(TransitionToSettling(s, seen).value, k) { assert LockstepAt(s, k); }
  }

  lemma CompleteJobKeeps(s: Tables, seen: Seen)
    requires LockstepOk(s) && CompleteJob(s, seen).Ok?
    ensures LockstepOk(CompleteJob(s, seen).value)
  {
    forall k: nat ensures LockstepAt(CompleteJob(s, seen).value, k) { assert LockstepAt(s, k); }
  }

  lemma FailJobKeeps(s: Tables, i: ItemId)
    requires LockstepOk(s) && FailJob(s, i).Ok?
    ensures LockstepOk(FailJob(s, i).value)
  {
    forall k: nat ensures LockstepAt(FailJob(s, i).value, k) { assert LockstepAt(s, k); }
  }

  lemma CheckpointRetryKeeps(s: Tables, c: Claim, delay: nat)
    requires LockstepOk(s) && CheckpointRetry(s, c, delay).Ok?
    ensures LockstepOk(CheckpointRetry(s, c, delay).value)
  {
    forall k: nat ensures LockstepAt(CheckpointRetry(s, c, delay).value, k) { assert LockstepAt(s, k); }
  }

  lemma MoveToManualReviewKeeps(s: Tables, i: ItemId)
    requires LockstepOk(s)
    ensures LockstepOk(MoveToManualReview(s, i))
  {
    forall k: nat ensures LockstepAt(MoveToManualReview(s, i), k) { assert LockstepAt(s, k); }
  }

  lemma UpdateProgressKeeps(s: Tables, c: Claim, progress: int)
    requires LockstepOk(s) && UpdateProgress(s, c, progress).Ok?
    ensures LockstepOk(UpdateProgress(s, c, progress).value)
  {
    forall k: nat ensures LockstepAt(UpdateProgress(s, c, progress).value, k) { assert LockstepAt(s, k); }
  }

  lemma QueueItemKeeps(s: Tables, i: ItemId, u: UserId)
    requires LockstepOk(s) && QueueItem(s, i, u).Ok? && u in s.scheduler
    ensures LockstepOk(QueueItem(s, i, u).value)
  {
    forall k: nat ensures LockstepAt(QueueItem(s, i, u).value, k) { assert LockstepAt(s, k); }
  }

  lemma MutationsKeep(s: Tables, i: ItemId, ms: seq<Mutation>)
    requires LockstepOk(s) && i in s.jobs
    ensures LockstepOk(WithJob(s, i, s.jobs[i].(mutations := ms)))
  {
    forall k: nat ensures LockstepAt(WithJob(s, i, s.jobs[i].(mutations := ms)), k) { assert LockstepAt(s, k); }
  }

  // ---------------------------------------------------------------- settlement steps

  /** An item may become terminal while its job is still open: the job is exempt
      from then on. */
  lemma TerminalItemsKeep(s: Tables, s': Tables)
    requires LockstepOk(s) && s'.jobs == s.jobs && |s'.items| >= |s.items| && s.scheduler.Keys <= s'.scheduler.Keys
    requires forall i | 0 <= i < |s.items| && i in s.jobs ::
               s'.items[i].state == s.items[i].state || s'.items[i].state in TerminalItemStates
    ensures LockstepOk(s')
  {
    forall k: nat ensures LockstepAt(s', k) { assert LockstepAt(s, k); }
  }

  lemma FinalizeLeavesItems(s: Tables, o: OrderId)
    ensures var s' := FinalizeOrder(s, o);
            && s' == s.(orders := s'.orders, locks := s'.locks) && SameCustomers(s, s')
  {}

  ghost predicate SameCustomers(s: Tables, s': Tables) {
    |s'.orders| == |s.orders| && forall p | 0 <= p < |s.orders| :: s'.orders[p].user == s.orders[p].user
  }

  /** What settling item i touches, seen from outside: a held item goes to its next
      state, one that was settled before stays. */
  ghost predicate SettledAlone(s: Tables, s': Tables, i: ItemId, next: Stage)
    requires HasReservation(s, i)
  {
    && s' == s.(bank := s'.bank, items := s'.items, orders := s'.orders, locks := s'.locks)
    && |s'.items| == |s.items| && SameCustomers(s, s')
    && (if s.items[i].reservation.value.state == Held then s'.items[i].state == next else s'.items == s.items)
    && (forall k | 0 <= k < |s.items| && k != i :: s'.items[k] == s.items[k])
  }

  lemma SettleEffect(s: Tables, i: ItemId, next: Stage, state: ReservationState, bank: Bank)
    requires HasReservation(s, i) && s.items[i].reservation.value.state == Held
    ensures SettledAlone(s, FinalizeOrder(SettleItem(s, i, next, state).(bank := bank), s.items[i].order), i, next)
  {
    FinalizeLeavesItems(SettleItem(s, i, next, state).(bank := bank), s.items[i].order);
  }

  lemma CaptureEffect(s: Tables, i: ItemId, fence: Option<Claim>, ctx: Context)
    requires CaptureReservation(s, i, fence, ctx).Ok?
    ensures HasReservation(s, i) && SettledAlone(s, CaptureReservation(s, i, fence, ctx).value, i, ReadyToClaim)
  {
    var r := s.items[i].reservation.value;
    if r.state == Held {
      SettleEffect(s, i, ReadyToClaim, ReservationState.Captured,
                   Post(s.bank, r.user, CapturePosting(i, r.amount, ctx), s.clock).value);
    }
  }

  lemma ReleaseEffect(s: Tables, i: ItemId, terminal: Stage, fence: Option<Claim>, ctx: Context)
    requires ReleaseReservation(s, i, terminal, fence, ctx).Ok?
    ensures HasReservation(s, i) && SettledAlone(s, ReleaseReservation(s, i, terminal, fence, ctx).value, i, terminal)
  {
    var r := s.items[i].reservation.value;
    if r.state == Held {
      SettleEffect(s, i, terminal, ReservationState.Released,
                   Post(s.bank, r.user, ReleasePosting(i, r.amount, ctx), s.clock).value);
    }
  }

  lemma CaptureKeeps(s: Tables, i: ItemId, fence: Option<Claim>, ctx: Context)
    requires LockstepOk(s) && CaptureReservation(s, i, fence, ctx).Ok?
    ensures LockstepOk(CaptureReservation(s, i, fence, ctx).value)
  {
    CaptureEffect(s, i, fence, ctx);
    TerminalItemsKeep(s, CaptureReservation(s, i, fence, ctx).value);
  }

  lemma ReleaseKeeps(s: Tables, i: ItemId, terminal: Stage, fence: Option<Claim>, ctx: Context)
    requires LockstepOk(s) && ReleaseReservation(s, i, terminal, fence, ctx).Ok?
    ensures LockstepOk(ReleaseReservation(s, i, terminal, fence, ctx).value)
  {
    ReleaseEffect(s, i, terminal, fence, ctx);
    TerminalItemsKeep(s, ReleaseReservation(s, i, terminal, fence, ctx).value);
  }

  // ---------------------------------------------------------------- maintenance steps

  lemma RequeueExpiredKeeps(s: Tables)
    requires LockstepOk(s)
    ensures LockstepOk(RequeueExpired(s))
  {
    forall k: nat ensures LockstepAt(RequeueExpired(s), k) { assert LockstepAt(s, k); }
  }

  lemma CompleteCapturedKeeps(s: Tables)
    requires LockstepOk(s)
    ensures LockstepOk(CompleteCaptured(s))
  {
    forall k: nat ensures LockstepAt(CompleteCaptured(s), k) { assert LockstepAt(s, k); }
  }

  lemma RecoverCrashedKeeps(s: Tables)
    requires LockstepOk(s)
    ensures LockstepOk(RecoverCrashed(s))
  {
    forall k: nat ensures LockstepAt(RecoverCrashed(s), k) { assert LockstepAt(s, k); }
  }

  lemma RequeueRetriesKeeps(s: Tables)
    requires LockstepOk(s)
    ensures LockstepOk(RequeueRetries(s))
  {
    forall k: nat ensures LockstepAt(RequeueRetries(s), k) { assert LockstepAt(s, k); }
  }

  lemma MaintenanceKeeps(s: Tables)
    requires LockstepOk(s)
    ensures LockstepOk(MaintenancePass(s))
  {
    RequeueExpiredKeeps(s);
    CompleteCapturedKeeps(RequeueExpired(s));
    RecoverCrashedKeeps(RecoverExpiredLeases(s));
    RequeueRetriesKeeps(RecoverCrashed(RecoverExpiredLeases(s)));
    TerminalItemsKeep(RequeueRetries(RecoverCrashed(RecoverExpiredLeases(s))), MaintenancePass(s));
  }

  lemma ForceFailKeeps(s: Tables, i: ItemId)
    requires LockstepOk(s)
    ensures LockstepOk(ForceFail(s, i))
  {
    forall k: nat ensures LockstepAt(ForceFail(s, i), k) { assert LockstepAt(s, k); }
  }

  // ---------------------------------------------------------------- review steps

  lemma OneRowMoves(s: Tables, s': Tables, i: ItemId)
    requires LockstepOk(s) && LockstepAt(s', i) && s'.scheduler == s.scheduler && |s'.items| == |s.items|
    requires s'.jobs - {i} == s.jobs - {i}
    requires forall k | 0 <= k < |s.items| && k != i :: s'.items[k] == s.items[k]
    ensures LockstepOk(s')
  {
    forall k: nat ensures LockstepAt(s', k) {
      assert LockstepAt(s, k);
      if k != i {
        assert k in s'.jobs <==> k in s'.jobs - {i};
        assert k in s.jobs <==> k in s.jobs - {i};
        if k in s.jobs { assert (s'.jobs - {i})[k] == (s.jobs - {i})[k]; }
      }
    }
  }

  lemma ReviewRowsKeep(s: Tables, i: ItemId)
    requires LockstepOk(s) && i < |s.items| && ManualReview in ItemTransitions(s.items[i].state)
    ensures LockstepOk(ReviewRows(s, i))
  {
    forall k: nat ensures LockstepAt(ReviewRows(s, i), k) { assert LockstepAt(s, k); }
  }

  lemma OpenOrderItemReviewKeeps(s: Tables, i: ItemId, reason: string, ownerOnly: bool)
    requires LockstepOk(s) && OpenOrderItemReview(s, i, reason, ownerOnly).Ok?
    ensures LockstepOk(OpenOrderItemReview(s, i, reason, ownerOnly).value)
  {
    var s' := OpenOrderItemReview(s, i, reason, ownerOnly).value;
    if s.items[i].state == ManualReview {
      LockstepFrame(s, s');
    } else {
      ReviewRowsKeep(s, i);
      LockstepFrame(ReviewRows(s, i), s');
    }
  }

  lemma RetryDecisionKeeps(s: Tables, i: ItemId, ctx: Context)
    requires LockstepOk(s) && DecideItem(s, i, Retry, ctx).Ok?
    ensures LockstepOk(DecideItem(s, i, Retry, ctx).value)
  {
    forall k: nat ensures LockstepAt(DecideItem(s, i, Retry, ctx).value, k) { assert LockstepAt(s, k); }
  }

  lemma SettlingForCaptureEffect(s: Tables, i: ItemId)
    requires i < |s.items|
    ensures var mid := SettlingForCapture(s, i);
            && mid == s.(items := s.items[i := s.items[i].(state := Settling)], jobs := mid.jobs)
            && mid.jobs - {i} == s.jobs - {i} && mid.jobs.Keys == s.jobs.Keys
            && (i in s.jobs ==>
                  mid.jobs[i] == s.jobs[i].(state := mid.jobs[i].state, version := mid.jobs[i].version,
                                            lease := if s.jobs[i].state == ManualReview then None else s.jobs[i].lease))
  {}

  lemma CaptureDecisionEffect(s: Tables, i: ItemId, ctx: Context)
    requires DecideItem(s, i, CaptureIt, ctx).Ok?
    ensures var s' := DecideItem(s, i, CaptureIt, ctx).value;
            && i < |s.items| == |s'.items| && s'.scheduler == s.scheduler
            && s'.jobs - {i} == s.jobs - {i} && s'.jobs.Keys == s.jobs.Keys
            && (i in s.jobs ==>
                  s'.jobs[i] == s.jobs[i].(state := Completed, version := s'.jobs[i].version,
                                           lease := if s.jobs[i].state == ManualReview then None else s.jobs[i].lease))
            && s'.items[i].state in {Settling, ReadyToClaim}
            && (forall k | 0 <= k < |s.items| && k != i :: s'.items[k] == s.items[k])
  {
    SettlingForCaptureEffect(s, i);
    CaptureEffect(SettlingForCapture(s, i), i, None, ctx);
  }

  lemma CaptureDecisionKeeps(s: Tables, i: ItemId, ctx: Context)
    requires LockstepOk(s) && DecideItem(s, i, CaptureIt, ctx).Ok?
    ensures LockstepOk(DecideItem(s, i, CaptureIt, ctx).value)
  {
    CaptureDecisionEffect(s, i, ctx);
    assert LockstepAt(s, i);
    OneRowMoves(s, DecideItem(s, i, CaptureIt, ctx).value, i);
  }

  lemma ReleaseDecisionKeeps(s: Tables, i: ItemId, d: ItemDecision, ctx: Context)
    requires LockstepOk(s) && d !in {Retry, CaptureIt} && DecideItem(s, i, d, ctx).Ok?
    ensures LockstepOk(DecideItem(s, i, d, ctx).value)
  {
    ReleaseKeeps(s, i, ReleaseStage(d), None, ctx);
    ForceFailKeeps(ReleaseReservation(s, i, ReleaseStage(d), None, ctx).value, i);
  }

  /** Steps outside the runner's tables. */
  lemma LockstepFrame(s: Tables, s': Tables)
    requires LockstepOk(s) && s'.jobs == s.jobs && s'.items == s.items && s'.scheduler == s.scheduler
    ensures LockstepOk(s')
  {
    forall k: nat ensures LockstepAt(s', k) { assert LockstepAt(s, k); }
  }

  // ---------------------------------------------------------------- consequences

  /** A dispatch is refused for its item's state exactly when the item is terminal. */
  lemma DispatchRefusedIffTerminal(s: Tables, i: ItemId, holder: WorkerId, ttl: nat)
    requires LockstepOk(s) && Dispatchable(s, i)
    ensures i < |s.items|
    ensures Acquire(s, i, holder, ttl).Err? <==> s.items[i].state in TerminalItemStates
    ensures Acquire(s, i, holder, ttl).Err? ==> Acquire(s, i, holder, ttl) == Err(ItemStateConflict)
  {
    assert LockstepAt(s, i);
  }
}
