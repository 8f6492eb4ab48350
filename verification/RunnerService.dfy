/** The runner's transactions as they run. */
module RunnerService {
  import opened Common
  import opened Ledger
  import opened Schema
  import opened Wallet
  import opened Runner
  import opened Recovery

  /** UPDATE order_items SET state ... WHERE id AND state = `from` */
  method MoveItem(db: Database, i: ItemId, from: Stage, to: Stage) returns (moved: bool)
    modifies db`items
    ensures moved == ItemIn(old(db.Read()), i, from)
    ensures db.items == if moved then SetStage(old(db.items), i, to) else old(db.items)
  {
    moved := ItemIn(db.Read(), i, from);
    if moved { db.items := db.items[i := db.items[i].(state := to)]; }
  }

  /** `acquireRunnableJob`, for the row the query picked. */
  method AcquireJob(db: Database, i: ItemId, holder: WorkerId, ttl: nat) returns (error: Option<Error>)
    modifies db`jobs, db`scheduler, db`items, db`clock
    ensures Committed(old(db.Read()), db.Read(), error, Acquire(old(db.Read()), i, holder, ttl))
  {
    if !Dispatchable(db.Read(), i) { return Some(NotFound); }
    var moved := MoveItem(db, i, Queued, Leased);
    if !moved { return Some(ItemStateConflict); }
    var j := db.jobs[i];
    db.jobs := db.jobs[i := j.(state := Leased, version := j.version + 1, lease := Some(Lease(holder, db.clock + ttl)),
                               token := j.token + 1, attempts := j.attempts + 1)];
    db.scheduler := db.scheduler[j.user := Turn(Some(db.clock), db.clock)];
    db.clock := db.clock + 1;
    error := None;
  }

  method RenewLease(db: Database, c: Claim, ttl: nat) returns (error: Option<Error>)
    modifies db`jobs
    ensures Committed(old(db.Read()), db.Read(), error, Renew(old(db.Read()), c, ttl))
  {
    if !Owns(db.Read(), c) || db.jobs[c.job].state in ClosedJobStates { return Some(FencingLost); }
    db.jobs := db.jobs[c.job := db.jobs[c.job].(lease := Some(Lease(c.owner, db.clock + ttl)))];
    error := None;
  }

  /** `updateOwnedJob` */
  method MoveOwnedJob(db: Database, seen: Seen, next: Stage, releaseLease: bool) returns (error: Option<Error>)
    modifies db`jobs
    ensures var job := UpdateOwnedJob(old(db.Read()), seen, next, releaseLease);
            && error == ErrorOf(job)
            && db.jobs == if job.Ok? then old(db.jobs)[seen.claim.job := job.value] else old(db.jobs)
  {
    if next !in JobTransitions(seen.state) { return Some(IllegalTransition); }
    if !Owns(db.Read(), seen.claim) || db.jobs[seen.claim.job].version != seen.version { return Some(FencingLost); }
    var j := db.jobs[seen.claim.job];
    db.jobs := db.jobs[seen.claim.job := j.(state := next, version := j.version + 1,
                                            lease := if releaseLease then None else j.lease)];
    error := None;
  }

  /** `transitionRunning` */
  method BeginRunning(db: Database, seen: Seen) returns (error: Option<Error>)
    modifies db`jobs, db`items
    ensures Committed(old(db.Read()), db.Read(), error, TransitionRunning(old(db.Read()), seen))
  {
    var jobs := db.jobs;
    error := MoveOwnedJob(db, seen, Running, false);
    if error != None { return; }
    var moved := MoveItem(db, seen.claim.job, Leased, Running);
    if !moved {
      db.jobs := jobs;
      error := Some(ItemStateConflict);
    }
  }

  /** `transitionToSettling`: VERIFYING and SETTLING in one transaction. */
  method BeginSettling(db: Database, seen: Seen) returns (error: Option<Error>)
    modifies db`jobs, db`items
    ensures Committed(old(db.Read()), db.Read(), error, TransitionToSettling(old(db.Read()), seen))
  {
    var i, jobs, items := seen.claim.job, db.jobs, db.items;
    error := MoveOwnedJob(db, seen, Verifying, false);
    if error != None { return; }
    var moved := MoveItem(db, i, Running, Verifying);
    if !moved {
      db.jobs := jobs;
      return Some(ItemStateConflict);
    }
    error := MoveOwnedJob(db, Seen(seen.claim, Verifying, db.jobs[i].version), Settling, false);
    if error != None {
      db.jobs, db.items := jobs, items;
      return;
    }
    db.items := SetStage(db.items, i, Settling);
  }

  /** `completeJob` */
  method Complete(db: Database, seen: Seen) returns (error: Option<Error>)
    modifies db`jobs
    ensures Committed(old(db.Read()), db.Read(), error, CompleteJob(old(db.Read()), seen))
  {
    error := MoveOwnedJob(db, seen, Completed, true);
  }

  /** `failJob`: the row is read again, so it is fenced by whoever holds it now. */
  method Fail(db: Database, i: ItemId) returns (error: Option<Error>)
    modifies db`jobs
    ensures Committed(old(db.Read()), db.Read(), error, FailJob(old(db.Read()), i))
  {
    if i !in db.jobs || db.jobs[i].state in ClosedJobStates { return None; }
    if db.jobs[i].lease.None? { return Some(FencingLost); }
    error := MoveOwnedJob(db, SeenOf(db.Read(), i), Failed, true);
  }

  /** Job and item leave the worker for state `next`. */
  method ParkJob(db: Database, i: ItemId, next: Stage, delay: nat)
    requires i in db.jobs
    modifies db`jobs, db`items
    ensures db.jobs == old(db.jobs)[i := old(db.jobs)[i].(state := next, version := old(db.jobs)[i].version + 1,
                                                          availableAt := db.clock + delay, lease := None)]
    ensures db.items == SetStage(old(db.items), i, next)
  {
    var j := db.jobs[i];
    db.jobs := db.jobs[i := j.(state := next, version := j.version + 1, availableAt := db.clock + delay, lease := None)];
    if i < |db.items| { db.items := db.items[i := db.items[i].(state := next)]; }
  }

  /** `checkpointRetryJob` */
  method CheckpointJob(db: Database, c: Claim, delay: nat) returns (error: Option<Error>)
    modifies db`jobs, db`items, db`reviews
    ensures Committed(old(db.Read()), db.Read(), error, CheckpointRetry(old(db.Read()), c, delay))
  {
    if !Owns(db.Read(), c) { return Some(FencingLost); }
    var next := RetryState(db.jobs[c.job].state);
    ParkJob(db, c.job, next, delay);
    if next == ManualReview { db.reviews := OpenReview(db.reviews, ItemSubject(c.job), false); }
    error := None;
  }

  /** `updateItemProgress` */
  method ReportProgress(db: Database, c: Claim, progress: int) returns (error: Option<Error>)
    modifies db`items
    ensures Committed(old(db.Read()), db.Read(), error, UpdateProgress(old(db.Read()), c, progress))
    ensures |db.items| == |old(db.items)| && forall i | 0 <= i < |db.items| :: old(db.items)[i].progress <= db.items[i].progress
  {
    if !Owns(db.Read(), c) { return Some(FencingLost); }
    error := None;
    if c.job >= |db.items| || db.items[c.job].state in TerminalItemStates { return; }
    if db.items[c.job].progress < progress { db.items := db.items[c.job := db.items[c.job].(progress := progress)]; }
  }

  /** `moveRunnerToManualReview` */
  method MoveToReview(db: Database, i: ItemId)
    modifies db`jobs, db`items, db`reviews
    ensures db.Read() == MoveToManualReview(old(db.Read()), i)
  {
    if i !in db.jobs || db.jobs[i].state in ClosedJobStates + {ManualReview} { return; }
    db.jobs := db.jobs[i := db.jobs[i].(state := ManualReview, version := db.jobs[i].version + 1, lease := None)];
    db.items := SetStage(db.items, i, ManualReview);
    db.reviews := OpenReview(db.reviews, ItemSubject(i), false);
  }

  /** The first reserved item of an order in sequence order, by scanning the items. */
  method FindReserved(db: Database, o: OrderId) returns (first: Option<ItemId>)
    ensures first == FirstReserved(db.items, o, 0)
  {
    var i := 0;
    while i < |db.items| && !(db.items[i].order == o && db.items[i].state == Stage.Reserved)
      invariant 0 <= i <= |db.items| && FirstReserved(db.items, o, 0) == FirstReserved(db.items, o, i)
    {
      i := i + 1;
    }
    first := if i < |db.items| then Some(i) else None;
  }

  /** A reserved item is queued with a new job. */
  method Queue(db: Database, i: ItemId, u: UserId) returns (error: Option<Error>)
    modifies db`jobs, db`items
    ensures Committed(old(db.Read()), db.Read(), error, QueueItem(old(db.Read()), i, u))
  {
    if !ItemIn(db.Read(), i, Stage.Reserved) { return Some(ItemStateConflict); }
    if i in db.jobs { return Some(UniqueViolation); }
    db.jobs := db.jobs[i := NewJob(db.Read(), i, u)];
    db.items := SetStage(db.items, i, Queued);
    error := None;
  }

  /** `materializeNextOrderItem` */
  method Materialize(db: Database, o: OrderId) returns (error: Option<Error>)
    modifies db`jobs, db`items
    ensures Committed(old(db.Read()), db.Read(), error, MaterializeNext(old(db.Read()), o))
  {
    if QueueLength(db.jobs) >= QueueLimit || o >= |db.orders| { return None; }
    var first := FindReserved(db, o);
    if first.None? { return None; }
    error := Queue(db, first.value, db.orders[o].user);
  }

  /** `prepareMutation` */
  method Prepare(db: Database, c: Claim, kind: MutationKind, baseline: int) returns (error: Option<Error>)
    modifies db`jobs
    ensures Committed(old(db.Read()), db.Read(), error, PrepareMutation(old(db.Read()), c, kind, baseline))
  {
    if !Owns(db.Read(), c) { return Some(FencingLost); }
    var j := db.jobs[c.job];
    if HasUnsettled(j.mutations) { return Some(StaleState); }
    db.jobs := db.jobs[c.job := j.(mutations := j.mutations + [Mutation(kind, baseline, InFlight, None)])];
    error := None;
  }

  /** `markMutation` */
  method Mark(db: Database, c: Claim, k: nat, status: MutationStatus, evidence: Option<Fresh>) returns (error: Option<Error>)
    modifies db`jobs
    ensures Committed(old(db.Read()), db.Read(), error, MarkMutation(old(db.Read()), c, k, status, evidence))
  {
    if !Owns(db.Read(), c) || k >= |db.jobs[c.job].mutations| { return Some(FencingLost); }
    var j := db.jobs[c.job];
    db.jobs := db.jobs[c.job := j.(mutations := j.mutations[k := j.mutations[k].(status := status, evidence := evidence)])];
    error := None;
  }

  // ---------------------------------------------------------------- administrators

  method WriteReviewRows(db: Database, i: ItemId)
    modifies db`items, db`jobs
    ensures db.Read() == ReviewRows(old(db.Read()), i)
  {
    db.items := SetStage(db.items, i, ManualReview);
    if i in db.jobs && db.jobs[i].state !in ClosedJobStates {
      db.jobs := db.jobs[i := db.jobs[i].(state := ManualReview, lease := None, version := db.jobs[i].version + 1)];
    }
  }

  /** `openOrderItemReview` */
  method OpenItemReview(db: Database, i: ItemId, reason: string, ownerOnly: bool) returns (error: Option<Error>)
    modifies db`items, db`jobs, db`reviews
    ensures Committed(old(db.Read()), db.Read(), error, OpenOrderItemReview(old(db.Read()), i, reason, ownerOnly))
  {
    if Blank(reason) { return Some(InvalidArgument); }
    if i >= |db.items| { return Some(NotFound); }
    if db.items[i].state != ManualReview {
      if ManualReview !in ItemTransitions(db.items[i].state) { return Some(IllegalTransition); }
      WriteReviewRows(db, i);
    }
    db.reviews := OpenReview(db.reviews, ItemSubject(i), ownerOnly);
    error := None;
  }
}
