/** What a runner worker does around the execution of a job: release before it starts,
    and the resolution of a failure that happens before it starts. A failure later on
    is not caught, because the execution is returned without being awaited; such a job
    waits for its lease to run out. */
module RunnerWorker {
  import opened Common
  import opened Ledger
  import opened Schema
  import opened Wallet
  import opened Runner
  import opened Recovery
  import opened Settlement
  import opened WalletLaws
  import opened Lockstep
  import opened MaintenanceLaws
  import opened Machine
  import opened Frames
  import opened Findings
  import WalletService
  import RunnerService

  datatype Failure = LostLease | AbortedRun | Transient | Ambiguity | ContractBroken | Business

  const MaxTransientAttempts := 3

  /** Release, then the job fails, then the next item gets its job; a refused release or
      a refused failure ends the worker, and what was committed before stays. */
  function ReleaseAndGoOn(s: Tables, c: Claim, terminal: Stage, order: Option<OrderId>, ctx: Context): Tables {
    var released := ReleaseReservation(s, c.job, terminal, Some(c), ctx);
    if released.Err? then s
    else
      var failed := FailJob(released.value, c.job);
      if failed.Err? then released.value
      else if order.None? then failed.value
      else Settled(MaterializeNext(failed.value, order.value), failed.value)
  }

  /** `resolveRunnerFailure` */
  function ResolveFailure(s: Tables, c: Claim, f: Failure, attempts: nat, delay: nat, order: Option<OrderId>, ctx: Context): Tables {
    if f == LostLease then s
    else if f == AbortedRun || (f == Transient && attempts < MaxTransientAttempts) then Settled(CheckpointRetry(s, c, delay), s)
    else if f == Ambiguity || f == ContractBroken then MoveToManualReview(s, c.job)
    else ReleaseAndGoOn(s, c, FailedReleased, order, ctx)
  }

  // ---------------------------------------------------------------- as it runs

  method ReleaseJob(db: Database, c: Claim, terminal: Stage, order: Option<OrderId>, ctx: Context)
    modifies db`bank, db`items, db`orders, db`locks, db`jobs
    ensures db.Read() == ReleaseAndGoOn(old(db.Read()), c, terminal, order, ctx)
  {
    var error := WalletService.Release(db, c.job, terminal, Some(c), ctx);
    if error != None { return; }
    error := RunnerService.Fail(db, c.job);
    if error != None { return; }
    if order.Some? { error := RunnerService.Materialize(db, order.value); }
  }

  method Resolve(db: Database, c: Claim, f: Failure, attempts: nat, delay: nat, order: Option<OrderId>, ctx: Context)
    modifies db`bank, db`items, db`orders, db`locks, db`jobs, db`reviews
    ensures db.Read() == ResolveFailure(old(db.Read()), c, f, attempts, delay, order, ctx)
  {
    if f == LostLease { return; }
    if f == AbortedRun || (f == Transient && attempts < MaxTransientAttempts) {
      var error := RunnerService.CheckpointJob(db, c, delay);
    } else if f == Ambiguity || f == ContractBroken {
      RunnerService.MoveToReview(db, c.job);
    } else {
      ReleaseJob(db, c, FailedReleased, order, ctx);
    }
  }

  // ---------------------------------------------------------------- what becomes of a failure

  /** What a worker does that gives its item up: its cents back, the job failed, the next item
      queued, as far as none of it is refused. */
  predicate GivesUp(s: Tables, steps: seq<Step>, c: Claim, terminal: Stage, order: Option<OrderId>, ctx: Context) {
    var release, fail := ReleaseItem(c.job, terminal, Some(c), ctx), FailItem(c.job);
    if Try(s, release).Err? then steps == []
    else if Try(Apply(s, release), fail).Err? then steps == [release]
    else steps == [release, fail] + if order.Some? then [Materialize(order.value)] else []
  }

  /** The transactions of a resolution are steps of the shop: a worker that lost its lease makes
      none; one that was stopped, or failed for the first or second time for a passing reason,
      gives the job back; when nobody knows what happened a person must look; and otherwise the
      item is given up. */
  lemma {:induction false} ResolutionIsRun(s: Tables, c: Claim, f: Failure, attempts: nat, delay: nat, order: Option<OrderId>,
                                           ctx: Context) returns (steps: seq<Step>)
    ensures Run(s, steps) == ResolveFailure(s, c, f, attempts, delay, order, ctx)
    ensures match f
            case LostLease => steps == []
            case AbortedRun => steps == [Step.Checkpoint(c, delay)]
            case Transient => if attempts < 3 then steps == [Step.Checkpoint(c, delay)] else GivesUp(s, steps, c, FailedReleased, order, ctx)
            case Ambiguity => steps == [ToReview(c.job)]
            case ContractBroken => steps == [ToReview(c.job)]
            case Business => GivesUp(s, steps, c, FailedReleased, order, ctx)
  {
    if f == LostLease {
      steps := [];
    } else if f == AbortedRun || (f == Transient && attempts < MaxTransientAttempts) {
      steps := OneStep(s, Step.Checkpoint(c, delay));
    } else if f == Ambiguity || f == ContractBroken {
      steps := OneStep(s, ToReview(c.job));
    } else {
      steps := ReleaseIsRun(s, c, FailedReleased, order, ctx);
    }
  }

  lemma {:induction false} OneStep(s: Tables, step: Step) returns (steps: seq<Step>)
    ensures steps == [step] && Run(s, steps) == Apply(s, step)
  {
    steps := [step];
    assert steps[1..] == [];
  }

  lemma {:induction false} ReleaseIsRun(s: Tables, c: Claim, terminal: Stage, order: Option<OrderId>, ctx: Context)
    returns (steps: seq<Step>)
    ensures Run(s, steps) == ReleaseAndGoOn(s, c, terminal, order, ctx) && GivesUp(s, steps, c, terminal, order, ctx)
  {
    var released := ReleaseReservation(s, c.job, terminal, Some(c), ctx);
    ReleaseStep(s, c.job, terminal, Some(c), ctx);
    if released.Err? { return []; }
    steps := OneStep(s, ReleaseItem(c.job, terminal, Some(c), ctx));
    FailStep(released.value, c.job);
    if FailJob(released.value, c.job).Ok? {
      steps := FailIsRun(s, steps, c.job);
      steps := GoOnIsRun(s, steps, order);
    }
  }

  lemma FailStep(s: Tables, i: ItemId)
    ensures Try(s, FailItem(i)) == FailJob(s, i)
  {}

  lemma ReleaseStep(s: Tables, i: ItemId, terminal: Stage, fence: Option<Claim>, ctx: Context)
    ensures Try(s, ReleaseItem(i, terminal, fence, ctx)) == ReleaseReservation(s, i, terminal, fence, ctx)
  {}

  lemma {:induction false} FailIsRun(s: Tables, before: seq<Step>, i: ItemId) returns (steps: seq<Step>)
    ensures steps == before + [FailItem(i)] && Run(s, steps) == Settled(FailJob(Run(s, before), i), Run(s, before))
  {
    steps := before + [FailItem(i)];
    RunAgain(s, before, FailItem(i));
  }

  lemma {:induction false} GoOnIsRun(s: Tables, before: seq<Step>, order: Option<OrderId>) returns (steps: seq<Step>)
    ensures steps == before + if order.Some? then [Materialize(order.value)] else []
    ensures var now := Run(s, before);
            Run(s, steps) == if order.None? then now else Settled(MaterializeNext(now, order.value), now)
  {
    steps := before + if order.Some? then [Materialize(order.value)] else [];
    if order.Some? { RunAgain(s, before, Materialize(order.value)); } else { assert steps == before; }
  }

  /** A business failure before the execution changes nothing at all: the item is still
      LEASED, from where a failed release is not allowed, so the release is refused and
      the job is not failed either. */
  lemma BusinessFailureBeforeRunIsIgnored(s: Tables, c: Claim, attempts: nat, delay: nat, order: Option<OrderId>, ctx: Context)
    requires Inv(s) && Owns(s, c) && s.jobs[c.job].state == Leased
    requires HasReservation(s, c.job) && s.items[c.job].reservation.value.state == Held
    ensures ResolveFailure(s, c, Business, attempts, delay, order, ctx) == s
  {
    FailedReleaseIff(s, c, ctx);
  }

  /** It therefore comes back: once the lease has run out, maintenance puts job and item
      back into the queue, with the attempt counted and nothing else remembered. */
  lemma IgnoredFailureComesBack(s: Tables, c: Claim, order: Option<OrderId>, ctx: Context, later: nat)
    requires Inv(s) && Owns(s, c) && s.jobs[c.job].state == Leased
    requires HasReservation(s, c.job) && s.items[c.job].reservation.value.state == Held
    requires later >= s.jobs[c.job].lease.value.expires
    ensures var s1 := ResolveFailure(s, c, Business, MaxTransientAttempts, 0, order, ctx).(clock := later);
            var s2 := MaintenancePass(s1);
            && c.job in s2.jobs && s2.jobs[c.job].state == Queued && s2.jobs[c.job].attempts == s.jobs[c.job].attempts
            && ItemIn(s2, c.job, Queued)
  {
    BusinessFailureBeforeRunIsIgnored(s, c, MaxTransientAttempts, 0, order, ctx);
    AllAspects(s);
    assert LockstepAt(s, c.job) && RowsOk(s, c.job);
    var s1 := s.(clock := later);
    LockstepFrame(s, s1);
    ExpiredBeforeRunIsQueued(s1, c.job);
  }
}
