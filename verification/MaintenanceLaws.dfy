/** One maintenance pass is complete and safe: what the four phases, each looking at
    the rows the one before it left, together do to every job and item. */
module MaintenanceLaws {
  import opened Common
  import opened Ledger
  import opened Schema
  import opened Wallet
  import opened Runner
  import opened Recovery
  import opened Lockstep
  import opened Frames

  /** A job row with its item row. */
  datatype Rows = Rows(job: Job, item: Item)

  function RowsOf(s: Tables, i: ItemId): Rows
    requires i in s.jobs && i < |s.items|
  {
    Rows(s.jobs[i], s.items[i])
  }

  // ---------------------------------------------------------------- the four phases on one pair of rows

  predicate Expired(j: Job, now: nat) {
    j.lease.Some? && j.lease.value.expires <= now
  }

  function Requeued(r: Rows, now: nat): Rows {
    if r.job.state == Leased && Expired(r.job, now)
    then Rows(r.job.(state := Queued, lease := None, availableAt := now, version := r.job.version + 1),
              if r.item.state == Leased then r.item.(state := Queued) else r.item)
    else r
  }

  function CapturedClosed(r: Rows): Rows {
    if r.item.state == ReadyToClaim && r.job.state != Completed
    then r.(job := r.job.(state := Completed, lease := None, version := r.job.version + 1))
    else r
  }

  predicate CrashedJob(j: Job, now: nat) {
    j.state in {Running, Verifying, Settling} && Expired(j, now)
  }

  /** Some mutation of the job may have reached the quest server without being settled. */
  predicate MaybeApplied(j: Job) {
    exists k | 0 <= k < |j.mutations| :: j.mutations[k].status in {InFlight, Accepted, Uncertain}
  }

  function StageAfterCrash(j: Job): Stage {
    if MaybeApplied(j) || j.state == Settling then ManualReview else WaitingRetry
  }

  function Recovered(r: Rows, now: nat): Rows {
    if CrashedJob(r.job, now)
    then Rows(r.job.(state := StageAfterCrash(r.job), lease := None, availableAt := now + 5, version := r.job.version + 1),
              r.item.(state := StageAfterCrash(r.job)))
    else r
  }

  function Retried(r: Rows, now: nat): Rows {
    if r.job.state == WaitingRetry && r.job.availableAt <= now
    then Rows(r.job.(state := Queued, version := r.job.version + 1),
              if r.item.state == WaitingRetry then r.item.(state := Queued) else r.item)
    else r
  }

  lemma PhasesAt(s: Tables, i: ItemId)
    requires i in s.jobs && i < |s.items|
    ensures i in RequeueExpired(s).jobs && |RequeueExpired(s).items| == |s.items| && RequeueExpired(s).clock == s.clock
    ensures RowsOf(RequeueExpired(s), i) == Requeued(RowsOf(s, i), s.clock)
    ensures i in CompleteCaptured(s).jobs && RowsOf(CompleteCaptured(s), i) == CapturedClosed(RowsOf(s, i))
    ensures i in RequeueRetries(s).jobs && |RequeueRetries(s).items| == |s.items|
    ensures RowsOf(RequeueRetries(s), i) == Retried(RowsOf(s, i), s.clock)
  {}

  lemma RecoverCrashedAt(s: Tables, i: ItemId)
    requires i in s.jobs && i < |s.items|
    ensures i in RecoverCrashed(s).jobs && |RecoverCrashed(s).items| == |s.items| && RecoverCrashed(s).clock == s.clock
    ensures RowsOf(RecoverCrashed(s), i) == Recovered(RowsOf(s, i), s.clock)
    ensures Crashed(s, i) && NeedsReview(s, i) ==> ItemSubject(i) in RecoverCrashed(s).reviews
  {}

  function Pass(r: Rows, now: nat): Rows {
    Retried(Recovered(CapturedClosed(Requeued(r, now)), now), now)
  }

  lemma PassAt(s: Tables, i: ItemId)
    requires i in s.jobs && i < |s.items|
    ensures i in MaintenancePass(s).jobs && |MaintenancePass(s).items| == |s.items|
    ensures RowsOf(MaintenancePass(s), i) == Pass(RowsOf(s, i), s.clock)
  {
    var s1 := RequeueExpired(s);
    var s2 := CompleteCaptured(s1);
    PhasesAt(s, i);
    PhasesAt(s1, i);
    RecoverCrashedAt(s2, i);
    PhasesAt(RecoverCrashed(s2), i);
  }

  // ---------------------------------------------------------------- the pass decided at once

  /** Where the pass leaves a job, decided on the rows it finds. */
  function Outcome(r: Rows, now: nat): Stage {
    if r.item.state == ReadyToClaim then Completed
    else if Expired(r.job, now) then (if r.job.state == Leased then Queued else StageAfterCrash(r.job))
    else if r.job.state == WaitingRetry && r.job.availableAt <= now then Queued
    else r.job.state
  }

  /** A crash drags an item that was released behind its job's back out of its
      terminal state; nothing else moves a terminal item. */
  predicate Reopens(r: Rows, now: nat) {
    r.item.state in ReleasedStates && CrashedJob(r.job, now)
  }

  predicate InLockstep(r: Rows) {
    && (r.job.lease.Some? <==> r.job.state in LeaseStates)
    && (r.job.state !in ClosedJobStates && r.item.state !in TerminalItemStates ==> r.item.state == r.job.state)
  }

  /** The rows after the pass against that decision: no lease that has run out is
      left, a captured item stays captured and its job is completed, an open item
      follows its job, and a terminal item is left alone unless it is a released one
      whose job crashed. */
  ghost predicate Decided(r: Rows, r': Rows, now: nat) {
    && r'.job.state == Outcome(r, now) && !Expired(r'.job, now)
    && (r'.job.lease.Some? ==> r'.job == r.job)
    && r'.item == r.item.(state := r'.item.state)
    && (r.item.state == ReadyToClaim ==> r'.item == r.item)
    && (r.item.state in ReleasedStates ==> (r'.item.state in TerminalItemStates <==> !Reopens(r, now)))
    && (r.item.state !in TerminalItemStates ==>
          r'.item.state == if r.job.state in ClosedJobStates then r.item.state else Outcome(r, now))
  }

  lemma PhasesDecide(r: Rows, r': Rows, now: nat)
    requires InLockstep(r) && r' == Pass(r, now)
    ensures Decided(r, r', now)
  {}

  // ---------------------------------------------------------------- on the tables

  /** A job that crashed with an unsettled mutation, or while settling, and whose item
      is not captured. */
  predicate NeedsPerson(s: Tables, i: ItemId) {
    i in s.jobs && CrashedJob(s.jobs[i], s.clock) && (s.jobs[i].state == Settling || MaybeApplied(s.jobs[i]))
    && !ItemIn(s, i, ReadyToClaim)
  }

  /** One pass at one item. A job that needs a person ends in manual review, with its
      review open, and never in the queue; an item without a job is not touched. */
  ghost predicate DecidedAt(s: Tables, s': Tables, i: ItemId) {
    && (i < |s.items| ==> i < |s'.items|)
    && (i in s.jobs ==> i < |s.items| && i in s'.jobs && Decided(RowsOf(s, i), RowsOf(s', i), s.clock))
    && (NeedsPerson(s, i) ==> s'.jobs[i].state == ManualReview && ItemSubject(i) in s'.reviews)
    && (i < |s.items| && i !in s.jobs ==> s'.items[i] == s.items[i])
  }

  lemma PassFrame(s: Tables)
    ensures var s' := MaintenancePass(s);
            && s' == s.(jobs := s'.jobs, items := s'.items, reviews := s'.reviews, topups := s'.topups)
            && s'.jobs.Keys == s.jobs.Keys && |s'.items| == |s.items|
            && s'.reviews.Keys >= RecoverCrashed(RecoverExpiredLeases(s)).reviews.Keys
  {}

  lemma PassDecides(s: Tables, i: ItemId)
    requires LockstepOk(s) && i in s.jobs
    ensures i < |s.items| == |MaintenancePass(s).items| && i in MaintenancePass(s).jobs
    ensures Decided(RowsOf(s, i), RowsOf(MaintenancePass(s), i), s.clock)
  {
    assert LockstepAt(s, i);
    PassAt(s, i);
    PhasesDecide(RowsOf(s, i), RowsOf(MaintenancePass(s), i), s.clock);
  }

  lemma PersonAsked(s: Tables, i: ItemId)
    requires LockstepOk(s) && NeedsPerson(s, i)
    ensures ItemSubject(i) in MaintenancePass(s).reviews
  {
    assert LockstepAt(s, i);
    var s1 := RequeueExpired(s);
    var s2 := RecoverExpiredLeases(s);
    PhasesAt(s, i);
    PhasesAt(s1, i);
    assert RowsOf(s2, i) == RowsOf(s, i) && s2.clock == s.clock;
    RecoverCrashedAt(s2, i);
    PassFrame(s);
  }

  lemma JobWaitsForPerson(s: Tables, i: ItemId)
    requires LockstepOk(s) && NeedsPerson(s, i)
    ensures i < |s.items| && Outcome(RowsOf(s, i), s.clock) == ManualReview
  {
    assert LockstepAt(s, i);
  }

  lemma MaintenanceDecidesAt(s: Tables, i: ItemId)
    requires LockstepOk(s)
    ensures DecidedAt(s, MaintenancePass(s), i)
  {
    if i in s.jobs { PassDecides(s, i); }
    if NeedsPerson(s, i) {
      PersonAsked(s, i);
      JobWaitsForPerson(s, i);
    }
    var s' := MaintenancePass(s);
    assert i < |s.items| ==> i < |s'.items| by { PassFrame(s); }
    assert i < |s.items| && i !in s.jobs ==> s'.items[i] == s.items[i];
  }

  /** One pass from any state in lockstep is complete and safe, and moves no money. */
  lemma MaintenanceCompleteAndSafe(s: Tables)
    requires LockstepOk(s)
    ensures var s' := MaintenancePass(s);
            && s'.bank == s.bank && s'.orders == s.orders && s'.locks == s.locks && s'.refunds == s.refunds
            && s'.jobs.Keys == s.jobs.Keys
            && forall i: ItemId :: DecidedAt(s, s', i)
  {
    PassFrame(s);
    forall i: ItemId ensures DecidedAt(s, MaintenancePass(s), i) { MaintenanceDecidesAt(s, i); }
  }

  /** Of the terminal items a pass takes back exactly the released ones whose job crashed. */
  lemma PassReopens(s: Tables, i: ItemId)
    requires LockstepOk(s) && i < |s.items| && s.items[i].state in TerminalItemStates
    ensures |MaintenancePass(s).items| == |s.items|
    ensures MaintenancePass(s).items[i].state !in TerminalItemStates <==> i in s.jobs && Reopens(RowsOf(s, i), s.clock)
  {
    PassFrame(s);
    if i in s.jobs { PassDecides(s, i); } else { MaintenanceDecidesAt(s, i); }
  }

  /** An item whose worker vanished before running it goes back to the queue. */
  lemma ExpiredBeforeRunIsQueued(s: Tables, i: ItemId)
    requires LockstepOk(s) && ExpiredBeforeRun(s, i) && ItemIn(s, i, Leased)
    ensures var s' := MaintenancePass(s);
            && i in s'.jobs && s'.jobs[i].state == Queued && s'.jobs[i].attempts == s.jobs[i].attempts
            && ItemIn(s', i, Queued)
  {
    PassAt(s, i);
  }
}
