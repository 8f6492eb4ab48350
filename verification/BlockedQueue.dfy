/** A queued job whose item is terminal blocks the dispatch queue: the query picks it
    again and again, and the refused transaction leaves everything as it was. */
module BlockedQueue {
  import opened Common
  import opened Ledger
  import opened Schema
  import opened Wallet
  import opened Runner
  import opened Recovery
  import opened MaintenanceLaws
  import opened Machine
  import opened Frames
  import opened Safety

  /** Other jobs of its user, if queued, became available later. */
  ghost predicate Foremost(s: Tables, i: ItemId)
    requires i in s.jobs
  {
    forall k | k in s.jobs && k != i && s.jobs[k].user == s.jobs[i].user && s.jobs[k].state == Queued ::
      s.jobs[k].availableAt > s.jobs[i].availableAt
  }

  /** Every other user's turn comes strictly later. */
  ghost predicate NextUser(s: Tables, u: UserId) {
    u in s.scheduler && forall v | v in s.scheduler && v != u :: !Before(s.scheduler[v], s.scheduler[u])
  }

  /** The job at the head of the queue has a terminal item. */
  ghost predicate Blocked(s: Tables, i: ItemId) {
    && i in s.jobs && Runnable(s, s.jobs[i]) && NextUser(s, s.jobs[i].user) && Foremost(s, i)
    && i < |s.items| && s.items[i].state in TerminalItemStates
  }

  /** Whatever job of whatever user a worker would get, it gets none. */
  lemma NobodyDispatched(s: Tables, i: ItemId, k: ItemId, holder: WorkerId, ttl: nat)
    requires Blocked(s, i)
    ensures Dispatchable(s, i) && (Dispatchable(s, k) ==> k == i)
    ensures Acquire(s, k, holder, ttl) == Err(if k == i then ItemStateConflict else NotFound)
  {
    var u := s.jobs[i].user;
    assert Eligible(s, u);
    if Dispatchable(s, k) {
      var v := s.jobs[k].user;
      assert Before(s.scheduler[v], s.scheduler[u]);
      assert v == u;
      assert s.jobs[k].availableAt <= s.jobs[i].availableAt;
    }
  }

  /** The step tries a dispatch, or leaves alone what the head of the queue depends on:
      its job and item, the turns, and the order among its user's jobs. */
  ghost predicate Passes(s: Tables, step: Step, i: ItemId) {
    var s' := Apply(s, step);
    step.Dispatch?
    || (i in s.jobs && i in s'.jobs && s'.jobs[i] == s.jobs[i] && s'.scheduler == s.scheduler && Foremost(s', i)
        && i < |s.items| && i < |s'.items| && s'.items[i] == s.items[i])
  }

  ghost predicate AllPass(s: Tables, steps: seq<Step>, i: ItemId)
    decreases |steps|
  {
    steps != [] ==> Passes(s, steps[0], i) && AllPass(Apply(s, steps[0]), steps[1..], i)
  }

  ghost predicate NothingDispatched(s: Tables, steps: seq<Step>)
    decreases |steps|
  {
    steps != [] ==> (steps[0].Dispatch? ==> Try(s, steps[0]).Err?) && NothingDispatched(Apply(s, steps[0]), steps[1..])
  }

  lemma PassKeepsBlocked(s: Tables, step: Step, i: ItemId)
    requires Inv(s) && Blocked(s, i) && Passes(s, step, i) && Apply(s, step).clock < s.jobs[i].deadline
    ensures Blocked(Apply(s, step), i) && Apply(s, step).jobs[i] == s.jobs[i]
    ensures step.Dispatch? ==> Try(s, step).Err?
  {
    StepGood(s, step);
    if step.Dispatch? { NobodyDispatched(s, i, step.item, step.holder, step.ttl); }
  }

  /** Until its deadline passes, or a step writes those rows, nobody gets any job,
      however often they try and however many jobs of others are due. */
  lemma {:induction false} BlockedUntilDeadline(s: Tables, steps: seq<Step>, i: ItemId)
    requires Inv(s) && Blocked(s, i) && AllPass(s, steps, i) && Run(s, steps).clock < s.jobs[i].deadline
    ensures Blocked(Run(s, steps), i) && NothingDispatched(s, steps)
    decreases |steps|
  {
    if steps != [] {
      StepGood(s, steps[0]);
      RunGood(Apply(s, steps[0]), steps[1..]);
      PassKeepsBlocked(s, steps[0], i);
      BlockedUntilDeadline(Apply(s, steps[0]), steps[1..], i);
    }
  }

  lemma RowsQueueReleasedIff(r: Rows, now: nat)
    requires r.item.state in TerminalItemStates && r.job.state != Queued
    ensures Pass(r, now).job.state == Queued && Pass(r, now).item.state in TerminalItemStates
            <==> r.item.state in ReleasedStates
                 && ((r.job.state == Leased && MaintenanceLaws.Expired(r.job, now)) || (r.job.state == WaitingRetry && r.job.availableAt <= now))
  {}

  /** Where such jobs come from: a pass queues a job whose item is terminal and stays so
      exactly when the item was released and the job's lease ran out before its run, or
      its retry is due. */
  lemma PassQueuesReleasedIff(s: Tables, i: ItemId)
    requires i in s.jobs && i < |s.items|
    requires s.items[i].state in TerminalItemStates && s.jobs[i].state != Queued
    ensures i in MaintenancePass(s).jobs && |MaintenancePass(s).items| == |s.items|
    ensures var s' := MaintenancePass(s);
            s'.jobs[i].state == Queued && s'.items[i].state in TerminalItemStates
            <==> s.items[i].state in ReleasedStates
                 && ((s.jobs[i].state == Leased && LeaseExpired(s, s.jobs[i]))
                     || (s.jobs[i].state == WaitingRetry && s.jobs[i].availableAt <= s.clock))
  {
    PassAt(s, i);
    RowsQueueReleasedIff(RowsOf(s, i), s.clock);
    assert LeaseExpired(s, s.jobs[i]) == MaintenanceLaws.Expired(s.jobs[i], s.clock);
  }

  /** At the deadline the job leaves the queue and dispatching goes on. */
  lemma DeadlineUnblocks(s: Tables, i: ItemId)
    requires i in s.jobs && s.jobs[i].deadline <= s.clock
    ensures !Dispatchable(s, i)
  {}
}
