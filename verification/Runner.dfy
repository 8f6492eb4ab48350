/** The runner: dispatch, leases with fencing tokens, and the job and item state
    changes of one attempt. */
module Runner {
  import opened Common
  import opened Ledger
  import opened Schema
  import opened Wallet

  /** The job row a worker read: it presents the state and version it saw. */
  datatype Seen = Seen(claim: Claim, state: Stage, version: nat)

  function SeenOf(s: Tables, i: ItemId): Seen
    requires i in s.jobs && s.jobs[i].lease.Some?
  {
    Seen(Claim(i, s.jobs[i].lease.value.owner, s.jobs[i].token), s.jobs[i].state, s.jobs[i].version)
  }

  function SetStage(items: seq<Item>, i: ItemId, next: Stage): seq<Item> {
    if i < |items| then items[i := items[i].(state := next)] else items
  }

  predicate ItemIn(s: Tables, i: ItemId, state: Stage) {
    i < |s.items| && s.items[i].state == state
  }

  // ---------------------------------------------------------------- dispatch

  predicate Runnable(s: Tables, j: Job) {
    j.state == Queued && j.availableAt <= s.clock && j.deadline > s.clock && j.compatible
  }

  predicate Eligible(s: Tables, u: UserId) {
    u in s.scheduler && exists i | i in s.jobs :: s.jobs[i].user == u && Runnable(s, s.jobs[i])
  }

  /** ORDER BY last_dispatched_at NULLS FIRST, updated_at */
  predicate Before(a: Turn, b: Turn) {
    if a.last.None? then b.last.Some? || a.updated <= b.updated
    else b.last.Some? && (a.last.value < b.last.value || (a.last == b.last && a.updated <= b.updated))
  }

  predicate FirstUser(s: Tables, u: UserId) {
    Eligible(s, u) && forall v | v in s.scheduler && Eligible(s, v) :: Before(s.scheduler[u], s.scheduler[v])
  }

  /** A row the dispatch query may return: a runnable job of a first user, none of
      whose runnable jobs became available earlier. */
  predicate Dispatchable(s: Tables, i: ItemId) {
    && i in s.jobs && Runnable(s, s.jobs[i]) && FirstUser(s, s.jobs[i].user)
    && forall k | k in s.jobs && s.jobs[k].user == s.jobs[i].user && Runnable(s, s.jobs[k]) ::
         s.jobs[i].availableAt <= s.jobs[k].availableAt
  }

  /** One dispatch of job i. `clock_timestamp()` readings of different dispatches
      differ, so the clock moves. */
  function Acquire(s: Tables, i: ItemId, holder: WorkerId, ttl: nat): Outcome<Tables> {
    if !Dispatchable(s, i) then Err(NotFound)
    else if !ItemIn(s, i, Queued) then Err(ItemStateConflict)
    else
      var j := s.jobs[i];
      Ok(s.(jobs := s.jobs[i := j.(state := Leased, version := j.version + 1,
                                   lease := Some(Lease(holder, s.clock + ttl)),
                                   token := j.token + 1, attempts := j.attempts + 1)],
            scheduler := s.scheduler[j.user := Turn(Some(s.clock), s.clock)],
            items := SetStage(s.items, i, Leased),
            clock := s.clock + 1))
  }

  function Renew(s: Tables, c: Claim, ttl: nat): Outcome<Tables> {
    if !Owns(s, c) || s.jobs[c.job].state in ClosedJobStates then Err(FencingLost)
    else Ok(s.(jobs := s.jobs[c.job := s.jobs[c.job].(lease := Some(Lease(c.owner, s.clock + ttl)))]))
  }

  // ---------------------------------------------------------------- owned transitions

  /** `updateOwnedJob`: the table check is against the state the worker saw, the
      write needs its owner, token and version and a lease that still runs. */
  function UpdateOwnedJob(s: Tables, seen: Seen, next: Stage, releaseLease: bool): Outcome<Job> {
    if next !in JobTransitions(seen.state) then Err(IllegalTransition)
    else if !Owns(s, seen.claim) || s.jobs[seen.claim.job].version != seen.version then Err(FencingLost)
    else
      var j := s.jobs[seen.claim.job];
      Ok(j.(state := next, version := j.version + 1, lease := if releaseLease then None else j.lease))
  }

  function WithJob(s: Tables, i: ItemId, j: Job): Tables {
    s.(jobs := s.jobs[i := j])
  }

  function TransitionRunning(s: Tables, seen: Seen): Outcome<Tables> {
    var job := UpdateOwnedJob(s, seen, Running, false);
    if job.Err? then Err(job.error)
    else if !ItemIn(s, seen.claim.job, Leased) then Err(ItemStateConflict)
    else Ok(WithJob(s, seen.claim.job, job.value).(items := SetStage(s.items, seen.claim.job, Running)))
  }

  /** Two owned transitions in one transaction: VERIFYING, then SETTLING. */
  function TransitionToSettling(s: Tables, seen: Seen): Outcome<Tables> {
    var i := seen.claim.job;
    var verifying := UpdateOwnedJob(s, seen, Verifying, false);
    if verifying.Err? then Err(verifying.error)
    else if !ItemIn(s, i, Running) then Err(ItemStateConflict)
    else
      var mid := WithJob(s, i, verifying.value).(items := SetStage(s.items, i, Verifying));
      var settling := UpdateOwnedJob(mid, Seen(seen.claim, Verifying, verifying.value.version), Settling, false);
      if settling.Err? then Err(settling.error)
      else Ok(WithJob(mid, i, settling.value).(items := SetStage(mid.items, i, Settling)))
  }

  function CompleteJob(s: Tables, seen: Seen): Outcome<Tables> {
    var job := UpdateOwnedJob(s, seen, Completed, true);
    if job.Err? then Err(job.error) else Ok(WithJob(s, seen.claim.job, job.value))
  }

  /** `failJob` re-reads the row: it is fenced by whoever holds the lease now, and
      a row without a lease matches no owner. */
  function FailJob(s: Tables, i: ItemId): Outcome<Tables> {
    if i !in s.jobs || s.jobs[i].state in ClosedJobStates then Ok(s)
    else if s.jobs[i].lease.None? then Err(FencingLost)
    else
      var job := UpdateOwnedJob(s, SeenOf(s, i), Failed, true);
      if job.Err? then Err(job.error) else Ok(WithJob(s, i, job.value))
  }

  function RetryState(state: Stage): Stage {
    if state == Leased then Queued else if state in {Running, Verifying} then WaitingRetry else ManualReview
  }

  /** The checkpoint on shutdown or transient failure; the item write is not guarded. */
  function CheckpointRetry(s: Tables, c: Claim, delay: nat): Outcome<Tables> {
    if !Owns(s, c) then Err(FencingLost)
    else
      var j := s.jobs[c.job];
      var next := RetryState(j.state);
      Ok(WithJob(s, c.job, j.(state := next, version := j.version + 1, availableAt := s.clock + delay, lease := None))
         .(items := SetStage(s.items, c.job, next),
           reviews := if next == ManualReview then OpenReview(s.reviews, ItemSubject(c.job), false) else s.reviews))
  }

  /** `moveRunnerToManualReview`: not fenced by the caller, item write not guarded. */
  function MoveToManualReview(s: Tables, i: ItemId): Tables {
    if i !in s.jobs || s.jobs[i].state in ClosedJobStates + {ManualReview} then s
    else
      WithJob(s, i, s.jobs[i].(state := ManualReview, version := s.jobs[i].version + 1, lease := None))
      .(items := SetStage(s.items, i, ManualReview), reviews := OpenReview(s.reviews, ItemSubject(i), false))
  }

  /** `updateItemProgress`: a terminal item is left alone, progress never falls. */
  function UpdateProgress(s: Tables, c: Claim, progress: int): Outcome<Tables> {
    if !Owns(s, c) then Err(FencingLost)
    else if c.job >= |s.items| || s.items[c.job].state in TerminalItemStates then Ok(s)
    else
      var x := s.items[c.job];
      Ok(s.(items := s.items[c.job := x.(progress := if x.progress < progress then progress else x.progress)]))
  }

  // ---------------------------------------------------------------- next item

  const QueueLimit := 500

  function QueuedJobs(jobs: map<ItemId, Job>): set<ItemId> {
    set i | i in jobs && jobs[i].state in QueueStates
  }

  function QueueLength(jobs: map<ItemId, Job>): nat {
    |QueuedJobs(jobs)|
  }

  /** The first reserved item of an order, in sequence order. */
  function FirstReserved(items: seq<Item>, o: OrderId, from: nat): (first: Option<ItemId>)
    ensures first.Some? ==> from <= first.value < |items| && items[first.value].order == o
                            && items[first.value].state == Stage.Reserved
    ensures forall k | from <= k < |items| && items[k].order == o && items[k].state == Stage.Reserved ::
              first.Some? && first.value <= k
    decreases |items| - from
  {
    if from >= |items| then None
    else if items[from].order == o && items[from].state == Stage.Reserved then Some(from)
    else FirstReserved(items, o, from + 1)
  }

  function NewJob(s: Tables, i: ItemId, u: UserId): Job
    requires i < |s.items|
  {
    Job(u, Queued, 1, s.clock, s.items[i].deadline, true, None, 0, 0, [])
  }

  function QueueItem(s: Tables, i: ItemId, u: UserId): Outcome<Tables> {
    if !ItemIn(s, i, Stage.Reserved) then Err(ItemStateConflict)
    else if i in s.jobs then Err(UniqueViolation)
    else Ok(s.(jobs := s.jobs[i := NewJob(s, i, u)], items := SetStage(s.items, i, Queued)))
  }

  function MaterializeNext(s: Tables, o: OrderId): Outcome<Tables> {
    if QueueLength(s.jobs) >= QueueLimit || o >= |s.orders| then Ok(s)
    else
      var first := FirstReserved(s.items, o, 0);
      if first.None? then Ok(s) else QueueItem(s, first.value, s.orders[o].user)
  }

  // ---------------------------------------------------------------- mutations

  const Unsettled: set<MutationStatus> := {InFlight, Accepted, Uncertain}

  predicate HasUnsettled(ms: seq<Mutation>) {
    exists k | 0 <= k < |ms| :: ms[k].status in Unsettled
  }

  function PrepareMutation(s: Tables, c: Claim, kind: MutationKind, baseline: int): Outcome<Tables> {
    if !Owns(s, c) then Err(FencingLost)
    else if HasUnsettled(s.jobs[c.job].mutations) then Err(StaleState)
    else
      var j := s.jobs[c.job];
      Ok(WithJob(s, c.job, j.(mutations := j.mutations + [Mutation(kind, baseline, InFlight, None)])))
  }

  function MarkMutation(s: Tables, c: Claim, k: nat, status: MutationStatus, evidence: Option<Fresh>): Outcome<Tables> {
    if !Owns(s, c) || k >= |s.jobs[c.job].mutations| then Err(FencingLost)
    else
      var j := s.jobs[c.job];
      Ok(WithJob(s, c.job, j.(mutations := j.mutations[k := j.mutations[k].(status := status, evidence := evidence)])))
  }
}
