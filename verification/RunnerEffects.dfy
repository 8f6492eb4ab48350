/** What each transaction of the runner is admitted for and what it leaves, with states
    and numbers written out, and what a claim is worth to its worker. */
module RunnerEffects {
  import opened Common
  import opened Ledger
  import opened Schema
  import opened Wallet
  import opened Runner
  import opened Recovery
  import opened Machine
  import opened Frames
  import opened Lockstep
  import opened MutationRuns
  import MoneySteps
  import MaintenanceLaws
  import Checkout
  import CheckoutLaws
  import opened Safety

  // ---------------------------------------------------------------- owning a job

  /** The claim's worker holds the job until this moment. */
  predicate HeldUntil(s: Tables, c: Claim, until: nat) {
    c.job in s.jobs && s.jobs[c.job].lease == Some(Lease(c.owner, until)) && s.jobs[c.job].token == c.token
  }

  /** Only this job's row changes, and in it only the state, the version and the lease. */
  predicate JobMoved(s: Tables, s': Tables, i: ItemId, state: Stage, versions: nat, lease: Option<Lease>) {
    && i in s.jobs && s'.jobs == s.jobs[i := s.jobs[i].(state := state, version := s.jobs[i].version + versions, lease := lease)]
  }

  /** Only this item's row changes, and in it only the state. */
  predicate ItemMoved(s: Tables, s': Tables, i: ItemId, state: Stage) {
    i < |s.items| && s'.items == s.items[i := s.items[i].(state := state)]
  }

  // ---------------------------------------------------------------- dispatch

  /** The job waits, is due, is not past its deadline and runs on this engine. */
  predicate Due(s: Tables, i: ItemId) {
    i in s.jobs && s.jobs[i].state == Queued && s.jobs[i].availableAt <= s.clock < s.jobs[i].deadline && s.jobs[i].compatible
  }

  /** Someone with a due job whose last dispatch is older, or who never had one; the older
      scheduler row decides between equals. */
  predicate Overtaken(s: Tables, u: UserId, v: UserId) {
    && u in s.scheduler && v in s.scheduler && (exists k | k in s.jobs :: s.jobs[k].user == v && Due(s, k))
    && var a, b := s.scheduler[u], s.scheduler[v];
    || (a.last.Some? && b.last.None?)
    || (a.last.Some? && b.last.Some? && b.last.value < a.last.value)
    || (a.last == b.last && b.updated < a.updated)
  }

  /** A job is dispatched iff it is due, nobody overtakes its user, none of his due jobs
      became available earlier, and its item is queued. */
  lemma DispatchedIff(s: Tables, i: ItemId, holder: WorkerId, ttl: nat)
    ensures Try(s, Step.Dispatch(i, holder, ttl)).Ok? <==>
              && Due(s, i) && s.jobs[i].user in s.scheduler
              && (forall v | v in s.scheduler :: !Overtaken(s, s.jobs[i].user, v))
              && (forall k | k in s.jobs && s.jobs[k].user == s.jobs[i].user && Due(s, k) ::
                    s.jobs[i].availableAt <= s.jobs[k].availableAt)
              && i < |s.items| && s.items[i].state == Queued
  {
    assert forall k | k in s.jobs :: Due(s, k) <==> Runnable(s, s.jobs[k]);
    assert forall v | v in s.scheduler :: Eligible(s, v) <==> exists k | k in s.jobs :: s.jobs[k].user == v && Due(s, k);
    if Due(s, i) && s.jobs[i].user in s.scheduler {
      var u := s.jobs[i].user;
      forall v | v in s.scheduler && Eligible(s, v)
        ensures Before(s.scheduler[u], s.scheduler[v]) <==> !Overtaken(s, u, v)
      {}
    }
  }

  /** A dispatched job is its worker's, under a new token and for the whole time to live,
      of which the dispatch itself takes the first second; its user goes to the end of the line, and nothing else changes. */
  lemma DispatchGivesJob(s: Tables, i: ItemId, holder: WorkerId, ttl: nat)
    requires Try(s, Step.Dispatch(i, holder, ttl)).Ok?
    ensures i in s.jobs && i < |s.items|
    ensures var s', c := Apply(s, Step.Dispatch(i, holder, ttl)), Claim(i, holder, s.jobs[i].token + 1);
            && HeldUntil(s', c, s.clock + ttl) && (Owns(s', c) <==> ttl > 1) && s'.clock == s.clock + 1
            && s'.jobs == s.jobs[i := s.jobs[i].(state := Leased, lease := Some(Lease(holder, s.clock + ttl)),
                                                 token := s.jobs[i].token + 1, attempts := s.jobs[i].attempts + 1,
                                                 version := s.jobs[i].version + 1)]
            && ItemMoved(s, s', i, Leased) && s'.scheduler == s.scheduler[s.jobs[i].user := Turn(Some(s.clock), s.clock)]
            && s' == s.(clock := s'.clock, jobs := s'.jobs, items := s'.items, scheduler := s'.scheduler)
  {}

  // ---------------------------------------------------------------- who writes a job

  /** The steps that are about this job. */
  predicate About(step: Step, i: ItemId) {
    match step
    case Dispatch(k, _, _) => k == i
    case Heartbeat(c, _) => c.job == i
    case BeginRun(seen) => seen.claim.job == i
    case BeginSettling(seen) => seen.claim.job == i
    case Complete(seen) => seen.claim.job == i
    case Checkpoint(c, _) => c.job == i
    case Prepare(c, _, _) => c.job == i
    case Mark(c, _, _, _) => c.job == i
    case FailItem(k) => k == i
    case ToReview(k) => k == i
    case ForceFailItem(k) => k == i
    case OpenItemReview(k, _, _) => k == i
    case Resolve(ItemCase(k, _), _, _, _, _) => k == i
    case _ => false
  }

  predicate SameJob(s: Tables, s': Tables, i: ItemId) {
    i in s.jobs ==> i in s'.jobs && s'.jobs[i] == s.jobs[i]
  }

  lemma LeaseStepElsewhere(s: Tables, step: Step, i: ItemId)
    requires (step.Heartbeat? || step.BeginRun? || step.BeginSettling? || step.Complete?) && !About(step, i)
    requires Try(s, step).Ok?
    ensures SameJob(s, Try(s, step).value, i)
  {}

  lemma WorkStepElsewhere(s: Tables, step: Step, i: ItemId)
    requires (step.Checkpoint? || step.Prepare? || step.Mark? || step.ReportProgress?) && !About(step, i)
    requires Try(s, step).Ok?
    ensures SameJob(s, Try(s, step).value, i)
  {}

  lemma RowStepElsewhere(s: Tables, step: Step, i: ItemId)
    requires (step.FailItem? || step.ToReview? || step.ForceFailItem?) && !About(step, i)
    requires Try(s, step).Ok?
    ensures SameJob(s, Try(s, step).value, i)
  {}

  lemma OpenReviewElsewhere(s: Tables, k: ItemId, reason: string, ownerOnly: bool, i: ItemId)
    requires k != i && OpenOrderItemReview(s, k, reason, ownerOnly).Ok?
    ensures SameJob(s, OpenOrderItemReview(s, k, reason, ownerOnly).value, i)
  {
    OpenReviewJobs(s, k, reason, ownerOnly);
  }

  lemma QueueStepElsewhere(s: Tables, step: Step, i: ItemId)
    requires (step.Dispatch? || step.Materialize?) && !About(step, i)
    requires Try(s, step).Ok?
    ensures SameJob(s, Try(s, step).value, i)
  {}

  lemma RunnerElsewhere(s: Tables, step: Step, i: ItemId)
    requires RunnerKind(step) && !About(step, i) && Try(s, step).Ok?
    ensures SameJob(s, Try(s, step).value, i)
  {
    if step.Heartbeat? || step.BeginRun? || step.BeginSettling? || step.Complete? { LeaseStepElsewhere(s, step, i); }
    else if step.Dispatch? || step.Materialize? { QueueStepElsewhere(s, step, i); }
    else if step.OpenItemReview? { OpenReviewElsewhere(s, step.item, step.reason, step.ownerOnly, i); }
    else if step.FailItem? || step.ToReview? || step.ForceFailItem? { RowStepElsewhere(s, step, i); }
    else { WorkStepElsewhere(s, step, i); }
  }

  lemma ItemDecisionElsewhere(s: Tables, k: ItemId, d: ItemDecision, ctx: Context, i: ItemId)
    requires k != i && DecideItem(s, k, d, ctx).Ok?
    ensures SameJob(s, DecideItem(s, k, d, ctx).value, i)
  {
    match d {
      case Retry => RetryDecides(s, k, ctx);
      case CaptureIt => CaptureDecides(s, k, ctx);
      case _ => ReleaseDecides(s, k, d, ctx);
    }
  }

  lemma ResolveElsewhere(s: Tables, e: Decision, reason: string, isOwner: bool, expected: Option<nat>, ctx: Context, i: ItemId)
    requires ResolveReview(s, e, reason, isOwner, expected, ctx).Ok? && !(e.ItemCase? && e.item == i)
    ensures SameJob(s, ResolveReview(s, e, reason, isOwner, expected, ctx).value, i)
  {
    match e
    case ItemCase(k, choice) => ItemDecisionElsewhere(s, k, choice, ctx, i);
    case TopupCase(t, verdict) => TopupDecisionKeepsJobs(s, t, verdict);
  }

  lemma MoneyElsewhere(s: Tables, step: Step, i: ItemId)
    requires MoneyKind(step) && !step.Maintain? && !About(step, i) && Try(s, step).Ok?
    ensures SameJob(s, Try(s, step).value, i)
  {
    if step.CaptureItem? { CaptureEffect(s, step.claim.job, Some(step.claim), step.context); }
    else if step.ReleaseItem? { ReleaseEffect(s, step.item, step.terminal, step.fence, step.context); }
    else if step.Reverse? { MoneySteps.ReverseEffect(s, step.topup, step.reason); }
    else if step.Resolve? {
      ResolveElsewhere(s, step.decision, step.reason, step.isOwner, step.expected, step.context, i);
    }
    else { BalanceKeepsJobs(s, step); }
  }

  lemma ConfirmElsewhere(s: Tables, step: Step, i: ItemId)
    requires step.Confirm? && Try(s, step).Ok?
    ensures SameJob(s, Try(s, step).value, i)
  {
    var c := step.caller;
    CheckoutLaws.ConfirmUnfolds(s, c, step.preflight, step.blocked, step.catalogue, step.context);
    var lines := s.sessions[c.session].selected;
    ReserveEachKeepsJobs(Checkout.CreateOrder(s, c.actor, step.preflight.account, lines, step.catalogue).value, c.actor,
                         Checkout.RequestsFor(|s.items|, lines), step.context);
  }

  /** Apart from maintenance, a job's row is written only by steps about that job. */
  lemma JobUntouchedElsewhere(s: Tables, step: Step, i: ItemId)
    requires !About(step, i) && !step.Maintain?
    ensures SameJob(s, Apply(s, step), i)
  {
    if Try(s, step).Ok? {
      if RunnerKind(step) { RunnerElsewhere(s, step, i); }
      else if MoneyKind(step) { MoneyElsewhere(s, step, i); }
      else if PaymentKind(step) { PaymentKeepsJobs(s, step); }
      else if step.Confirm? { ConfirmElsewhere(s, step, i); }
      else { SessionKeepsJobs(s, step); }
    }
  }

  /** Maintenance takes no lease that still runs, unless the item is captured. */
  lemma LiveLeaseSurvivesMaintenance(s: Tables, i: ItemId)
    requires i in s.jobs && i < |s.items| && s.jobs[i].lease.Some? && s.jobs[i].lease.value.expires > s.clock
    requires s.jobs[i].state != WaitingRetry && s.items[i].state != ReadyToClaim
    ensures SameJob(s, MaintenancePass(s), i)
  {
    MaintenanceLaws.PassAt(s, i);
    assert MaintenanceLaws.RowsOf(MaintenancePass(s), i).job == MaintenancePass(s).jobs[i];
  }

  // ---------------------------------------------------------------- a claim lasts

  /** Nothing in the run is about the job, and maintenance does not find it captured. */
  ghost predicate LeftAlone(s: Tables, steps: seq<Step>, i: ItemId)
    decreases |steps|
  {
    steps != [] ==>
      && !About(steps[0], i) && (steps[0].Maintain? ==> !ItemIn(s, i, ReadyToClaim))
      && LeftAlone(Apply(s, steps[0]), steps[1..], i)
  }

  /** Whatever everybody else does, crashes and maintenance included, the worker keeps its
      job to the very end of its lease. */
  lemma {:induction false} ClaimLasts(s: Tables, steps: seq<Step>, c: Claim, until: nat)
    requires Inv(s) && HeldUntil(s, c, until) && LeftAlone(s, steps, c.job) && Run(s, steps).clock < until
    ensures HeldUntil(Run(s, steps), c, until) && Owns(Run(s, steps), c)
    ensures Run(s, steps).jobs[c.job] == s.jobs[c.job]
    decreases |steps|
  {
    if steps != [] {
      StepGood(s, steps[0]);
      RunGood(Apply(s, steps[0]), steps[1..]);
      ClaimSurvives(s, steps[0], c, until);
      ClaimLasts(Apply(s, steps[0]), steps[1..], c, until);
    }
  }

  lemma ClaimSurvives(s: Tables, step: Step, c: Claim, until: nat)
    requires Inv(s) && HeldUntil(s, c, until) && s.clock < until
    requires !About(step, c.job) && (step.Maintain? ==> !ItemIn(s, c.job, ReadyToClaim))
    ensures SameJob(s, Apply(s, step), c.job)
  {
    if step.Maintain? {
      assert Holds(s, LockstepAspect);
      assert LockstepAt(s, c.job);
      LiveLeaseSurvivesMaintenance(s, c.job);
      MaintainIsPass(s);
    } else {
      JobUntouchedElsewhere(s, step, c.job);
    }
  }

  lemma MaintainIsPass(s: Tables)
    ensures Apply(s, Maintain) == MaintenancePass(s)
  {}

  // ---------------------------------------------------------------- under a claim

  /** The worker owns the job: its token, its name, and time left. */
  predicate Mine(s: Tables, c: Claim) {
    && c.job in s.jobs && s.jobs[c.job].token == c.token
    && s.jobs[c.job].lease.Some? && s.jobs[c.job].lease.value.owner == c.owner && s.clock < s.jobs[c.job].lease.value.expires
  }

  /** A heartbeat of the owner, and of nobody else, moves the end of the lease. */
  lemma Renewed(s: Tables, c: Claim, ttl: nat)
    ensures Try(s, Step.Heartbeat(c, ttl)).Ok? <==> Mine(s, c) && s.jobs[c.job].state != Completed && s.jobs[c.job].state != Failed
    ensures var s' := Apply(s, Step.Heartbeat(c, ttl));
            Try(s, Step.Heartbeat(c, ttl)).Ok? ==>
              && s' == s.(jobs := s.jobs[c.job := s.jobs[c.job].(lease := Some(Lease(c.owner, s.clock + ttl)))])
              && HeldUntil(s', c, s.clock + ttl) && (Mine(s', c) <==> ttl > 0)
  {}

  /** A run begins iff the worker owns the job, read it LEASED or waiting to go on, at the
      version it has, and its item is LEASED. */
  lemma RunBegun(s: Tables, seen: Seen)
    ensures var c := seen.claim;
            Try(s, BeginRun(seen)).Ok? <==>
              && Mine(s, c) && s.jobs[c.job].version == seen.version && seen.state in {Leased, WaitingRateLimit, WaitingRetry}
              && c.job < |s.items| && s.items[c.job].state == Leased
    ensures var s', i := Apply(s, BeginRun(seen)), seen.claim.job;
            Try(s, BeginRun(seen)).Ok? ==>
              && JobMoved(s, s', i, Running, 1, s.jobs[i].lease) && ItemMoved(s, s', i, Running)
              && s' == s.(jobs := s'.jobs, items := s'.items)
    ensures var o, c := Try(s, BeginRun(seen)), seen.claim;
            o.Err? ==> o.error == if seen.state !in {Leased, WaitingRateLimit, WaitingRetry} then IllegalTransition
                                  else if !Mine(s, c) || s.jobs[c.job].version != seen.version then FencingLost
                                  else ItemStateConflict
  {}

  /** The worker that was given the job can begin at once, at the version it was given. */
  lemma DispatchedRuns(s: Tables, i: ItemId, holder: WorkerId, ttl: nat)
    requires Try(s, Step.Dispatch(i, holder, ttl)).Ok? && ttl > 1
    ensures i in s.jobs
    ensures var s', c := Apply(s, Step.Dispatch(i, holder, ttl)), Claim(i, holder, s.jobs[i].token + 1);
            && Try(s', BeginRun(Seen(c, Leased, s.jobs[i].version + 1))).Ok?
            && forall later: nat :: Try(s', Step.Heartbeat(c, later)).Ok?
  {
    DispatchGivesJob(s, i, holder, ttl);
    var s', c := Apply(s, Step.Dispatch(i, holder, ttl)), Claim(i, holder, s.jobs[i].token + 1);
    RunBegun(s', Seen(c, Leased, s.jobs[i].version + 1));
    forall later: nat ensures Try(s', Step.Heartbeat(c, later)).Ok? { Renewed(s', c, later); }
  }

  /** A finished run settles: two versions further, through VERIFYING. */
  lemma SettlingBegun(s: Tables, seen: Seen)
    ensures var c := seen.claim;
            Try(s, BeginSettling(seen)).Ok? <==>
              && Mine(s, c) && s.jobs[c.job].version == seen.version && seen.state == Running
              && c.job < |s.items| && s.items[c.job].state == Running
    ensures var s', i := Apply(s, BeginSettling(seen)), seen.claim.job;
            Try(s, BeginSettling(seen)).Ok? ==>
              && JobMoved(s, s', i, Settling, 2, s.jobs[i].lease) && ItemMoved(s, s', i, Settling)
              && s' == s.(jobs := s'.jobs, items := s'.items)
  {
    SettlingEffect(s, seen);
    assert Try(s, BeginSettling(seen)) == TransitionToSettling(s, seen);
  }

  lemma SettlingEffect(s: Tables, seen: Seen)
    ensures var c, i, o := seen.claim, seen.claim.job, TransitionToSettling(s, seen);
            if Mine(s, c) && s.jobs[i].version == seen.version && seen.state == Running
               && i < |s.items| && s.items[i].state == Running
            then o == Ok(s.(jobs := s.jobs[i := s.jobs[i].(state := Settling, version := s.jobs[i].version + 2)],
                            items := s.items[i := s.items[i].(state := Settling)]))
            else o.Err?
  {
    var i := seen.claim.job;
    if Mine(s, seen.claim) && i < |s.items| {
      var j, x := s.jobs[i], s.items[i];
      var j1 := j.(state := Verifying, version := j.version + 1);
      WrittenTwice(s.jobs, i, j1, j1.(state := Settling, version := j1.version + 1));
      WrittenTwiceInRow(s.items, i, x.(state := Verifying), x.(state := Settling));
    }
  }

  lemma WrittenTwice<K, V>(m: map<K, V>, k: K, a: V, b: V)
    ensures m[k := a][k := b] == m[k := b]
  {}

  lemma WrittenTwiceInRow<V>(rows: seq<V>, k: nat, a: V, b: V)
    requires k < |rows|
    ensures rows[k := a][k := b] == rows[k := b]
  {}

  /** The job is completed from SETTLING, and given up. */
  lemma JobCompleted(s: Tables, seen: Seen)
    ensures var c := seen.claim;
            Try(s, Complete(seen)).Ok? <==> Mine(s, c) && s.jobs[c.job].version == seen.version && seen.state == Settling
    ensures var s' := Apply(s, Complete(seen));
            Try(s, Complete(seen)).Ok? ==> JobMoved(s, s', seen.claim.job, Completed, 1, None) && s' == s.(jobs := s'.jobs)
  {}

  /** Failing needs a lease that still runs, whoever holds it; a closed job is left. */
  lemma JobFailed(s: Tables, i: ItemId)
    requires LockstepOk(s)
    ensures var open := i in s.jobs && s.jobs[i].state != Completed && s.jobs[i].state != Failed;
            var s' := Apply(s, FailItem(i));
            && (Try(s, FailItem(i)).Ok? <==> open ==> s.jobs[i].lease.Some? && s.clock < s.jobs[i].lease.value.expires)
            && (Try(s, FailItem(i)).Ok? && open ==> JobMoved(s, s', i, Failed, 1, None) && s' == s.(jobs := s'.jobs))
            && (!open ==> s' == s)
  {
    assert LockstepAt(s, i);
  }

  /** Giving a job back before its end: LEASED to the queue, RUNNING and VERIFYING to a
      retry, anything else to a person. */
  function GivenBack(state: Stage): Stage {
    if state == Leased then Queued else if state == Running || state == Verifying then WaitingRetry else ManualReview
  }

  lemma Checkpointed(s: Tables, c: Claim, delay: nat)
    ensures Try(s, Step.Checkpoint(c, delay)).Ok? <==> Mine(s, c)
    ensures var s', i := Apply(s, Step.Checkpoint(c, delay)), c.job;
            Mine(s, c) ==>
              var next := GivenBack(s.jobs[i].state);
              && s'.jobs == s.jobs[i := s.jobs[i].(state := next, version := s.jobs[i].version + 1,
                                                   availableAt := s.clock + delay, lease := None)]
              && (if i < |s.items| then ItemMoved(s, s', i, next) else s'.items == s.items)
              && s'.reviews == (if next == ManualReview && ItemSubject(i) !in s.reviews
                                then s.reviews[ItemSubject(i) := Review(Open, 1, false)] else s.reviews)
              && s' == s.(jobs := s'.jobs, items := s'.items, reviews := s'.reviews)
  {
    CheckpointEffect(s, c, delay);
    assert Try(s, Step.Checkpoint(c, delay)) == CheckpointRetry(s, c, delay);
  }

  lemma CheckpointEffect(s: Tables, c: Claim, delay: nat)
    ensures CheckpointRetry(s, c, delay).Ok? <==> Mine(s, c)
    ensures Mine(s, c) ==>
              var i, next := c.job, GivenBack(s.jobs[c.job].state);
              CheckpointRetry(s, c, delay)
              == Ok(s.(jobs := s.jobs[i := s.jobs[i].(state := next, version := s.jobs[i].version + 1,
                                                     availableAt := s.clock + delay, lease := None)],
                       items := if i < |s.items| then s.items[i := s.items[i].(state := next)] else s.items,
                       reviews := if next == ManualReview && ItemSubject(i) !in s.reviews
                                  then s.reviews[ItemSubject(i) := Review(Open, 1, false)] else s.reviews))
  {}

  /** A new mutation is recorded for the owner when none of the job's mutations is in
      flight, accepted or uncertain. */
  lemma MutationPrepared(s: Tables, c: Claim, kind: MutationKind, baseline: int)
    ensures var o := Try(s, Prepare(c, kind, baseline));
            o.Ok? <==> Mine(s, c) && forall k | 0 <= k < |s.jobs[c.job].mutations| ::
                                        s.jobs[c.job].mutations[k].status !in {InFlight, Accepted, Uncertain}
    ensures var o := Try(s, Prepare(c, kind, baseline));
            o.Ok? ==>
              var ms := s.jobs[c.job].mutations + [Mutation(kind, baseline, InFlight, None)];
              o.value == s.(jobs := s.jobs[c.job := s.jobs[c.job].(mutations := ms)])
    ensures var o := Try(s, Prepare(c, kind, baseline)); o.Err? ==> o.error == if !Mine(s, c) then FencingLost else StaleState
  {}

  lemma MutationMarked(s: Tables, c: Claim, k: nat, status: MutationStatus, evidence: Option<Fresh>)
    ensures var o := Try(s, Step.Mark(c, k, status, evidence));
            && (o.Ok? <==> Mine(s, c) && k < |s.jobs[c.job].mutations|)
            && (o.Ok? ==>
                  var ms := s.jobs[c.job].mutations;
                  o.value == s.(jobs := s.jobs[c.job := s.jobs[c.job].(
                                  mutations := ms[k := Mutation(ms[k].kind, ms[k].baseline, status, evidence)])]))
  {}

  /** Progress is the greatest reported; a terminal item keeps what it has. */
  lemma ProgressReported(s: Tables, c: Claim, progress: int)
    ensures var o, i := Try(s, ReportProgress(c, progress)), c.job;
            && (o.Ok? <==> Mine(s, c))
            && (o.Ok? ==>
                  if i >= |s.items| || s.items[i].state in {ReadyToClaim, ExpiredReleased, ExternalCompletedReleased,
                                                            StoppedReleased, FailedReleased}
                  then o.value == s
                  else
                    var known := s.items[i].progress;
                    o.value == s.(items := s.items[i := s.items[i].(progress := if known < progress then progress else known)]))
  {}

  // ---------------------------------------------------------------- nobody's claim

  /** An open job goes to a person whoever holds it; one that is closed, or with a person
      already, is left. */
  lemma SentToReview(s: Tables, i: ItemId)
    ensures var s' := Apply(s, ToReview(i));
            if i in s.jobs && s.jobs[i].state != Completed && s.jobs[i].state != Failed && s.jobs[i].state != ManualReview
            then
              && JobMoved(s, s', i, ManualReview, 1, None)
              && (if i < |s.items| then ItemMoved(s, s', i, ManualReview) else s'.items == s.items)
              && s'.reviews == (if ItemSubject(i) in s.reviews then s.reviews else s.reviews[ItemSubject(i) := Review(Open, 1, false)])
              && s' == s.(jobs := s'.jobs, items := s'.items, reviews := s'.reviews)
            else s' == s
  {}

  lemma ForcedToFail(s: Tables, i: ItemId)
    ensures var s' := Apply(s, ForceFailItem(i));
            if i in s.jobs then JobMoved(s, s', i, Failed, 1, None) && s' == s.(jobs := s'.jobs) else s' == s
  {}

  /** An administrator's review: for a reason, of an item that is neither terminal nor only
      selected; the item and its open job go to a person together. */
  lemma ReviewOpened(s: Tables, i: ItemId, reason: string, ownerOnly: bool)
    requires i < |s.items| ==> s.items[i].state !in {Completed, Failed}
    ensures Try(s, OpenItemReview(i, reason, ownerOnly)).Ok? <==>
              && (exists c | c in reason :: c !in {' ', '\t', '\n', '\r'}) && i < |s.items|
              && s.items[i].state !in {Selected, ReadyToClaim, ExpiredReleased, ExternalCompletedReleased, StoppedReleased,
                                       FailedReleased}
    ensures var s' := Apply(s, OpenItemReview(i, reason, ownerOnly));
            Try(s, OpenItemReview(i, reason, ownerOnly)).Ok? ==>
              && (s.items[i].state != ManualReview ==>
                    && ItemMoved(s, s', i, ManualReview)
                    && (if i in s.jobs && s.jobs[i].state != Completed && s.jobs[i].state != Failed
                        then JobMoved(s, s', i, ManualReview, 1, None) else s'.jobs == s.jobs))
              && (s.items[i].state == ManualReview ==> s'.items == s.items && s'.jobs == s.jobs)
              && s'.reviews == (if ItemSubject(i) in s.reviews then s.reviews
                                else s.reviews[ItemSubject(i) := Review(Open, 1, ownerOnly)])
              && s' == s.(jobs := s'.jobs, items := s'.items, reviews := s'.reviews)
  {
    OpenedEffect(s, i, reason, ownerOnly);
    assert Try(s, OpenItemReview(i, reason, ownerOnly)) == OpenOrderItemReview(s, i, reason, ownerOnly);
  }

  lemma OpenedEffect(s: Tables, i: ItemId, reason: string, ownerOnly: bool)
    requires i < |s.items| ==> s.items[i].state !in {Completed, Failed}
    ensures var o := OpenOrderItemReview(s, i, reason, ownerOnly);
            var reviews := if ItemSubject(i) in s.reviews then s.reviews else s.reviews[ItemSubject(i) := Review(Open, 1, ownerOnly)];
            if !(exists c | c in reason :: c !in {' ', '\t', '\n', '\r'}) || i >= |s.items|
               || s.items[i].state in {Selected, ReadyToClaim, ExpiredReleased, ExternalCompletedReleased, StoppedReleased,
                                       FailedReleased}
            then o.Err?
            else if s.items[i].state == ManualReview then o == Ok(s.(reviews := reviews))
            else
              var jobs := if i in s.jobs && s.jobs[i].state != Completed && s.jobs[i].state != Failed
                          then s.jobs[i := s.jobs[i].(state := ManualReview, version := s.jobs[i].version + 1, lease := None)]
                          else s.jobs;
              o == Ok(s.(items := s.items[i := s.items[i].(state := ManualReview)], jobs := jobs, reviews := reviews))
  {
    if i < |s.items| && s.items[i].state != ManualReview {
      assert ReviewRows(s, i).items == s.items[i := s.items[i].(state := ManualReview)];
    }
  }

  /** The jobs that count against the queue's limit of five hundred. */
  function Waiting(s: Tables): set<ItemId> {
    set i | i in s.jobs && s.jobs[i].state in {Queued, Leased, Running, WaitingRateLimit, WaitingRetry}
  }

  /** The order's first reserved item gets a job, while the queue is short enough. */
  lemma NextMaterialized(s: Tables, o: OrderId, i: ItemId)
    requires i < |s.items| && s.items[i].order == o && s.items[i].state == Stage.Reserved && o < |s.orders|
    requires forall k | 0 <= k < i :: s.items[k].order != o || s.items[k].state != Stage.Reserved
    ensures var s' := Apply(s, Materialize(o));
            if |Waiting(s)| < 500 && i !in s.jobs
            then
              && s'.jobs == s.jobs[i := Job(s.orders[o].user, Queued, 1, s.clock, s.items[i].deadline, true, None, 0, 0, [])]
              && ItemMoved(s, s', i, Queued) && s' == s.(jobs := s'.jobs, items := s'.items)
            else s' == s
  {
    assert Waiting(s) == QueuedJobs(s.jobs);
    assert FirstReserved(s.items, o, 0) == Some(i);
    assert Apply(s, Materialize(o)) == Settled(MaterializeNext(s, o), s);
  }

  lemma {:induction false} NothingToMaterialize(s: Tables, o: OrderId)
    requires o >= |s.orders| || forall k | 0 <= k < |s.items| :: s.items[k].order != o || s.items[k].state != Stage.Reserved
    ensures Apply(s, Materialize(o)) == s
  {
    assert Apply(s, Materialize(o)) == Settled(MaterializeNext(s, o), s);
  }

  // ---------------------------------------------------------------- after a crash

  /** A person must look at a job that settles, or one of whose mutations is in flight,
      accepted or uncertain. */
  function StageFor(j: Job): Stage {
    if j.state == Settling || exists k | 0 <= k < |j.mutations| :: j.mutations[k].status in {InFlight, Accepted, Uncertain}
    then ManualReview else WaitingRetry
  }

  /** The rows of a crashed job, before and after. */
  predicate CrashRows(j: Job, x: Item, j': Job, x': Item, now: nat) {
    && j' == j.(state := StageFor(j), version := j.version + 1, lease := None, availableAt := now + 5)
    && x' == x.(state := StageFor(j))
  }

  /** Where a crashed job goes: to a person, with its review open, or to a retry after five
      seconds; its item goes with it. */
  lemma CrashedGoes(s: Tables, i: ItemId)
    requires LockstepOk(s) && i in s.jobs && i < |s.items| && s.jobs[i].state in {Running, Verifying, Settling}
    requires s.jobs[i].lease.Some? && s.jobs[i].lease.value.expires <= s.clock && s.items[i].state != ReadyToClaim
    ensures var s' := MaintenancePass(s);
            && i in s'.jobs && i < |s'.items| && CrashRows(s.jobs[i], s.items[i], s'.jobs[i], s'.items[i], s.clock)
            && (StageFor(s.jobs[i]) == ManualReview ==> ItemSubject(i) in s'.reviews)
  {
    PassRows(s, i);
    RowsAfterCrash(MaintenanceLaws.Rows(s.jobs[i], s.items[i]), s.clock);
    CrashedHasReview(s, i);
  }

  lemma {:induction false} PassRows(s: Tables, i: ItemId)
    requires i in s.jobs && i < |s.items|
    ensures i in MaintenancePass(s).jobs && |MaintenancePass(s).items| == |s.items|
    ensures MaintenancePass(s).jobs[i] == MaintenanceLaws.Pass(MaintenanceLaws.Rows(s.jobs[i], s.items[i]), s.clock).job
    ensures MaintenancePass(s).items[i] == MaintenanceLaws.Pass(MaintenanceLaws.Rows(s.jobs[i], s.items[i]), s.clock).item
  {
    MaintenanceLaws.PassAt(s, i);
    assert MaintenanceLaws.RowsOf(MaintenancePass(s), i).job == MaintenancePass(s).jobs[i];
    assert MaintenanceLaws.RowsOf(MaintenancePass(s), i).item == MaintenancePass(s).items[i];
  }

  lemma CrashedHasReview(s: Tables, i: ItemId)
    requires LockstepOk(s) && i in s.jobs && s.jobs[i].state in {Running, Verifying, Settling}
    requires s.jobs[i].lease.Some? && s.jobs[i].lease.value.expires <= s.clock && !ItemIn(s, i, ReadyToClaim)
    ensures StageFor(s.jobs[i]) == ManualReview ==> ItemSubject(i) in MaintenancePass(s).reviews
  {
    if MaintenanceLaws.NeedsPerson(s, i) { MaintenanceLaws.PersonAsked(s, i); }
  }

  lemma RowsAfterCrash(r: MaintenanceLaws.Rows, now: nat)
    requires r.job.state in {Running, Verifying, Settling} && r.job.lease.Some? && r.job.lease.value.expires <= now
    requires r.item.state != ReadyToClaim
    ensures CrashRows(r.job, r.item, MaintenanceLaws.Pass(r, now).job, MaintenanceLaws.Pass(r, now).item, now)
  {}

  /** A LEASED job whose lease ran out is back in the queue, at once, with its item. */
  lemma ExpiredGoesBack(s: Tables, i: ItemId)
    requires i in s.jobs && i < |s.items| && s.jobs[i].state == Leased && s.items[i].state != ReadyToClaim
    requires s.jobs[i].lease.Some? && s.jobs[i].lease.value.expires <= s.clock
    ensures |MaintenancePass(s).items| == |s.items| && i in MaintenancePass(s).jobs
    ensures var s' := MaintenancePass(s);
            && s'.jobs[i] == s.jobs[i].(state := Queued, version := s.jobs[i].version + 1, lease := None, availableAt := s.clock)
            && s'.items[i] == if s.items[i].state == Leased then s.items[i].(state := Queued) else s.items[i]
  {
    MaintenanceLaws.PassAt(s, i);
    assert MaintenanceLaws.RowsOf(MaintenancePass(s), i).job == MaintenancePass(s).jobs[i];
    assert MaintenanceLaws.RowsOf(MaintenancePass(s), i).item == MaintenancePass(s).items[i];
  }

  /** A retry that is due is queued again, with its item. */
  lemma RetryGoesBack(s: Tables, i: ItemId)
    requires i in s.jobs && i < |s.items| && s.jobs[i].state == WaitingRetry && s.items[i].state != ReadyToClaim
    ensures |MaintenancePass(s).items| == |s.items| && i in MaintenancePass(s).jobs
    ensures var s' := MaintenancePass(s);
            if s.jobs[i].availableAt <= s.clock
            then
              && s'.jobs[i] == s.jobs[i].(state := Queued, version := s.jobs[i].version + 1)
              && s'.items[i] == if s.items[i].state == WaitingRetry then s.items[i].(state := Queued) else s.items[i]
            else s'.jobs[i] == s.jobs[i] && s'.items[i] == s.items[i]
  {
    MaintenanceLaws.PassAt(s, i);
    assert MaintenanceLaws.RowsOf(MaintenancePass(s), i).job == MaintenancePass(s).jobs[i];
    assert MaintenanceLaws.RowsOf(MaintenancePass(s), i).item == MaintenancePass(s).items[i];
  }
}
