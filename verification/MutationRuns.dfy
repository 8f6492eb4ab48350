/** The checkpoint protocol inside the shop: whatever the rest of the shop does, the
    mutation rows of a job are those of its protocol, as long as only the workers that
    acquired the job write them. */
module MutationRuns {
  import opened Common
  import opened Ledger
  import opened Schema
  import opened Wallet
  import opened Promotions
  import opened Runner
  import opened Recovery
  import opened Payments
  import opened Checkout
  import opened Lockstep
  import opened MaintenanceLaws
  import opened Machine
  import opened Frames
  import opened CheckoutLaws
  import opened Safety
  import MoneySteps
  import M = Mutations

  // ---------------------------------------------------------------- what the others do

  /** The job's lease runs. */
  predicate Valid(s: Tables, i: ItemId) {
    i in s.jobs && s.jobs[i].lease.Some? && s.jobs[i].lease.value.expires > s.clock
  }

  predicate Writes(step: Step, i: ItemId) {
    (step.Prepare? || step.Mark?) && step.claim.job == i
  }

  predicate Takes(s: Tables, step: Step, i: ItemId) {
    step.Dispatch? && step.item == i && Try(s, step).Ok?
  }

  /** A step that does not write the job's mutations leaves them alone; only a dispatch
      raises its token and gives it a new owner; a new job has no token yet. */
  predicate JobLives(s: Tables, s': Tables, step: Step, i: ItemId) {
    if i !in s.jobs then
      i in s'.jobs ==> s'.jobs[i].token == 0 && s'.jobs[i].mutations == [] && s'.jobs[i].lease.None?
    else
      && i in s'.jobs && s'.jobs[i].mutations == s.jobs[i].mutations
      && (if Takes(s, step, i)
          then s'.jobs[i].token == s.jobs[i].token + 1 && (Valid(s', i) ==> s'.jobs[i].lease.value.owner == step.holder)
          else s'.jobs[i].token == s.jobs[i].token
               && (Valid(s', i) ==> Valid(s, i) && s'.jobs[i].lease.value.owner == s.jobs[i].lease.value.owner))
  }

  lemma SameJobsLive(s: Tables, s': Tables, step: Step, i: ItemId)
    requires s'.jobs == s.jobs && s.clock <= s'.clock && !step.Dispatch?
    ensures JobLives(s, s', step, i)
  {}

  /** The job row k is written, and keeps token and owner. */
  lemma OneJobLives(s: Tables, s': Tables, step: Step, k: ItemId, i: ItemId)
    requires k in s.jobs && k in s'.jobs && s'.jobs == s.jobs[k := s'.jobs[k]] && s'.clock == s.clock && !step.Dispatch?
    requires s'.jobs[k].token == s.jobs[k].token && (k == i ==> s'.jobs[k].mutations == s.jobs[k].mutations)
    requires s'.jobs[k].lease.None? || s'.jobs[k].lease == s.jobs[k].lease
             || (Valid(s, k) && s'.jobs[k].lease.value.owner == s.jobs[k].lease.value.owner)
    ensures JobLives(s, s', step, i)
  {}

  lemma LeaseStepLives(s: Tables, step: Step, i: ItemId)
    requires step.Heartbeat? || step.BeginRun? || step.BeginSettling? || step.Complete?
    requires Try(s, step).Ok?
    ensures JobLives(s, Try(s, step).value, step, i)
  {
    var k := if step.Heartbeat? then step.claim.job else step.seen.claim.job;
    OneJobLives(s, Try(s, step).value, step, k, i);
  }

  lemma WorkStepLives(s: Tables, step: Step, i: ItemId)
    requires (step.Checkpoint? || step.Prepare? || step.Mark?) && !Writes(step, i)
    requires Try(s, step).Ok?
    ensures JobLives(s, Try(s, step).value, step, i)
  {
    OneJobLives(s, Try(s, step).value, step, step.claim.job, i);
  }

  lemma FailLives(s: Tables, step: Step, i: ItemId)
    requires (step.FailItem? || step.ForceFailItem?) && Try(s, step).Ok?
    ensures JobLives(s, Try(s, step).value, step, i)
  {
    var s' := Try(s, step).value;
    if s' == s { SameJobsLive(s, s', step, i); } else { OneJobLives(s, s', step, step.item, i); }
  }

  lemma ReviewLives(s: Tables, k: ItemId, i: ItemId)
    ensures JobLives(s, MoveToManualReview(s, k), ToReview(k), i)
  {
    var s' := MoveToManualReview(s, k);
    if s' == s { SameJobsLive(s, s', ToReview(k), i); } else { OneJobLives(s, s', ToReview(k), k, i); }
  }

  lemma OpenReviewJobs(s: Tables, k: ItemId, reason: string, ownerOnly: bool)
    requires OpenOrderItemReview(s, k, reason, ownerOnly).Ok?
    ensures var s' := OpenOrderItemReview(s, k, reason, ownerOnly).value;
            s'.clock == s.clock && (s'.jobs == s.jobs || s'.jobs == ReviewRows(s, k).jobs)
  {
    var reviews := OpenReview(s.reviews, ItemSubject(k), ownerOnly);
    if s.items[k].state == ManualReview {
      assert OpenOrderItemReview(s, k, reason, ownerOnly) == Ok(s.(reviews := reviews));
    } else {
      assert OpenOrderItemReview(s, k, reason, ownerOnly) == Ok(ReviewRows(s, k).(reviews := reviews));
    }
  }

  lemma OpenReviewLives(s: Tables, k: ItemId, reason: string, ownerOnly: bool, i: ItemId)
    requires OpenOrderItemReview(s, k, reason, ownerOnly).Ok?
    ensures JobLives(s, OpenOrderItemReview(s, k, reason, ownerOnly).value, OpenItemReview(k, reason, ownerOnly), i)
  {
    OpenReviewJobs(s, k, reason, ownerOnly);
    ReviewRowsLive(s, OpenOrderItemReview(s, k, reason, ownerOnly).value, k, OpenItemReview(k, reason, ownerOnly), i);
  }

  lemma ReviewRowsLive(s: Tables, s': Tables, k: ItemId, step: Step, i: ItemId)
    requires s'.clock == s.clock && (s'.jobs == s.jobs || s'.jobs == ReviewRows(s, k).jobs) && !step.Dispatch?
    ensures JobLives(s, s', step, i)
  {
    if s'.jobs == s.jobs {
      SameJobsLive(s, s', step, i);
    } else {
      assert k in s.jobs && s'.jobs[k].lease.None? && s'.jobs[k].mutations == s.jobs[k].mutations;
      OneJobLives(s, s', step, k, i);
    }
  }

  lemma DispatchLives(s: Tables, k: ItemId, holder: WorkerId, ttl: nat, i: ItemId)
    requires Acquire(s, k, holder, ttl).Ok?
    ensures JobLives(s, Acquire(s, k, holder, ttl).value, Step.Dispatch(k, holder, ttl), i)
  {}

  lemma MaterializeLives(s: Tables, o: OrderId, i: ItemId)
    requires MaterializeNext(s, o).Ok?
    ensures JobLives(s, MaterializeNext(s, o).value, Materialize(o), i)
  {
    var s' := MaterializeNext(s, o).value;
    if s' == s {
      SameJobsLive(s, s', Materialize(o), i);
    } else {
      var k := FirstReserved(s.items, o, 0).value;
      assert k !in s.jobs && s'.jobs == s.jobs[k := NewJob(s, k, s.orders[o].user)] && s'.clock == s.clock;
      NewJobLives(s, s', k, NewJob(s, k, s.orders[o].user), Materialize(o), i);
    }
  }

  lemma NewJobLives(s: Tables, s': Tables, k: ItemId, j: Job, step: Step, i: ItemId)
    requires k !in s.jobs && s'.jobs == s.jobs[k := j] && s'.clock == s.clock && !step.Dispatch?
    requires j.token == 0 && j.mutations == [] && j.lease.None?
    ensures JobLives(s, s', step, i)
  {}

  lemma RunnerLives(s: Tables, step: Step, i: ItemId)
    requires RunnerKind(step) && !Writes(step, i) && Try(s, step).Ok?
    ensures JobLives(s, Try(s, step).value, step, i)
  {
    if step.Dispatch? { DispatchLives(s, step.item, step.holder, step.ttl, i); }
    else if step.Materialize? { MaterializeLives(s, step.order, i); }
    else if step.Heartbeat? || step.BeginRun? || step.BeginSettling? || step.Complete? { LeaseStepLives(s, step, i); }
    else if step.Checkpoint? || step.Prepare? || step.Mark? { WorkStepLives(s, step, i); }
    else if step.ReportProgress? { SameJobsLive(s, Try(s, step).value, step, i); }
    else if step.ToReview? { ReviewLives(s, step.item, i); }
    else if step.OpenItemReview? { OpenReviewLives(s, step.item, step.reason, step.ownerOnly, i); }
    else { FailLives(s, step, i); }
  }

  lemma MaintainLives(s: Tables, i: ItemId)
    requires LockstepOk(s)
    ensures JobLives(s, MaintenancePass(s), Maintain, i)
  {
    PassFrame(s);
    if i in s.jobs {
      assert LockstepAt(s, i);
      PassAt(s, i);
      RowsLive(RowsOf(s, i), s.clock);
      assert RowsOf(MaintenancePass(s), i).job == MaintenancePass(s).jobs[i];
    }
  }

  lemma RowsLive(r: Rows, now: nat)
    ensures var j := Pass(r, now).job;
            j.mutations == r.job.mutations && j.token == r.job.token && (j.lease.None? || j.lease == r.job.lease)
  {}

  /** A decision writes the row of its own job, and no more than drops its lease. */
  predicate DecidedJob(s: Tables, s': Tables, k: ItemId) {
    if k !in s.jobs then s'.jobs == s.jobs
    else
      && k in s'.jobs && s'.jobs == s.jobs[k := s'.jobs[k]] && s'.jobs[k].mutations == s.jobs[k].mutations
      && s'.jobs[k].token == s.jobs[k].token && (s'.jobs[k].lease.None? || s'.jobs[k].lease == s.jobs[k].lease)
  }

  lemma RetryDecides(s: Tables, k: ItemId, ctx: Context)
    requires DecideItem(s, k, Retry, ctx).Ok?
    ensures DecidedJob(s, DecideItem(s, k, Retry, ctx).value, k)
  {}

  lemma CaptureDecides(s: Tables, k: ItemId, ctx: Context)
    requires DecideItem(s, k, CaptureIt, ctx).Ok?
    ensures DecidedJob(s, DecideItem(s, k, CaptureIt, ctx).value, k)
  {
    CaptureDecisionEffect(s, k, ctx);
    var s' := DecideItem(s, k, CaptureIt, ctx).value;
    forall j | j in s.jobs && j != k ensures s'.jobs[j] == s.jobs[j] {
      assert j in s'.jobs - {k} && j in s.jobs - {k};
      assert (s'.jobs - {k})[j] == (s.jobs - {k})[j];
    }
    if k in s.jobs { assert s'.jobs == s.jobs[k := s'.jobs[k]]; } else { assert s'.jobs == s.jobs; }
  }

  lemma ReleaseDecides(s: Tables, k: ItemId, d: ItemDecision, ctx: Context)
    requires (d.ReleaseIt? || d.StopIt? || d.FailIt?) && DecideItem(s, k, d, ctx).Ok?
    ensures DecidedJob(s, DecideItem(s, k, d, ctx).value, k)
  {
    ReleaseEffect(s, k, ReleaseStage(d), None, ctx);
  }

  lemma DecisionLives(s: Tables, k: ItemId, d: ItemDecision, ctx: Context, s': Tables, step: Step, i: ItemId)
    requires DecideItem(s, k, d, ctx).Ok? && s'.jobs == DecideItem(s, k, d, ctx).value.jobs && s'.clock == s.clock
    requires step.Resolve?
    ensures JobLives(s, s', step, i)
  {
    match d {
      case Retry => RetryDecides(s, k, ctx);
      case CaptureIt => CaptureDecides(s, k, ctx);
      case _ => ReleaseDecides(s, k, d, ctx);
    }
    if k in s.jobs { OneJobLives(s, s', step, k, i); } else { SameJobsLive(s, s', step, i); }
  }

  lemma TopupDecisionKeepsJobs(s: Tables, t: TopupId, d: TopupDecision)
    requires DecideTopup(s, t, d).Ok?
    ensures DecideTopup(s, t, d).value.jobs == s.jobs && DecideTopup(s, t, d).value.clock == s.clock
  {}

  lemma ItemDecisionClock(s: Tables, k: ItemId, d: ItemDecision, ctx: Context)
    requires DecideItem(s, k, d, ctx).Ok?
    ensures DecideItem(s, k, d, ctx).value.clock == s.clock
  {
    match d {
      case Retry =>
      case CaptureIt => CaptureEffect(SettlingForCapture(s, k), k, None, ctx);
      case _ => ReleaseEffect(s, k, ReleaseStage(d), None, ctx);
    }
  }

  lemma ResolveLives(s: Tables, e: Decision, reason: string, isOwner: bool, expected: Option<nat>, ctx: Context, i: ItemId)
    requires ResolveReview(s, e, reason, isOwner, expected, ctx).Ok?
    ensures JobLives(s, ResolveReview(s, e, reason, isOwner, expected, ctx).value,
                     Step.Resolve(e, reason, isOwner, expected, ctx), i)
  {
    var s' := ResolveReview(s, e, reason, isOwner, expected, ctx).value;
    var step := Step.Resolve(e, reason, isOwner, expected, ctx);
    match e
    case ItemCase(k, choice) =>
      ItemDecisionClock(s, k, choice, ctx);
      DecisionLives(s, k, choice, ctx, s', step, i);
    case TopupCase(t, verdict) =>
      TopupDecisionKeepsJobs(s, t, verdict);
      SameJobsLive(s, s', step, i);
  }

  lemma BalanceKeepsJobs(s: Tables, step: Step)
    requires step.Refund? || step.Adjust? || step.Credit? || step.Prune?
    requires Try(s, step).Ok?
    ensures Try(s, step).value.jobs == s.jobs && Try(s, step).value.clock == s.clock
  {}

  lemma MoneyLives(s: Tables, step: Step, i: ItemId)
    requires Inv(s) && MoneyKind(step) && Try(s, step).Ok?
    ensures JobLives(s, Try(s, step).value, step, i)
  {
    AllAspects(s);
    if step.Maintain? { MaintainLives(s, i); }
    else if step.Resolve? { ResolveLives(s, step.decision, step.reason, step.isOwner, step.expected, step.context, i); }
    else {
      if step.CaptureItem? { CaptureEffect(s, step.claim.job, Some(step.claim), step.context); }
      else if step.ReleaseItem? { ReleaseEffect(s, step.item, step.terminal, step.fence, step.context); }
      else if step.Reverse? { MoneySteps.ReverseEffect(s, step.topup, step.reason); }
      else { BalanceKeepsJobs(s, step); }
      SameJobsLive(s, Try(s, step).value, step, i);
    }
  }

  lemma AttemptKeepsJobs(s: Tables, step: Step)
    requires (step.RecordAttempt? || step.MarkSent? || step.RenewPay?) && Try(s, step).Ok?
    ensures Try(s, step).value.jobs == s.jobs
  {
    match step
    case RecordAttempt(c) => assert Try(s, step) == CreateAttempt(s, c);
    case MarkSent(c) => assert Try(s, step) == Ok(MarkPossiblySent(s, c));
    case RenewPay(c, ttl) => assert Try(s, step) == RenewPayment(s, c, ttl);
  }

  lemma PaymentKeepsJobs(s: Tables, step: Step)
    requires PaymentKind(step) && Try(s, step).Ok?
    ensures Try(s, step).value.jobs == s.jobs
  {
    if step.RecordAttempt? || step.MarkSent? || step.RenewPay? { AttemptKeepsJobs(s, step); }
  }

  lemma {:induction false} ReserveEachKeepsJobs(s: Tables, u: UserId, rs: seq<Request>, ctx: Context)
    requires ReserveEach(s, u, rs, ctx).Ok?
    ensures ReserveEach(s, u, rs, ctx).value.jobs == s.jobs
    decreases |rs|
  {
    if rs != [] { ReserveEachKeepsJobs(ReserveOne(s, u, rs[0], ctx).value, u, rs[1..], ctx); }
  }

  lemma ConfirmLives(s: Tables, step: Step, i: ItemId)
    requires step.Confirm? && Try(s, step).Ok? && s.clock <= Try(s, step).value.clock
    ensures JobLives(s, Try(s, step).value, step, i)
  {
    var c := step.caller;
    ConfirmUnfolds(s, c, step.preflight, step.blocked, step.catalogue, step.context);
    var lines := s.sessions[c.session].selected;
    ReserveEachKeepsJobs(CreateOrder(s, c.actor, step.preflight.account, lines, step.catalogue).value, c.actor,
                         RequestsFor(|s.items|, lines), step.context);
  }

  lemma SessionKeepsJobs(s: Tables, step: Step)
    requires step.Tick? || step.StartSession? || step.Select? || step.Quote? || step.EndSessions?
    requires Try(s, step).Ok?
    ensures Try(s, step).value.jobs == s.jobs
  {}

  lemma StepLives(s: Tables, step: Step, i: ItemId)
    requires Inv(s) && !Writes(step, i)
    ensures JobLives(s, Apply(s, step), step, i)
  {
    if Try(s, step).Ok? {
      StepGood(s, step);
      if RunnerKind(step) { RunnerLives(s, step, i); }
      else if MoneyKind(step) { MoneyLives(s, step, i); }
      else if step.Confirm? { ConfirmLives(s, step, i); }
      else {
        if PaymentKind(step) { PaymentKeepsJobs(s, step); } else { SessionKeepsJobs(s, step); }
        SameJobsLive(s, Apply(s, step), step, i);
      }
    }
  }

  // ---------------------------------------------------------------- protocol and tables together

  /** The protocol's mark, as the step that writes it. */
  function MarkStep(p: M.Protocol, c: Claim, t: nat): Option<Step>
    requires t in p.workers
  {
    match p.workers[t]
    case FirstMark(k, answer) =>
      Some(Step.Mark(c, k, if answer == M.Done then Accepted else if answer == M.Unclear then Uncertain else MutationFailed, None))
    case FirstJudge(k, unclear, read) =>
      if k >= |p.rows| then None
      else if read.None? then Some(Step.Mark(c, k, Uncertain, None))
      else if M.Applied(p.rows[k].kind, p.rows[k].baseline, read.value) then Some(Step.Mark(c, k, Verified, read))
      else Some(Step.Mark(c, k, if unclear then Uncertain else MutationFailed, None))
    case SecondJudge(k, read) =>
      if k >= |p.rows| then None
      else if read.None? then Some(Step.Mark(c, k, Uncertain, None))
      else if M.Applied(p.rows[k].kind, p.rows[k].baseline, read.value) then Some(Step.Mark(c, k, Verified, read))
      else None
    case _ => None
  }

  /** The shop's step behind a worker's move on job i; sending and reading are none. */
  function StepOf(p: M.Protocol, i: ItemId, owner: WorkerId, m: M.Move): Option<Step> {
    match m
    case Begin(t, kind, baseline) =>
      if t in p.workers && p.workers[t] == M.Ready then Some(Step.Prepare(Claim(i, owner, t), kind, baseline)) else None
    case Mark(t) => if t in p.workers then MarkStep(p, Claim(i, owner, t), t) else None
    case _ => None
  }

  /** The shop, the protocol of one of its jobs, and who made each acquisition. */
  datatype Both = Both(tables: Tables, protocol: M.Protocol, owners: map<nat, WorkerId>)

  /** Anybody's step, or a move of one of the job's workers. */
  datatype Act = Elsewhere(step: Step) | OfWorker(move: M.Move)

  /** The protocol sees of the others' steps only that the job was acquired, or that its
      lease no longer runs. */
  function Follow(b: Both, s': Tables, step: Step, i: ItemId): Both {
    var taken := i in b.tables.jobs && Takes(b.tables, step, i);
    var p := if taken then M.Do(b.protocol, M.Acquire) else b.protocol;
    Both(s', if Valid(s', i) then p else M.Do(p, M.LoseLease),
         if taken then b.owners[p.token := step.holder] else b.owners)
  }

  function Turned(b: Both, i: ItemId, a: Act): Both {
    match a
    case Elsewhere(step) => if Writes(step, i) then b else Follow(b, Apply(b.tables, step), step, i)
    case OfWorker(m) =>
      if m.Acquire? || m.LoseLease? || m.worker !in b.owners then b
      else
        var step := StepOf(b.protocol, i, b.owners[m.worker], m);
        Both(if step.Some? then Apply(b.tables, step.value) else b.tables, M.Do(b.protocol, m), b.owners)
  }

  function AllTurned(b: Both, i: ItemId, acts: seq<Act>): Both
    decreases |acts|
  {
    if acts == [] then b else AllTurned(Turned(b, i, acts[0]), i, acts[1..])
  }

  predicate SameRow(r: M.Row, m: Mutation) {
    r.kind == m.kind && r.baseline == m.baseline && r.status == m.status && r.evidence == m.evidence
  }

  predicate SameRows(rows: seq<M.Row>, ms: seq<Mutation>) {
    |rows| == |ms| && forall k | 0 <= k < |rows| :: SameRow(rows[k], ms[k])
  }

  /** The job's row is what the protocol says. */
  ghost predicate Linked(b: Both, i: ItemId) {
    && (if i !in b.tables.jobs then b.protocol == M.Started
        else
          && b.protocol.token == b.tables.jobs[i].token && (b.protocol.live <==> Valid(b.tables, i))
          && (Valid(b.tables, i) ==>
                b.protocol.token in b.owners && b.owners[b.protocol.token] == b.tables.jobs[i].lease.value.owner)
          && SameRows(b.protocol.rows, b.tables.jobs[i].mutations))
    && forall t | t in b.protocol.workers :: t in b.owners && t <= b.protocol.token
  }

  lemma FollowLinks(b: Both, step: Step, i: ItemId)
    requires Inv(b.tables) && Linked(b, i) && !Writes(step, i)
    ensures Linked(Follow(b, Apply(b.tables, step), step, i), i)
  {
    StepLives(b.tables, step, i);
  }

  lemma OwnerOwns(b: Both, i: ItemId, t: nat)
    requires Linked(b, i) && t in b.owners && i in b.tables.jobs
    ensures M.Owner(b.protocol, t) <==> Owns(b.tables, Claim(i, b.owners[t], t))
  {}

  lemma SameOpen(rows: seq<M.Row>, ms: seq<Mutation>)
    requires SameRows(rows, ms)
    ensures (exists k :: 0 <= k < |rows| && M.Open(rows[k])) <==> HasUnsettled(ms)
  {
    if k :| 0 <= k < |rows| && M.Open(rows[k]) { assert ms[k].status in Unsettled; }
    if HasUnsettled(ms) {
      var k :| 0 <= k < |ms| && ms[k].status in Unsettled;
      assert M.Open(rows[k]);
    }
  }

  lemma BeginLinks(b: Both, i: ItemId, t: nat, kind: MutationKind, baseline: int)
    requires Linked(b, i) && i in b.tables.jobs && t in b.owners && t in b.protocol.workers && b.protocol.workers[t] == M.Ready
    ensures Linked(Both(Apply(b.tables, Step.Prepare(Claim(i, b.owners[t], t), kind, baseline)),
                        M.Do(b.protocol, M.Begin(t, kind, baseline)), b.owners), i)
  {
    OwnerOwns(b, i, t);
    SameOpen(b.protocol.rows, b.tables.jobs[i].mutations);
    PrepareEffect(b.tables, Claim(i, b.owners[t], t), kind, baseline);
  }

  lemma PrepareEffect(s: Tables, c: Claim, kind: MutationKind, baseline: int)
    requires c.job in s.jobs
    ensures var s' := Apply(s, Step.Prepare(c, kind, baseline));
            s' == if !Owns(s, c) || HasUnsettled(s.jobs[c.job].mutations) then s
                  else WithJob(s, c.job, s.jobs[c.job].(mutations := s.jobs[c.job].mutations
                                                                     + [Mutation(kind, baseline, InFlight, None)]))
  {}

  lemma MarkEffect(s: Tables, c: Claim, k: nat, status: MutationStatus, evidence: Option<Fresh>)
    requires c.job in s.jobs
    ensures var s' := Apply(s, Step.Mark(c, k, status, evidence));
            var ms := s.jobs[c.job].mutations;
            s' == if !Owns(s, c) || k >= |ms| then s
                  else WithJob(s, c.job, s.jobs[c.job].(mutations := ms[k := ms[k].(status := status, evidence := evidence)]))
  {}

  /** A fenced mark in the protocol and in the shop. */
  lemma MarkedLinks(b: Both, i: ItemId, t: nat, k: nat, status: MutationStatus, evidence: Option<Fresh>, next: M.Phase)
    requires Linked(b, i) && i in b.tables.jobs && t in b.owners && t in b.protocol.workers
    ensures Linked(Both(Apply(b.tables, Step.Mark(Claim(i, b.owners[t], t), k, status, evidence)),
                        M.Marked(b.protocol, t, k, status, evidence, next), b.owners), i)
  {
    OwnerOwns(b, i, t);
    MarkEffect(b.tables, Claim(i, b.owners[t], t), k, status, evidence);
    var p := b.protocol;
    var ms := b.tables.jobs[i].mutations;
    if M.Owner(p, t) && k < |p.rows| {
      assert SameRows(p.rows[k := p.rows[k].(status := status, evidence := evidence)],
                      ms[k := ms[k].(status := status, evidence := evidence)]);
    }
  }

  /** Moves that write nothing of the row but its send counter. */
  lemma QuietLinks(b: Both, i: ItemId, p: M.Protocol)
    requires Linked(b, i) && i in b.tables.jobs && p.workers.Keys == b.protocol.workers.Keys
    requires p.token == b.protocol.token && p.live == b.protocol.live && SameRows(p.rows, b.tables.jobs[i].mutations)
    ensures Linked(b.(protocol := p), i)
  {}

  /** A mark in the protocol is the same mark in the shop, or none in either. */
  lemma WishedMark(b: Both, i: ItemId, t: nat, k: nat, status: MutationStatus, evidence: Option<Fresh>, next: M.Phase)
    requires Linked(b, i) && i in b.tables.jobs && t in b.owners && t in b.protocol.workers
    requires MarkStep(b.protocol, Claim(i, b.owners[t], t), t) == Some(Step.Mark(Claim(i, b.owners[t], t), k, status, evidence))
    requires M.MarkOf(b.protocol, t, b.protocol.workers[t]) == M.Marked(b.protocol, t, k, status, evidence, next)
    ensures Linked(Turned(b, i, OfWorker(M.Mark(t))), i)
  {
    MarkedLinks(b, i, t, k, status, evidence, next);
  }

  lemma JudgeLinks(b: Both, i: ItemId, t: nat)
    requires Linked(b, i) && i in b.tables.jobs && t in b.owners && t in b.protocol.workers
    requires b.protocol.workers[t].FirstJudge? || b.protocol.workers[t].SecondJudge?
    ensures Linked(Turned(b, i, OfWorker(M.Mark(t))), i)
  {
    var p, w := b.protocol, b.protocol.workers[t];
    var k := w.row;
    if k < |p.rows| {
      if w.read.None? { WishedMark(b, i, t, k, Uncertain, None, M.Over); }
      else if M.Applied(p.rows[k].kind, p.rows[k].baseline, w.read.value) { WishedMark(b, i, t, k, Verified, w.read, M.Ready); }
      else if w.FirstJudge? { WishedMark(b, i, t, k, if w.unclear then Uncertain else MutationFailed, None, M.SecondSend(k)); }
      else { QuietLinks(b, i, M.At(p, t, M.Over)); }
    }
  }

  lemma MarkLinks(b: Both, i: ItemId, t: nat)
    requires Linked(b, i) && i in b.tables.jobs && t in b.owners && t in b.protocol.workers
    ensures Linked(Turned(b, i, OfWorker(M.Mark(t))), i)
  {
    match b.protocol.workers[t] {
      case FirstMark(k, answer) =>
        match answer {
          case Done => WishedMark(b, i, t, k, Accepted, None, M.FirstRead(k, false));
          case Unclear => WishedMark(b, i, t, k, Uncertain, None, M.FirstRead(k, true));
          case Refused => WishedMark(b, i, t, k, MutationFailed, None, M.Over);
        }
      case FirstJudge(_, _, _) => JudgeLinks(b, i, t);
      case SecondJudge(_, _) => JudgeLinks(b, i, t);
      case _ =>
    }
  }

  lemma SendLinks(b: Both, i: ItemId, t: nat, answer: M.Answer)
    requires Linked(b, i) && i in b.tables.jobs && t in b.owners
    ensures Linked(b.(protocol := M.Do(b.protocol, M.Send(t, answer))), i)
  {
    QuietLinks(b, i, M.Do(b.protocol, M.Send(t, answer)));
  }

  lemma ReadLinks(b: Both, i: ItemId, t: nat, seen: Option<Fresh>)
    requires Linked(b, i) && i in b.tables.jobs && t in b.owners
    ensures Linked(b.(protocol := M.Do(b.protocol, M.Read(t, seen))), i)
  {
    QuietLinks(b, i, M.Do(b.protocol, M.Read(t, seen)));
  }

  lemma MoveLinks(b: Both, i: ItemId, m: M.Move)
    requires Linked(b, i)
    ensures Linked(Turned(b, i, OfWorker(m)), i)
  {
    if !m.Acquire? && !m.LoseLease? && m.worker in b.owners && i in b.tables.jobs {
      match m
      case Begin(t, kind, baseline) =>
        if t in b.protocol.workers && b.protocol.workers[t] == M.Ready { BeginLinks(b, i, t, kind, baseline); }
      case Mark(t) => if t in b.protocol.workers { MarkLinks(b, i, t); }
      case Send(t, answer) => SendLinks(b, i, t, answer);
      case Read(t, seen) => ReadLinks(b, i, t, seen);
    }
  }

  lemma TurnKeeps(b: Both, i: ItemId, a: Act)
    requires Inv(b.tables) && Linked(b, i) && M.ProtocolOk(b.protocol)
    ensures var b' := Turned(b, i, a); Inv(b'.tables) && Linked(b', i) && M.ProtocolOk(b'.protocol)
  {
    match a
    case Elsewhere(step) =>
      if !Writes(step, i) {
        FollowLinks(b, step, i);
        StepGood(b.tables, step);
        FollowKeepsProtocol(b, Apply(b.tables, step), step, i);
      }
    case OfWorker(m) =>
      MoveLinks(b, i, m);
      M.MoveKeeps(b.protocol, m);
      if !m.Acquire? && !m.LoseLease? && m.worker in b.owners {
        var step := StepOf(b.protocol, i, b.owners[m.worker], m);
        if step.Some? { StepGood(b.tables, step.value); }
      }
  }

  lemma FollowKeepsProtocol(b: Both, s': Tables, step: Step, i: ItemId)
    requires M.ProtocolOk(b.protocol)
    ensures M.ProtocolOk(Follow(b, s', step, i).protocol)
  {
    M.MoveKeeps(b.protocol, M.Acquire);
    M.MoveKeeps(M.Do(b.protocol, M.Acquire), M.LoseLease);
    M.MoveKeeps(b.protocol, M.LoseLease);
  }

  lemma {:induction false} TurnsKeep(b: Both, i: ItemId, acts: seq<Act>)
    requires Inv(b.tables) && Linked(b, i) && M.ProtocolOk(b.protocol)
    ensures var b' := AllTurned(b, i, acts); Inv(b'.tables) && Linked(b', i) && M.ProtocolOk(b'.protocol)
    decreases |acts|
  {
    if acts != [] {
      TurnKeeps(b, i, acts[0]);
      TurnsKeep(Turned(b, i, acts[0]), i, acts[1..]);
    }
  }

  // ---------------------------------------------------------------- consequences

  /** What the checkpoint promises, on the rows of the shop. */
  ghost predicate Checkpointed(ms: seq<Mutation>) {
    && (forall k | 0 <= k < |ms| && ms[k].status in {InFlight, Accepted, Uncertain} :: k == |ms| - 1)
    && (forall k | 0 <= k < |ms| && ms[k].status == Verified ::
          ms[k].evidence.Some? && M.HasEffect(ms[k].kind, ms[k].baseline, ms[k].evidence.value))
  }

  /** In every state of the shop that its steps and the workers of a job can reach, from
      an empty shop and in any interleaving, the job has at most one unsettled mutation,
      its last, and a verified one was seen on a fresh read; its protocol says how often
      each was sent. */
  lemma {:induction false} JobIsCheckpointed(promotions: map<PromotionId, Promotion>, i: ItemId, acts: seq<Act>)
    requires TiersOk(promotions)
    ensures var b := AllTurned(Both(Opening(promotions), M.Started, map[]), i, acts);
            i in b.tables.jobs ==>
              && Checkpointed(b.tables.jobs[i].mutations) && SameRows(b.protocol.rows, b.tables.jobs[i].mutations)
              && M.Promises(b.protocol.rows)
  {
    OpeningInv(promotions);
    var start := Both(Opening(promotions), M.Started, map[]);
    assert M.ProtocolOk(M.Started);
    TurnsKeep(start, i, acts);
    var b := AllTurned(start, i, acts);
    if i in b.tables.jobs {
      forall k: nat | k < |b.protocol.rows| ensures SameRow(b.protocol.rows[k], b.tables.jobs[i].mutations[k]) {}
      RowsPromise(b.protocol, b.tables.jobs[i].mutations);
    }
  }

  lemma RowsPromise(p: M.Protocol, ms: seq<Mutation>)
    requires M.ProtocolOk(p) && SameRows(p.rows, ms)
    ensures Checkpointed(ms) && M.Promises(p.rows)
  {
    forall k: nat | k < |ms|
      ensures p.rows[k].number == k + 1 && p.rows[k].sends <= 2
      ensures ms[k].status in {InFlight, Accepted, Uncertain} ==> k == |ms| - 1
      ensures ms[k].status == Verified ==>
                ms[k].evidence.Some? && M.HasEffect(ms[k].kind, ms[k].baseline, ms[k].evidence.value)
    {
      assert M.RowOk(p, k) && SameRow(p.rows[k], ms[k]);
    }
  }

  /** These are runs of the shop like any other. */
  lemma {:induction false} TurnsAreRun(b: Both, i: ItemId, acts: seq<Act>) returns (steps: seq<Step>)
    ensures AllTurned(b, i, acts).tables == Run(b.tables, steps)
    decreases |acts|
  {
    if acts == [] { return []; }
    var first: seq<Step> := TurnSteps(b, i, acts[0]);
    steps := TurnsAreRun(Turned(b, i, acts[0]), i, acts[1..]);
    if first == [] {
    } else {
      assert ([first[0]] + steps)[1..] == steps;
      steps := [first[0]] + steps;
    }
  }

  function TurnSteps(b: Both, i: ItemId, a: Act): (steps: seq<Step>)
    ensures |steps| <= 1
    ensures Turned(b, i, a).tables == if steps == [] then b.tables else Apply(b.tables, steps[0])
  {
    match a
    case Elsewhere(step) => if Writes(step, i) then [] else [step]
    case OfWorker(m) =>
      if m.Acquire? || m.LoseLease? || m.worker !in b.owners then []
      else
        var step := StepOf(b.protocol, i, b.owners[m.worker], m);
        if step.Some? then [step.value] else []
  }
}
