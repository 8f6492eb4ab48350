/** The dispatch queue is fair: while a user waits with an eligible job, every other
    user is dispatched at most once. */
module FairQueue {
  import opened Common
  import opened Ledger
  import opened Schema
  import opened Wallet
  import opened Runner
  import opened Recovery
  import opened Payments
  import opened Checkout
  import opened Lockstep
  import opened MaintenanceLaws
  import opened MoneySteps
  import opened Machine
  import opened WalletLaws
  import opened CheckoutLaws

  // ---------------------------------------------------------------- a selected user has a job

  predicate RunnableOf(s: Tables, u: UserId, i: ItemId) {
    i in s.jobs && s.jobs[i].user == u && Runnable(s, s.jobs[i])
  }

  lemma {:induction false} EarliestJob(s: Tables, u: UserId, among: set<ItemId>) returns (i: ItemId)
    requires exists k :: k in among && RunnableOf(s, u, k)
    ensures i in among && RunnableOf(s, u, i)
    ensures forall k | k in among && RunnableOf(s, u, k) :: s.jobs[i].availableAt <= s.jobs[k].availableAt
    decreases |among|
  {
    i :| i in among && RunnableOf(s, u, i);
    var rest := among - {i};
    if exists k :: k in rest && RunnableOf(s, u, k) {
      var j := EarliestJob(s, u, rest);
      if s.jobs[j].availableAt <= s.jobs[i].availableAt { i := j; }
    }
  }

  lemma {:induction false} FirstAmong(s: Tables, among: set<UserId>) returns (u: UserId)
    requires exists v :: v in among && Eligible(s, v)
    ensures u in among && Eligible(s, u)
    ensures forall v | v in among && Eligible(s, v) :: Before(s.scheduler[u], s.scheduler[v])
    decreases |among|
  {
    u :| u in among && Eligible(s, u);
    var rest := among - {u};
    if exists v :: v in rest && Eligible(s, v) {
      var w := FirstAmong(s, rest);
      if Before(s.scheduler[w], s.scheduler[u]) { u := w; }
    }
  }

  /** The filter on users and the filter on jobs agree: a first user always has a job
      to dispatch. */
  lemma SelectedUserHasJob(s: Tables, u: UserId) returns (i: ItemId)
    requires FirstUser(s, u)
    ensures Dispatchable(s, i) && s.jobs[i].user == u
  {
    var k :| k in s.jobs && s.jobs[k].user == u && Runnable(s, s.jobs[k]);
    assert RunnableOf(s, u, k);
    i := EarliestJob(s, u, s.jobs.Keys);
    forall k | k in s.jobs && s.jobs[k].user == u && Runnable(s, s.jobs[k])
      ensures s.jobs[i].availableAt <= s.jobs[k].availableAt
    {
      assert k in s.jobs.Keys && RunnableOf(s, u, k);
    }
  }

  /** Something is dispatched exactly when some user is eligible. */
  lemma DispatchableIffEligible(s: Tables)
    ensures (exists i :: Dispatchable(s, i)) <==> (exists u :: Eligible(s, u))
  {
    if u :| Eligible(s, u) {
      assert u in s.scheduler.Keys;
      var v := FirstAmong(s, s.scheduler.Keys);
      var i := SelectedUserHasJob(s, v);
    }
    if i :| Dispatchable(s, i) { assert Eligible(s, s.jobs[i].user); }
  }

  // ---------------------------------------------------------------- turns

  /** Every dispatch recorded so far is in the past. */
  predicate TurnPast(s: Tables, u: UserId) {
    u in s.scheduler && s.scheduler[u].last.Some? ==> s.scheduler[u].last.value < s.clock
  }

  ghost predicate TurnsPast(s: Tables) {
    forall u: UserId :: TurnPast(s, u)
  }

  /** The step is a dispatch of user u that succeeds. */
  predicate Dispatches(s: Tables, step: Step, u: UserId) {
    step.Dispatch? && Try(s, step).Ok? && s.jobs[step.item].user == u
  }

  /** No step but a dispatch of the user himself moves his turn. */
  predicate TurnKept(s: Tables, s': Tables, u: UserId) {
    u in s.scheduler ==> u in s'.scheduler && s'.scheduler[u] == s.scheduler[u]
  }

  /** A user who enters the scheduler has not been dispatched. */
  predicate TurnFresh(s: Tables, s': Tables, u: UserId) {
    u !in s.scheduler && u in s'.scheduler ==> s'.scheduler[u].last.None?
  }

  lemma ConfirmTurns(s: Tables, c: Caller, p: Preflight, blocked: bool, catalogue: map<QuestId, Listing>, ctx: Context,
                     u: UserId)
    requires ConfirmOrder(s, c, p, blocked, catalogue, ctx).Ok?
    ensures var s' := ConfirmOrder(s, c, p, blocked, catalogue, ctx).value;
            TurnKept(s, s', u) && TurnFresh(s, s', u) && s'.clock == s.clock
  {
    ConfirmUnfolds(s, c, p, blocked, catalogue, ctx);
    var lines := s.sessions[c.session].selected;
    ReserveEachFrame(CreateOrder(s, c.actor, p.account, lines, catalogue).value, c.actor, RequestsFor(|s.items|, lines), ctx);
  }

  lemma {:induction false} ReserveEachFrame(s: Tables, u: UserId, rs: seq<Request>, ctx: Context)
    requires ReserveEach(s, u, rs, ctx).Ok?
    ensures var s' := ReserveEach(s, u, rs, ctx).value; s'.scheduler == s.scheduler && s'.clock == s.clock
    decreases |rs|
  {
    if rs != [] { ReserveEachFrame(ReserveOne(s, u, rs[0], ctx).value, u, rs[1..], ctx); }
  }

  lemma ItemDecisionTurns(s: Tables, i: ItemId, d: ItemDecision, ctx: Context)
    requires DecideItem(s, i, d, ctx).Ok?
    ensures DecideItem(s, i, d, ctx).value.scheduler == s.scheduler && DecideItem(s, i, d, ctx).value.clock == s.clock
  {
    match d {
      case Retry =>
      case CaptureIt => CaptureEffect(SettlingForCapture(s, i), i, None, ctx);
      case _ => ReleaseEffect(s, i, ReleaseStage(d), None, ctx);
    }
  }

  lemma TopupDecisionTurns(s: Tables, t: TopupId, d: TopupDecision)
    requires DecideTopup(s, t, d).Ok?
    ensures DecideTopup(s, t, d).value.scheduler == s.scheduler && DecideTopup(s, t, d).value.clock == s.clock
  {}

  /** The step does not take a turn: the scheduler and the clock stay. */
  predicate NoTurn(s: Tables, s': Tables) {
    s'.scheduler == s.scheduler && s'.clock == s.clock
  }

  lemma BalanceTurns(s: Tables, step: Step)
    requires Try(s, step).Ok? && (step.Refund? || step.Adjust? || step.Prune?)
    ensures NoTurn(s, Try(s, step).value)
  {}

  lemma CreditTurns(s: Tables, t: TopupId)
    requires CreditRedeemedTopup(s, t).Ok?
    ensures NoTurn(s, CreditRedeemedTopup(s, t).value)
  {}

  lemma TopupTurns(s: Tables, step: Step)
    requires Try(s, step).Ok? && (step.Credit? || step.Reverse? || step.Maintain?)
    ensures NoTurn(s, Try(s, step).value)
  {
    if step.Maintain? { PassFrame(s); }
    else if step.Reverse? { ReverseEffect(s, step.topup, step.reason); }
    else { CreditTurns(s, step.topup); }
  }

  lemma MoneyTurns(s: Tables, step: Step)
    requires Try(s, step).Ok? && MoneyKind(step)
    ensures NoTurn(s, Try(s, step).value)
  {
    if step.CaptureItem? {
      CaptureEffect(s, step.claim.job, Some(step.claim), step.context);
    } else if step.ReleaseItem? {
      ReleaseEffect(s, step.item, step.terminal, step.fence, step.context);
    } else if step.Resolve? {
      match step.decision
      case ItemCase(i, choice) => ItemDecisionTurns(s, i, choice, step.context);
      case TopupCase(t, verdict) => TopupDecisionTurns(s, t, verdict);
    } else if step.Refund? || step.Adjust? || step.Prune? {
      BalanceTurns(s, step);
    } else {
      TopupTurns(s, step);
    }
  }

  lemma JobTurns(s: Tables, step: Step)
    requires Try(s, step).Ok?
    requires step.Heartbeat? || step.BeginRun? || step.BeginSettling? || step.Complete? || step.FailItem? || step.Prepare?
             || step.Mark?
    ensures NoTurn(s, Try(s, step).value)
  {}

  lemma RowTurns(s: Tables, step: Step)
    requires Try(s, step).Ok? && (step.Materialize? || step.OpenItemReview?)
    ensures NoTurn(s, Try(s, step).value)
  {
    if step.Materialize? { MaterializeTurns(s, step.order); }
    else { ReviewTurns(s, step.item, step.reason, step.ownerOnly); }
  }

  lemma ReviewTurns(s: Tables, i: ItemId, reason: string, ownerOnly: bool)
    requires OpenOrderItemReview(s, i, reason, ownerOnly).Ok?
    ensures NoTurn(s, OpenOrderItemReview(s, i, reason, ownerOnly).value)
  {}

  lemma MaterializeTurns(s: Tables, o: OrderId)
    requires MaterializeNext(s, o).Ok?
    ensures NoTurn(s, MaterializeNext(s, o).value)
  {}

  lemma RunnerTurns(s: Tables, step: Step)
    requires Try(s, step).Ok? && RunnerKind(step) && !step.Dispatch?
    ensures NoTurn(s, Try(s, step).value)
  {
    if step.Heartbeat? || step.BeginRun? || step.BeginSettling? || step.Complete? || step.FailItem? || step.Prepare?
       || step.Mark? {
      JobTurns(s, step);
    } else if step.Materialize? || step.OpenItemReview? {
      RowTurns(s, step);
    }
  }

  lemma PaymentTurns(s: Tables, step: Step)
    requires Try(s, step).Ok? && PaymentKind(step)
    ensures var s' := Try(s, step).value; s'.scheduler == s.scheduler && s'.clock == s.clock
  {}

  lemma StepTurns(s: Tables, step: Step, u: UserId)
    ensures var s' := Apply(s, step);
            && s.clock <= s'.clock && (Dispatches(s, step, u) || TurnKept(s, s', u)) && TurnFresh(s, s', u)
  {
    if Try(s, step).Ok? {
      if MoneyKind(step) { MoneyTurns(s, step); }
      else if RunnerKind(step) && !step.Dispatch? { RunnerTurns(s, step); }
      else if PaymentKind(step) { PaymentTurns(s, step); }
      else if step.Confirm? {
        ConfirmTurns(s, step.caller, step.preflight, step.blocked, step.catalogue, step.context, u);
      }
    }
  }

  lemma StepKeepsTurnsPast(s: Tables, step: Step)
    requires TurnsPast(s)
    ensures TurnsPast(Apply(s, step))
  {
    forall u: UserId ensures TurnPast(Apply(s, step), u) {
      StepTurns(s, step, u);
      assert TurnPast(s, u);
    }
  }

  /** In every reachable state, since a new shop has dispatched nobody. */
  lemma {:induction false} RunKeepsTurnsPast(s: Tables, steps: seq<Step>)
    requires TurnsPast(s)
    ensures TurnsPast(Run(s, steps))
    decreases |steps|
  {
    if steps != [] {
      StepKeepsTurnsPast(s, steps[0]);
      RunKeepsTurnsPast(Apply(s, steps[0]), steps[1..]);
    }
  }

  // ---------------------------------------------------------------- bounded bypass

  /** The users dispatched in a run, in order. */
  function Dispatched(s: Tables, steps: seq<Step>): seq<UserId>
    decreases |steps|
  {
    if steps == [] then []
    else
      (if steps[0].Dispatch? && Try(s, steps[0]).Ok? then [s.jobs[steps[0].item].user] else [])
      + Dispatched(Apply(s, steps[0]), steps[1..])
  }

  /** User u has an eligible job all along the run and is not dispatched in it. */
  predicate Waits(s: Tables, steps: seq<Step>, u: UserId)
    decreases |steps|
  {
    steps != [] ==> Eligible(s, u) && !Dispatches(s, steps[0], u) && Waits(Apply(s, steps[0]), steps[1..], u)
  }

  /** User v's turn comes after u's. */
  predicate Behind(s: Tables, v: UserId, u: UserId) {
    u in s.scheduler && v in s.scheduler && !Before(s.scheduler[v], s.scheduler[u])
  }

  lemma {:induction false} BehindIsNotDispatched(s: Tables, steps: seq<Step>, v: UserId, u: UserId)
    requires Behind(s, v, u) && Waits(s, steps, u)
    ensures v !in Dispatched(s, steps)
    decreases |steps|
  {
    if steps != [] {
      StepTurns(s, steps[0], u);
      StepTurns(s, steps[0], v);
      BehindIsNotDispatched(Apply(s, steps[0]), steps[1..], v, u);
    }
  }

  lemma DispatchedGoesBehind(s: Tables, step: Step, v: UserId, u: UserId)
    requires TurnsPast(s) && Dispatches(s, step, v) && u != v && u in s.scheduler
    ensures Behind(Apply(s, step), v, u)
  {
    assert TurnPast(s, u);
  }

  predicate Distinct(us: seq<UserId>) {
    forall i, j | 0 <= i < j < |us| :: us[i] != us[j]
  }

  /** While u waits, no user is dispatched twice. */
  lemma {:induction false} NobodyOvertakesTwice(s: Tables, steps: seq<Step>, u: UserId)
    requires TurnsPast(s) && Waits(s, steps, u)
    ensures Distinct(Dispatched(s, steps)) && u !in Dispatched(s, steps)
    ensures forall v | v in Dispatched(s, steps) :: v in Run(s, steps).scheduler
    decreases |steps|
  {
    if steps != [] {
      var s' := Apply(s, steps[0]);
      StepKeepsTurnsPast(s, steps[0]);
      NobodyOvertakesTwice(s', steps[1..], u);
      if steps[0].Dispatch? && Try(s, steps[0]).Ok? {
        var v := s.jobs[steps[0].item].user;
        assert Dispatches(s, steps[0], v);
        DispatchedGoesBehind(s, steps[0], v, u);
        BehindIsNotDispatched(s', steps[1..], v, u);
        StaysScheduled(s', steps[1..], v);
      }
    }
  }

  lemma {:induction false} StaysScheduled(s: Tables, steps: seq<Step>, v: UserId)
    requires v in s.scheduler
    ensures v in Run(s, steps).scheduler
    decreases |steps|
  {
    if steps != [] {
      StepTurns(s, steps[0], v);
      StaysScheduled(Apply(s, steps[0]), steps[1..], v);
    }
  }

  lemma {:induction false} DistinctFits(us: seq<UserId>, all: set<UserId>)
    requires Distinct(us) && forall i | 0 <= i < |us| :: us[i] in all
    ensures |us| <= |all|
  {
    if us != [] {
      var n := |us| - 1;
      DistinctFits(us[..n], all - {us[n]});
    }
  }

  /** Bounded bypass: from the moment u has an eligible job until u is dispatched, at
      most as many dispatches happen as there are other users. */
  lemma {:induction false} BoundedBypass(s: Tables, steps: seq<Step>, u: UserId)
    requires TurnsPast(s) && Waits(s, steps, u) && u in s.scheduler
    ensures Distinct(Dispatched(s, steps))
    ensures |Dispatched(s, steps)| < |Run(s, steps).scheduler|
  {
    NobodyOvertakesTwice(s, steps, u);
    StaysScheduled(s, steps, u);
    var all := Run(s, steps).scheduler.Keys;
    DistinctFits(Dispatched(s, steps), all - {u});
    assert |all - {u}| == |all| - 1;
  }
}
