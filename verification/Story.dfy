/** Runs from an empty shop that reach what the other modules speak about: one customer
    orders one quest and gets it, or runs into one of the findings. */
module Story {
  import opened Common
  import opened Ledger
  import opened Schema
  import opened Wallet
  import opened Settlement
  import opened WalletLaws
  import opened Runner
  import opened Recovery
  import opened Payments
  import opened Checkout
  import opened CheckoutLaws
  import opened Machine
  import opened Frames
  import opened Findings
  import opened Lockstep
  import opened PaymentLaws
  import opened Safety
  import opened BlockedQueue
  import opened MaintenanceLaws
  import opened PaymentFates

  const Quest := Line(0, 5, 30, 2)
  const Offers: map<QuestId, Listing> := map[5 := Listing(true, 30, 2, true, 1000, 0)]
  const Cart := Session(Active, 0, 7, 1, 1000, [Quest], None)
  const Buyer := Caller(0, 0, 1)
  const Check := Preflight(7, 0, {5})

  /** One order of one quest is queued, paid for out of a hundred cents. */
  ghost predicate Queued30(s: Tables) {
    && Inv(s) && s.clock == 0 && s.reviews == map[]
    && s.jobs == map[0 := Job(0, Queued, 1, 0, 1000, true, None, 0, 0, [])]
    && s.scheduler == map[0 := Turn(None, 0)]
    && |s.items| == 1 && s.items[0].state == Queued && s.items[0].reservation == Some(Reservation(0, 30, Held, 1))
    && WalletOf(s.bank, 0) == Balance(70, 30)
  }

  // ---------------------------------------------------------------- up to the order

  lemma {:induction false} Afterwards(steps: seq<Step>, step: Step) returns (longer: seq<Step>)
    ensures longer == steps + [step]
    ensures Run(Opening(map[]), longer) == Apply(Run(Opening(map[]), steps), step)
    ensures Inv(Run(Opening(map[]), steps)) && Inv(Run(Opening(map[]), longer))
  {
    longer := steps + [step];
    RunAgain(Opening(map[]), steps, step);
    ReachableInv(map[], steps);
    ReachableInv(map[], longer);
  }

  /** The customer has a hundred cents and a quoted cart. */
  ghost predicate Quoted(s: Tables) {
    && s == Opening(map[]).(bank := s.bank, sessions := map[0 := Cart.(quote := Some(HashOf([Quest], 1)))])
    && WalletOf(s.bank, 0) == Balance(100, 0)
  }

  lemma FirstAdjustment(s: Tables, reason: string)
    requires !Blank(reason) && s.bank == Bank(map[], map[], 0)
    ensures var o := AdjustBalance(s, 0, 100, reason, 0);
            o.Ok? && o.value == s.(bank := o.value.bank) && WalletOf(o.value.bank, 0) == Balance(100, 0)
  {
    FirstPosting(s.bank, 0, AdjustPosting(100, 0), s.clock);
  }

  lemma AdjustStep(s: Tables, u: UserId, amount: int, reason: string, ctx: Context)
    ensures Apply(s, Adjust(u, amount, reason, ctx)) == Settled(AdjustBalance(s, u, amount, reason, ctx), s)
  {}

  lemma FirstCents(s: Tables, reason: string)
    requires !Blank(reason) && s.bank == Bank(map[], map[], 0)
    ensures var s1 := Apply(s, Adjust(0, 100, reason, 0));
            s1 == s.(bank := s1.bank) && WalletOf(s1.bank, 0) == Balance(100, 0)
  {
    FirstAdjustment(s, reason);
    AdjustStep(s, 0, 100, reason, 0);
  }

  lemma CartStep(s: Tables)
    requires s.sessions == map[]
    ensures Apply(s, StartSession(0, Cart)) == s.(sessions := map[0 := Cart])
  {
    assert s.sessions[0 := Cart] == map[0 := Cart];
  }

  lemma {:induction false} OfferTaken()
    ensures QuoteRefusal(Offers, [Quest]) == None && SelectionRefusal({5}, Offers, [Quest]) == None
  {
    assert [Quest][0] == Quest && [Quest][1..] == [];
    assert OfferRefusal(Offers, Quest) == None;
  }

  lemma QuoteStep(s: Tables)
    requires s == Opening(map[]).(bank := s.bank, sessions := map[0 := Cart])
    ensures Apply(s, Quote(Buyer, Offers)) == s.(sessions := map[0 := Cart.(quote := Some(HashOf([Quest], 1)))])
  {
    OfferTaken();
    var quoted := Cart.(quote := Some(HashOf([Quest], 1)));
    assert s.sessions[0 := quoted] == map[0 := quoted];
    assert BuildQuote(s, Buyer, Offers) == Ok(s.(sessions := map[0 := quoted]));
  }

  lemma {:induction false} QuotedReachable(reason: string) returns (steps: seq<Step>)
    requires !Blank(reason)
    ensures Quoted(Run(Opening(map[]), steps)) && Inv(Run(Opening(map[]), steps))
  {
    OpeningInv(map[]);
    steps := Afterwards([], Adjust(0, 100, reason, 0));
    FirstCents(Opening(map[]), reason);
    CartStep(Run(Opening(map[]), steps));
    steps := Afterwards(steps, StartSession(0, Cart));
    QuoteStep(Run(Opening(map[]), steps));
    steps := Afterwards(steps, Quote(Buyer, Offers));
  }

  lemma {:induction false} SubsetFits(a: set<ItemId>, b: set<ItemId>)
    requires a <= b
    ensures |a| <= |b|
  {
    if a != {} {
      var x :| x in a;
      SubsetFits(a - {x}, b - {x});
    }
  }

  lemma QueueFits(jobs: map<ItemId, Job>)
    ensures QueueLength(jobs) <= |jobs|
  {
    SubsetFits(QueuedJobs(jobs), jobs.Keys);
  }

  lemma {:induction false} QuotedIsAdmitted(s: Tables)
    requires Quoted(s)
    ensures Admitted(s, Buyer, Check, false, Offers)
    ensures LinesTotal([Quest]) == 30
  {
    QueueFits(s.jobs);
    OfferTaken();
    assert [Quest][0] == Quest && [Quest][1..] == [];
  }

  lemma ConfirmedJobs(s: Tables, ctx: Context)
    requires Quoted(s) && Inv(s)
    ensures ConfirmOrder(s, Buyer, Check, false, Offers, ctx).Ok?
    ensures Queued30(ConfirmOrder(s, Buyer, Check, false, Offers, ctx).value)
  {
    QuotedIsAdmitted(s);
    ConfirmSucceedsIff(s, Buyer, Check, false, Offers, ctx);
    ConfirmGood(s, Buyer, Check, false, Offers, ctx);
    var s' := ConfirmOrder(s, Buyer, Check, false, Offers, ctx).value;
    assert Charged(s.bank, s'.bank, 0, 30, 0);
    assert s'.jobs == map[0 := Job(0, Queued, 1, 0, 1000, true, None, 0, 0, [])];
  }

  lemma ConfirmStep(s: Tables, ctx: Context)
    ensures Apply(s, Confirm(Buyer, Check, false, Offers, ctx))
            == Settled(ConfirmOrder(s, Buyer, Check, false, Offers, ctx), s)
  {}

  /** A customer's order can be brought into the queue. */
  lemma {:induction false} QueuedReachable(reason: string) returns (steps: seq<Step>)
    requires !Blank(reason)
    ensures Queued30(Run(Opening(map[]), steps))
  {
    steps := QuotedReachable(reason);
    var s := Run(Opening(map[]), steps);
    ConfirmedJobs(s, 1);
    ConfirmStep(s, 1);
    steps := Afterwards(steps, Confirm(Buyer, Check, false, Offers, 1));
  }

  // ---------------------------------------------------------------- the worker's steps

  const Worker := Claim(0, 9, 1)

  /** The job runs under the worker's claim, in this state, with this version. */
  ghost predicate Working(s: Tables, state: Stage, version: nat) {
    && Inv(s) && s.clock == 1 && s.reviews == map[] && s.scheduler == map[0 := Turn(Some(0), 0)]
    && s.jobs == map[0 := Job(0, state, version, 0, 1000, true, Some(Lease(9, 60)), 1, 1, [])]
    && |s.items| == 1 && s.items[0].state == state && s.items[0].reservation == Some(Reservation(0, 30, Held, 1))
    && WalletOf(s.bank, 0) == Balance(70, 30)
  }

  lemma DispatchWorks(s: Tables)
    requires Queued30(s)
    ensures Apply(s, Step.Dispatch(0, 9, 60)).items[0].state == Leased
    ensures Working(Apply(s, Step.Dispatch(0, 9, 60)), Leased, 2)
  {
    StepGood(s, Step.Dispatch(0, 9, 60));
    assert Dispatchable(s, 0);
    assert Acquire(s, 0, 9, 60).Ok?;
  }

  lemma RunWorks(s: Tables)
    requires Working(s, Leased, 2)
    ensures Working(Apply(s, BeginRun(Seen(Worker, Leased, 2))), Running, 3)
  {
    StepGood(s, BeginRun(Seen(Worker, Leased, 2)));
    assert TransitionRunning(s, Seen(Worker, Leased, 2)).Ok?;
  }

  lemma SettlingWorks(s: Tables)
    requires Working(s, Running, 3)
    ensures Working(Apply(s, BeginSettling(Seen(Worker, Running, 3))), Settling, 5)
  {
    StepGood(s, BeginSettling(Seen(Worker, Running, 3)));
    assert TransitionToSettling(s, Seen(Worker, Running, 3)).Ok?;
  }

  /** The item is ready to claim and paid for; its job is still open. */
  ghost predicate Claimable(s: Tables) {
    && Inv(s) && s.clock == 1 && s.reviews == map[] && 0 in s.jobs && |s.items| == 1
    && s.jobs[0].state == Settling && s.jobs[0].version == 5 && s.jobs[0].token == 1 && s.jobs[0].lease == Some(Lease(9, 60))
    && s.items[0].state == ReadyToClaim && HasReservation(s, 0)
    && s.items[0].reservation.value.state == ReservationState.Captured
    && WalletOf(s.bank, 0) == Balance(70, 0)
  }

  lemma SettledRow(s: Tables)
    requires Working(s, Settling, 5) && CaptureReservation(s, 0, Some(Worker), 2).Ok?
    ensures var s' := CaptureReservation(s, 0, Some(Worker), 2).value;
            HasReservation(s', 0) && s'.items[0].reservation.value.state == ReservationState.Captured
  {}

  lemma CaptureStep(s: Tables, c: Claim, ctx: Context)
    ensures Apply(s, CaptureItem(c, ctx)) == Settled(CaptureReservation(s, c.job, Some(c), ctx), s)
  {}

  lemma CaptureWorks(s: Tables)
    requires Working(s, Settling, 5)
    ensures Claimable(Apply(s, CaptureItem(Worker, 2)))
  {
    StepGood(s, CaptureItem(Worker, 2));
    CaptureStep(s, Worker, 2);
    AllAspects(s);
    CaptureSucceeds(s, 0, Some(Worker), 2);
    CaptureEffect(s, 0, Some(Worker), 2);
    SettledRow(s);
  }

  lemma {:induction false} LeasedReachable(reason: string) returns (steps: seq<Step>)
    requires !Blank(reason)
    ensures Working(Run(Opening(map[]), steps), Leased, 2)
  {
    steps := QueuedReachable(reason);
    DispatchWorks(Run(Opening(map[]), steps));
    steps := Afterwards(steps, Step.Dispatch(0, 9, 60));
  }

  lemma {:induction false} ClaimableReachable(reason: string) returns (steps: seq<Step>)
    requires !Blank(reason)
    ensures Claimable(Run(Opening(map[]), steps))
  {
    steps := LeasedReachable(reason);
    RunWorks(Run(Opening(map[]), steps));
    steps := Afterwards(steps, BeginRun(Seen(Worker, Leased, 2)));
    SettlingWorks(Run(Opening(map[]), steps));
    steps := Afterwards(steps, BeginSettling(Seen(Worker, Running, 3)));
    CaptureWorks(Run(Opening(map[]), steps));
    steps := Afterwards(steps, CaptureItem(Worker, 2));
  }

  // ---------------------------------------------------------------- how it ends

  /** The ordinary end: the item is ready to claim, its job completed, seventy cents are
      left and none reserved. */
  lemma {:induction false} OrderFulfilled(reason: string) returns (steps: seq<Step>)
    requires !Blank(reason)
    ensures var s := Run(Opening(map[]), steps);
            && ItemIn(s, 0, ReadyToClaim) && 0 in s.jobs && s.jobs[0].state == Completed
            && WalletOf(s.bank, 0) == Balance(70, 0)
  {
    steps := ClaimableReachable(reason);
    CompletesNow(Run(Opening(map[]), steps));
    steps := Afterwards(steps, Complete(Seen(Worker, Settling, 5)));
  }

  lemma CompletesNow(s: Tables)
    requires Claimable(s)
    ensures var s' := Apply(s, Complete(Seen(Worker, Settling, 5)));
            s'.items == s.items && s'.bank == s.bank && 0 in s'.jobs && s'.jobs[0].state == Completed
  {
    assert CompleteJob(s, Seen(Worker, Settling, 5)).Ok?;
  }

  /** A terminal item is reopened: a move to manual review comes between capture and
      completion. A CAPTURE decision then leaves it SETTLING, with its job completed. */
  lemma {:induction false} CapturedItemStranded(reason: string) returns (steps: seq<Step>)
    requires !Blank(reason)
    ensures var s := Run(Opening(map[]), steps);
            var s1 := Apply(s, ToReview(0));
            var s2 := Apply(s1, Step.Resolve(ItemCase(0, CaptureIt), reason, true, None, 3));
            && ItemIn(s, 0, ReadyToClaim) && ItemIn(s1, 0, ManualReview)
            && ItemIn(s2, 0, Settling) && 0 in s2.jobs && s2.jobs[0].state == Completed
  {
    steps := ClaimableReachable(reason);
    var s := Run(Opening(map[]), steps);
    ReviewOpens(s);
    StepGood(s, ToReview(0));
    DecisionStrands(Apply(s, ToReview(0)), reason);
  }

  lemma ReviewOpens(s: Tables)
    requires Claimable(s)
    ensures var s1 := Apply(s, ToReview(0));
            && ItemIn(s1, 0, ManualReview) && ItemSubject(0) in s1.reviews && !s1.reviews[ItemSubject(0)].ownerOnly
            && s1.items[0].reservation == s.items[0].reservation && 0 in s1.jobs && s1.jobs[0].state == ManualReview
  {}

  /** Capturing captured cents again is accepted and changes nothing. */
  lemma CaptureAgain(s: Tables, i: ItemId, ctx: Context)
    requires ItemIn(s, i, ManualReview) && HasReservation(s, i)
    requires s.items[i].reservation.value.state == ReservationState.Captured
    ensures DecideItem(s, i, CaptureIt, ctx).Ok?
  {
    assert CaptureReservation(SettlingForCapture(s, i), i, None, ctx) == Ok(SettlingForCapture(s, i));
  }

  /** An administrator's decision on an open review goes through if its effect does. */
  lemma ResolveStep(s: Tables, i: ItemId, d: ItemDecision, reason: string, ctx: Context)
    requires ItemSubject(i) in s.reviews && !Blank(reason) && DecideItem(s, i, d, ctx).Ok?
    ensures var s2 := Apply(s, Step.Resolve(ItemCase(i, d), reason, true, None, ctx));
            s2 == DecideItem(s, i, d, ctx).value.(reviews := s2.reviews)
  {
    ResolvedItem(s, i, d, reason, ctx);
    ResolveIsStep(s, ItemCase(i, d), reason, true, None, ctx);
  }

  lemma ResolveIsStep(s: Tables, d: Decision, reason: string, isOwner: bool, expected: Option<nat>, ctx: Context)
    ensures Apply(s, Step.Resolve(d, reason, isOwner, expected, ctx))
            == Settled(ResolveReview(s, d, reason, isOwner, expected, ctx), s)
  {}

  lemma ResolvedItem(s: Tables, i: ItemId, d: ItemDecision, reason: string, ctx: Context)
    requires ItemSubject(i) in s.reviews && !Blank(reason) && DecideItem(s, i, d, ctx).Ok?
    ensures var decided := DecideItem(s, i, d, ctx).value;
            ResolveReview(s, ItemCase(i, d), reason, true, None, ctx)
            == Ok(decided.(reviews := decided.reviews - {ItemSubject(i)}))
  {}

  lemma DecisionStrands(s: Tables, reason: string)
    requires Inv(s) && ItemIn(s, 0, ManualReview) && ItemSubject(0) in s.reviews && !Blank(reason)
    requires HasReservation(s, 0) && s.items[0].reservation.value.state == ReservationState.Captured
    requires 0 in s.jobs && s.jobs[0].state == ManualReview
    ensures var s2 := Apply(s, Step.Resolve(ItemCase(0, CaptureIt), reason, true, None, 3));
            ItemIn(s2, 0, Settling) && 0 in s2.jobs && s2.jobs[0].state == Completed
  {
    CaptureAgain(s, 0, 3);
    CaptureDecisionStrandsIff(s, 0, 3);
    ResolveStep(s, 0, CaptureIt, reason, 3);
  }

  /** A business failure before the run: the worker's release is refused. */
  lemma {:induction false} EarlyFailureRefused(reason: string, ctx: Context) returns (steps: seq<Step>)
    requires !Blank(reason)
    ensures var s := Run(Opening(map[]), steps);
            Owns(s, Worker) && Try(s, ReleaseItem(0, FailedReleased, Some(Worker), ctx)) == Err(IllegalTransition)
  {
    steps := LeasedReachable(reason);
    FailedReleaseIff(Run(Opening(map[]), steps), Worker, ctx);
  }

  // ---------------------------------------------------------------- the queue is blocked

  /** The quest had been completed elsewhere: the item is released, its job still LEASED. */
  ghost predicate ReleasedEarly(s: Tables) {
    && Inv(s) && s.clock == 1 && s.scheduler == map[0 := Turn(Some(0), 0)]
    && s.jobs == map[0 := Job(0, Leased, 2, 0, 1000, true, Some(Lease(9, 60)), 1, 1, [])]
    && ItemIn(s, 0, ExternalCompletedReleased)
  }

  lemma ReleaseStep(s: Tables, i: ItemId, terminal: Stage, c: Claim, ctx: Context)
    ensures Apply(s, ReleaseItem(i, terminal, Some(c), ctx)) == Settled(ReleaseReservation(s, i, terminal, Some(c), ctx), s)
  {}

  lemma ReleaseWorks(s: Tables)
    requires Working(s, Leased, 2)
    ensures ReleasedEarly(Apply(s, ReleaseItem(0, ExternalCompletedReleased, Some(Worker), 2)))
  {
    StepGood(s, ReleaseItem(0, ExternalCompletedReleased, Some(Worker), 2));
    ReleaseStep(s, 0, ExternalCompletedReleased, Worker, 2);
    AllAspects(s);
    ReservedCoversItem(s, 0);
    assert ReleaseReservation(s, 0, ExternalCompletedReleased, Some(Worker), 2).Ok?;
    ReleaseEffect(s, 0, ExternalCompletedReleased, Some(Worker), 2);
  }

  /** The pass takes the job from LEASED to QUEUED and leaves its item released. */
  lemma PassRequeues(s: Tables, s': Tables)
    requires s.jobs == map[0 := Job(0, Leased, 2, 0, 1000, true, Some(Lease(9, 60)), 1, 1, [])]
    requires ItemIn(s, 0, ExternalCompletedReleased) && s'.jobs.Keys == s.jobs.Keys && |s'.items| == |s.items|
    requires RowsOf(s', 0) == Pass(RowsOf(s, 0), 60)
    ensures s'.jobs == map[0 := Job(0, Queued, 3, 60, 1000, true, None, 1, 1, [])] && ItemIn(s', 0, ExternalCompletedReleased)
  {
    RowsRequeued(RowsOf(s, 0));
    assert s'.jobs.Keys == {0};
    assert s'.jobs == map[0 := RowsOf(s', 0).job];
  }

  lemma RowsRequeued(r: Rows)
    requires r.job == Job(0, Leased, 2, 0, 1000, true, Some(Lease(9, 60)), 1, 1, [])
    requires r.item.state == ExternalCompletedReleased
    ensures Pass(r, 60).job == Job(0, Queued, 3, 60, 1000, true, None, 1, 1, [])
    ensures Pass(r, 60).item.state == ExternalCompletedReleased
  {}

  lemma RequeuedBlocks(s: Tables)
    requires s.jobs == map[0 := Job(0, Queued, 3, 60, 1000, true, None, 1, 1, [])] && s.clock == 60
    requires s.scheduler == map[0 := Turn(Some(0), 0)] && ItemIn(s, 0, ExternalCompletedReleased)
    ensures Blocked(s, 0)
  {}

  lemma LateBlocked(s: Tables)
    requires ReleasedEarly(s)
    ensures Blocked(Apply(Apply(s, Tick(59)), Maintain), 0)
  {
    var late := s.(clock := 60);
    assert Apply(s, Tick(59)) == late;
    PassFrame(late);
    PassAt(late, 0);
    PassRequeues(late, MaintenancePass(late));
    RequeuedBlocks(MaintenancePass(late));
    MaintainStep(late);
  }

  lemma MaintainStep(s: Tables)
    ensures Apply(s, Maintain) == MaintenancePass(s)
  {}

  /** The worker dies between releasing the item and failing the job: once its lease has
      run out, maintenance queues the job again, and it blocks the queue. */
  lemma {:induction false} QueueBlocked(reason: string) returns (steps: seq<Step>)
    requires !Blank(reason)
    ensures Inv(Run(Opening(map[]), steps)) && Blocked(Run(Opening(map[]), steps), 0)
  {
    steps := LeasedReachable(reason);
    ReleaseWorks(Run(Opening(map[]), steps));
    steps := Afterwards(steps, ReleaseItem(0, ExternalCompletedReleased, Some(Worker), 2));
    LateBlocked(Run(Opening(map[]), steps));
    steps := Afterwards(steps, Tick(59));
    steps := Afterwards(steps, Maintain);
  }

  // ---------------------------------------------------------------- a payment sent twice

  const Payer := PayClaim(0, 4, 1)

  /** The attempt may have gone out. */
  ghost predicate SentOnce(s: Tables) {
    && |s.topups| == 1 && s.topups[0].token == 1 && s.topups[0].attempts == 1 && s.topups[0].status == Processing
    && s.topups[0].lease == Some(Lease(4, 30)) && s.topups[0].log == map[1 := PossiblySent] && s.topups[0].voucher == 8
    && s.clock == 0
  }

  ghost predicate Claimed(s: Tables) {
    && |s.topups| == 1 && s.topups[0].token == 1 && s.topups[0].attempts == 1 && s.topups[0].status == Processing
    && s.topups[0].lease == Some(Lease(4, 30)) && s.topups[0].log == map[] && s.topups[0].voucher == 8 && s.clock == 0
  }

  lemma PaymentClaimed(s: Tables)
    requires s == Opening(map[])
    ensures Claimed(Apply(Apply(s, Submit(0, 8, false, true, None)), ClaimPayment(0, 4, 30)))
  {}

  lemma PaymentSent(s: Tables)
    requires Claimed(s)
    ensures SentOnce(Apply(Apply(s, Step.RecordAttempt(Payer)), Step.MarkSent(Payer)))
  {}

  lemma RateLimitedNow(s: Tables)
    requires SentOnce(s)
    ensures Parked(s, 0) && LatestMaybePaid(s.topups[0])
    ensures var s' := Apply(s, Answer(Payer, SaysRateLimited, 0)); |s'.topups| == 1 && s'.topups[0].status == RetryWait
  {}

  lemma {:induction false} ClaimedReachable() returns (steps: seq<Step>)
    ensures Claimed(Run(Opening(map[]), steps))
  {
    PaymentClaimed(Opening(map[]));
    steps := [];
    assert Run(Opening(map[]), steps) == Opening(map[]);
    steps := AfterTwo(steps, Submit(0, 8, false, true, None), ClaimPayment(0, 4, 30));
  }

  lemma {:induction false} AfterTwo(steps: seq<Step>, first: Step, second: Step) returns (longer: seq<Step>)
    ensures Run(Opening(map[]), longer) == Apply(Apply(Run(Opening(map[]), steps), first), second)
  {
    longer := Afterwards(steps, first);
    longer := Afterwards(longer, second);
  }

  /** A payment that may have gone out is put back into the queue by RATE_LIMIT. */
  lemma {:induction false} PaymentRateLimited() returns (steps: seq<Step>)
    ensures var s := Run(Opening(map[]), steps);
            && Parked(s, 0) && LatestMaybePaid(s.topups[0])
            && var s' := Apply(s, Answer(Payer, SaysRateLimited, 0));
            && |s'.topups| == 1 && s'.topups[0].status == RetryWait
  {
    steps := ClaimedReachable();
    PaymentSent(Run(Opening(map[]), steps));
    steps := AfterTwo(steps, Step.RecordAttempt(Payer), Step.MarkSent(Payer));
    RateLimitedNow(Run(Opening(map[]), steps));
  }

  // ---------------------------------------------------------------- redeemed, and failed

  const Second := PayClaim(1, 4, 1)

  /** A first voucher was redeemed under the provider's id, and a second one has gone
      out. */
  ghost predicate SentAgain(s: Tables, provider: string) {
    && |s.topups| == 2 && s.topups[0].provider == Some(provider) && s.clock == 0
    && s.topups[1].token == 1 && s.topups[1].attempts == 1 && s.topups[1].status == Processing
    && s.topups[1].lease == Some(Lease(4, 30)) && s.topups[1].log == map[1 := PossiblySent]
  }

  ghost predicate RedeemedFirst(s: Tables, provider: string) {
    |s.topups| == 1 && s.topups[0].provider == Some(provider) && s.topups[0].status == Redeemed && s.clock == 0
    && s.topups[0].voucher == 8
  }

  ghost predicate ClaimedSecond(s: Tables, provider: string) {
    && |s.topups| == 2 && s.topups[0].provider == Some(provider) && s.clock == 0
    && s.topups[1].token == 1 && s.topups[1].attempts == 1 && s.topups[1].status == Processing
    && s.topups[1].lease == Some(Lease(4, 30)) && s.topups[1].log == map[]
  }

  lemma FirstRedeemed(s: Tables, amount: nat, provider: string)
    requires SentOnce(s)
    ensures RedeemedFirst(Apply(s, Answer(Payer, SaysRedeemed(amount, Some(provider)), 0)), provider)
  {
    assert RecordResult(s, Payer, SaysRedeemed(amount, Some(provider)), 0).Ok?;
    RecordStep(s, Payer, SaysRedeemed(amount, Some(provider)), 0);
  }

  lemma RecordStep(s: Tables, c: PayClaim, r: Reply, delay: nat)
    requires Plausible(s, c, r)
    ensures Apply(s, Answer(c, r, delay)) == Settled(RecordResult(s, c, r, delay), s)
  {}

  lemma AttemptSteps(s: Tables, c: PayClaim)
    requires Issued(s, c) && CreateAttempt(s, c).Ok?
    ensures var s1 := CreateAttempt(s, c).value;
            Apply(Apply(s, Step.RecordAttempt(c)), Step.MarkSent(c)) == MarkPossiblySent(s1, c)
  {
    assert Apply(s, Step.RecordAttempt(c)) == CreateAttempt(s, c).value;
  }

  lemma SecondQueued(s: Tables, provider: string)
    requires RedeemedFirst(s, provider)
    ensures var s' := Apply(s, Submit(0, 9, false, true, None));
            && |s'.topups| == 2 && s'.topups[0] == s.topups[0] && s'.clock == 0
            && s'.topups[1] == Topup(0, 9, PaymentQueued, None, false, 0, None, None, 0, 0, 0, None, map[])
  {
    assert SubmitVoucher(s, 0, 9, false, true, None).Ok?;
  }

  lemma SecondClaimed(s: Tables, provider: string)
    requires |s.topups| == 2 && s.topups[0].provider == Some(provider) && s.topups[0].status == Redeemed && s.clock == 0
    requires s.topups[1] == Topup(0, 9, PaymentQueued, None, false, 0, None, None, 0, 0, 0, None, map[])
    ensures ClaimedSecond(Apply(s, ClaimPayment(1, 4, 30)), provider)
  {
    assert Payable(s, 1) && !Payable(s, 0);
    assert AcquirePayment(s, 1, 4, 30).Ok?;
  }

  lemma SecondSent(s: Tables, provider: string)
    requires ClaimedSecond(s, provider)
    ensures SentAgain(Apply(Apply(s, Step.RecordAttempt(Second)), Step.MarkSent(Second)), provider)
  {
    AttemptSteps(s, Second);
    var p := s.topups[1];
    assert CreateAttempt(s, Second).value.topups == s.topups[1 := p.(log := map[1 := IntentRecorded])];
    assert map[1 := IntentRecorded][1 := PossiblySent] == map[1 := PossiblySent];
  }

  /** The provider redeems a second voucher under an id it has used before: the result
      cannot be recorded, the failure can, and the spent voucher stays uncredited, with no
      review. */
  lemma {:induction false} SpentVoucherFails(amount: nat, provider: string) returns (steps: seq<Step>)
    ensures var s := Run(Opening(map[]), steps);
            && Inv(s) && OwnsPayment(s, Second) && LatestMaybePaid(s.topups[1])
            && Try(s, Answer(Second, SaysRedeemed(amount, Some(provider)), 0)) == Err(UniqueViolation)
            && var s' := Apply(s, Answer(Second, LocalFailure, 0));
            && |s'.topups| == 2 && s'.topups[1].status == TopupFailed && s'.bank == s.bank && s'.reviews == s.reviews
  {
    steps := ClaimedReachable();
    PaymentSent(Run(Opening(map[]), steps));
    steps := AfterTwo(steps, Step.RecordAttempt(Payer), Step.MarkSent(Payer));
    FirstRedeemed(Run(Opening(map[]), steps), amount, provider);
    steps := Afterwards(steps, Answer(Payer, SaysRedeemed(amount, Some(provider)), 0));
    SecondQueued(Run(Opening(map[]), steps), provider);
    steps := Afterwards(steps, Submit(0, 9, false, true, None));
    SecondClaimed(Run(Opening(map[]), steps), provider);
    steps := Afterwards(steps, ClaimPayment(1, 4, 30));
    SecondSent(Run(Opening(map[]), steps), provider);
    steps := AfterTwo(steps, Step.RecordAttempt(Second), Step.MarkSent(Second));
    ReachableInv(map[], steps);
    SpentNow(Run(Opening(map[]), steps), amount, provider);
  }

  lemma SpentNow(s: Tables, amount: nat, provider: string)
    requires Inv(s) && SentAgain(s, provider)
    ensures OwnsPayment(s, Second) && LatestMaybePaid(s.topups[1])
    ensures Try(s, Answer(Second, SaysRedeemed(amount, Some(provider)), 0)) == Err(UniqueViolation)
    ensures var s' := Apply(s, Answer(Second, LocalFailure, 0));
            |s'.topups| == 2 && s'.topups[1].status == TopupFailed && s'.bank == s.bank && s'.reviews == s.reviews
  {
    assert ProviderUsed(s, 1, provider) by { assert s.topups[0].provider == Some(provider); }
    RedeemedButFailed(s, Second, amount, provider, 0);
  }
}
