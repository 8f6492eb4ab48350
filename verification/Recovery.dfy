/** The maintenance pass, administrator reviews and review decisions. */
module Recovery {
  import opened Common
  import opened Ledger
  import opened Schema
  import opened Wallet
  import opened Runner

  // ---------------------------------------------------------------- maintenance

  predicate LeaseExpired(s: Tables, j: Job) {
    j.lease.Some? && j.lease.value.expires <= s.clock
  }

  predicate ExpiredBeforeRun(s: Tables, i: ItemId) {
    i in s.jobs && s.jobs[i].state == Leased && LeaseExpired(s, s.jobs[i])
  }

  /** Expired LEASED jobs go back to the queue with their item. */
  function RequeueExpired(s: Tables): Tables {
    s.(jobs := map i | i in s.jobs ::
                 if ExpiredBeforeRun(s, i)
                 then s.jobs[i].(state := Queued, lease := None, availableAt := s.clock, version := s.jobs[i].version + 1)
                 else s.jobs[i],
       items := seq(|s.items|, i requires 0 <= i < |s.items| =>
                 if ExpiredBeforeRun(s, i) && s.items[i].state == Leased then s.items[i].(state := Queued) else s.items[i]))
  }

  /** Jobs whose item is already captured are completed, whatever their state. */
  function CompleteCaptured(s: Tables): Tables {
    s.(jobs := map i | i in s.jobs ::
                 if ItemIn(s, i, ReadyToClaim) && s.jobs[i].state != Completed
                 then s.jobs[i].(state := Completed, lease := None, version := s.jobs[i].version + 1)
                 else s.jobs[i])
  }

  function RecoverExpiredLeases(s: Tables): Tables {
    CompleteCaptured(RequeueExpired(s))
  }

  predicate Crashed(s: Tables, i: ItemId) {
    i in s.jobs && s.jobs[i].state in {Running, Verifying, Settling} && LeaseExpired(s, s.jobs[i])
  }

  /** A crash with an unsettled mutation, or while settling, needs a person. */
  predicate NeedsReview(s: Tables, i: ItemId)
    requires i in s.jobs
  {
    HasUnsettled(s.jobs[i].mutations) || s.jobs[i].state == Settling
  }

  function AfterCrash(s: Tables, i: ItemId): Stage
    requires i in s.jobs
  {
    if NeedsReview(s, i) then ManualReview else WaitingRetry
  }

  predicate NewlyReviewed(s: Tables, i: ItemId) {
    Crashed(s, i) && NeedsReview(s, i) && ItemSubject(i) !in s.reviews
  }

  /** One open review for each of them. */
  function CrashReviews(s: Tables): map<Subject, Review> {
    map i | i in s.jobs && NewlyReviewed(s, i) :: ItemSubject(i) := Review(Open, 1, false)
  }

  function RecoverCrashed(s: Tables): Tables {
    s.(jobs := map i | i in s.jobs ::
                 if Crashed(s, i)
                 then s.jobs[i].(state := AfterCrash(s, i), lease := None, availableAt := s.clock + 5,
                                 version := s.jobs[i].version + 1)
                 else s.jobs[i],
       items := seq(|s.items|, i requires 0 <= i < |s.items| =>
                 if Crashed(s, i) then s.items[i].(state := AfterCrash(s, i)) else s.items[i]),
       reviews := s.reviews + CrashReviews(s))
  }

  predicate RetryDue(s: Tables, i: ItemId) {
    i in s.jobs && s.jobs[i].state == WaitingRetry && s.jobs[i].availableAt <= s.clock
  }

  function RequeueRetries(s: Tables): Tables {
    s.(jobs := map i | i in s.jobs ::
                 if RetryDue(s, i) then s.jobs[i].(state := Queued, version := s.jobs[i].version + 1) else s.jobs[i],
       items := seq(|s.items|, i requires 0 <= i < |s.items| =>
                 if RetryDue(s, i) && s.items[i].state == WaitingRetry then s.items[i].(state := Queued) else s.items[i]))
  }

  /** A payment lease that ran out while PROCESSING may have paid: owner review. */
  predicate PaymentCrashed(s: Tables, t: TopupId) {
    t < |s.topups| && s.topups[t].status == Processing
    && s.topups[t].lease.Some? && s.topups[t].lease.value.expires <= s.clock
  }

  function RecoverCrashedPayments(s: Tables): Tables {
    s.(topups := seq(|s.topups|, t requires 0 <= t < |s.topups| =>
                   if PaymentCrashed(s, t) then s.topups[t].(status := TopupReview, lease := None)
                   else if s.topups[t].status == RetryWait && s.topups[t].availableAt <= s.clock
                   then s.topups[t].(status := PaymentQueued)
                   else s.topups[t]),
       reviews := s.reviews + (map t: TopupId | 0 <= t < |s.topups| && PaymentCrashed(s, t) && TopupSubject(t) !in s.reviews
                                 :: TopupSubject(t) := Review(Open, 1, true)))
  }

  /** The runner and payment part of one maintenance transaction, in its order. */
  function MaintenancePass(s: Tables): Tables {
    RecoverCrashedPayments(RequeueRetries(RecoverCrashed(RecoverExpiredLeases(s))))
  }

  /** After releasing an expired item, maintenance fails its job unconditionally. */
  function ForceFail(s: Tables, i: ItemId): Tables {
    if i !in s.jobs then s
    else WithJob(s, i, s.jobs[i].(state := Failed, lease := None, version := s.jobs[i].version + 1))
  }

  // ---------------------------------------------------------------- reviews

  /** The item goes to review, and so does its job unless that is closed. */
  function ReviewRows(s: Tables, i: ItemId): Tables {
    s.(items := SetStage(s.items, i, ManualReview),
       jobs := if i in s.jobs && s.jobs[i].state !in ClosedJobStates
               then s.jobs[i := s.jobs[i].(state := ManualReview, lease := None, version := s.jobs[i].version + 1)]
               else s.jobs)
  }

  function OpenOrderItemReview(s: Tables, i: ItemId, reason: string, ownerOnly: bool): Outcome<Tables> {
    if Blank(reason) then Err(InvalidArgument)
    else if i >= |s.items| then Err(NotFound)
    else if s.items[i].state == ManualReview
    then Ok(s.(reviews := OpenReview(s.reviews, ItemSubject(i), ownerOnly)))
    else if ManualReview !in ItemTransitions(s.items[i].state) then Err(IllegalTransition)
    else
      Ok(ReviewRows(s, i).(reviews := OpenReview(s.reviews, ItemSubject(i), ownerOnly)))
  }

  datatype ItemDecision = Retry | CaptureIt | ReleaseIt | StopIt | FailIt

  /** RELEASE and FAIL both end as a failed release. */
  function ReleaseStage(d: ItemDecision): Stage {
    if d == StopIt then StoppedReleased else FailedReleased
  }

  /** Before a CAPTURE decision settles, item and job are moved to SETTLING. */
  function SettlingForCapture(s: Tables, i: ItemId): Tables {
    s.(items := SetStage(s.items, i, Settling),
       jobs := if i in s.jobs && s.jobs[i].state == ManualReview
               then s.jobs[i := s.jobs[i].(state := Settling, lease := None, version := s.jobs[i].version + 1)]
               else s.jobs)
  }

  function DecideItem(s: Tables, i: ItemId, d: ItemDecision, ctx: Context): Outcome<Tables> {
    if !ItemIn(s, i, ManualReview) then Err(StaleState)
    else if d == Retry then
      if i !in s.jobs || s.jobs[i].state != ManualReview then Err(StaleState)
      else Ok(WithJob(s, i, s.jobs[i].(state := Queued, availableAt := s.clock, lease := None, version := s.jobs[i].version + 1))
              .(items := SetStage(s.items, i, Queued)))
    else if d == CaptureIt then
      var captured := CaptureReservation(SettlingForCapture(s, i), i, None, ctx);
      if captured.Err? then captured
      else if i !in s.jobs then captured
      else Ok(WithJob(captured.value, i, captured.value.jobs[i].(state := Completed, version := captured.value.jobs[i].version + 1)))
    else
      var released := ReleaseReservation(s, i, ReleaseStage(d), None, ctx);
      if released.Err? then released else Ok(ForceFail(released.value, i))
  }

  datatype TopupDecision = Reject | CreditIt(amount: Option<int>, provider: string)

  predicate ProviderTaken(s: Tables, t: TopupId, provider: string) {
    exists k | 0 <= k < |s.topups| :: k != t && s.topups[k].provider == Some(provider)
  }

  function DecideTopup(s: Tables, t: TopupId, d: TopupDecision): Outcome<Tables> {
    if t >= |s.topups| || s.topups[t].status != TopupReview then Err(StaleState)
    else
      var topup := s.topups[t];
      match d
      case Reject => Ok(s.(topups := s.topups[t := topup.(status := Rejected)]))
      case CreditIt(confirmed, provider) =>
        var amount := if confirmed.Some? then confirmed.value else if topup.amount.Some? then topup.amount.value else 0;
        if amount <= 0 || Blank(provider) then Err(InvalidArgument)
        else if ProviderTaken(s, t, provider) then Err(UniqueViolation)
        else CreditRedeemedTopup(
               s.(topups := s.topups[t := topup.(status := Redeemed, amount := Some(amount), thb := true,
                                                 provider := Some(provider))]), t)
  }

  datatype Decision = ItemCase(item: ItemId, choice: ItemDecision) | TopupCase(topup: TopupId, verdict: TopupDecision)

  function SubjectOf(d: Decision): Subject {
    match d
    case ItemCase(i, _) => ItemSubject(i)
    case TopupCase(t, _) => TopupSubject(t)
  }

  /** `resolveReview` around a decision: the review must be unresolved, at the
      expected version, and decided by the owner when it is the owner's. */
  function ResolveReview(s: Tables, d: Decision, reason: string, isOwner: bool, expected: Option<nat>, ctx: Context)
    : Outcome<Tables>
  {
    var subject := SubjectOf(d);
    if Blank(reason) then Err(InvalidArgument)
    else if subject !in s.reviews then Err(StaleState)
    else if expected.Some? && s.reviews[subject].version != expected.value then Err(StaleState)
    else if (s.reviews[subject].ownerOnly || d.TopupCase?) && !isOwner then Err(NotAuthorized)
    else
      var applied := match d
        case ItemCase(i, choice) => DecideItem(s, i, choice, ctx)
        case TopupCase(t, verdict) => DecideTopup(s, t, verdict);
      if applied.Err? then applied
      else Ok(applied.value.(reviews := applied.value.reviews - {subject}))
  }
}
