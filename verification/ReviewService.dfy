/** Review decisions as they run: the review is walked through its states, the decision
    is applied, and everything is rolled back together when it is refused. */
module ReviewService {
  import opened Common
  import opened Ledger
  import opened Schema
  import opened Wallet
  import opened Runner
  import opened Recovery
  import WalletService

  /** `applyTopupDecision` */
  method DecideTopupReview(db: Database, t: TopupId, d: TopupDecision) returns (error: Option<Error>)
    modifies db`bank, db`usages, db`topups
    ensures Committed(old(db.Read()), db.Read(), error, DecideTopup(old(db.Read()), t, d))
  {
    if t >= |db.topups| || db.topups[t].status != TopupReview { return Some(StaleState); }
    if d.Reject? {
      db.topups := db.topups[t := db.topups[t].(status := Rejected)];
      return None;
    }
    var topups, topup := db.topups, db.topups[t];
    var amount := if d.amount.Some? then d.amount.value else if topup.amount.Some? then topup.amount.value else 0;
    if amount <= 0 || Blank(d.provider) { return Some(InvalidArgument); }
    if ProviderTaken(db.Read(), t, d.provider) { return Some(UniqueViolation); }
    db.topups := db.topups[t := topup.(status := Redeemed, amount := Some(amount), thb := true, provider := Some(d.provider))];
    error := WalletService.Credit(db, t);
    if error != None { db.topups := topups; }
  }

  /** The CAPTURE branch of `applyOrderItemDecision`. */
  method DecideCapture(db: Database, i: ItemId, ctx: Context) returns (error: Option<Error>)
    requires ItemIn(db.Read(), i, ManualReview)
    modifies db`bank, db`items, db`orders, db`locks, db`jobs
    ensures Committed(old(db.Read()), db.Read(), error, DecideItem(old(db.Read()), i, CaptureIt, ctx))
  {
    var items, jobs := db.items, db.jobs;
    db.items := SetStage(db.items, i, Settling);
    if i in db.jobs && db.jobs[i].state == ManualReview {
      db.jobs := db.jobs[i := db.jobs[i].(state := Settling, lease := None, version := db.jobs[i].version + 1)];
    }
    assert db.Read() == SettlingForCapture(old(db.Read()), i);
    error := WalletService.Capture(db, i, None, ctx);
    if error != None {
      db.items, db.jobs := items, jobs;
    } else if i in db.jobs {
      db.jobs := db.jobs[i := db.jobs[i].(state := Completed, version := db.jobs[i].version + 1)];
    }
  }

  /** The RETRY branch. */
  method DecideRetry(db: Database, i: ItemId, ctx: Context) returns (error: Option<Error>)
    requires ItemIn(db.Read(), i, ManualReview)
    modifies db`items, db`jobs
    ensures Committed(old(db.Read()), db.Read(), error, DecideItem(old(db.Read()), i, Retry, ctx))
  {
    if i !in db.jobs || db.jobs[i].state != ManualReview { return Some(StaleState); }
    db.jobs := db.jobs[i := db.jobs[i].(state := Queued, availableAt := db.clock, lease := None,
                                        version := db.jobs[i].version + 1)];
    db.items := SetStage(db.items, i, Queued);
    error := None;
  }

  /** The job of an item that was given back fails. */
  method CloseJob(db: Database, i: ItemId)
    modifies db`jobs
    ensures db.Read() == ForceFail(old(db.Read()), i)
  {
    if i in db.jobs {
      db.jobs := db.jobs[i := db.jobs[i].(state := Failed, lease := None, version := db.jobs[i].version + 1)];
    }
  }

  lemma ReleaseThenFail(s: Tables, i: ItemId, d: ItemDecision, ctx: Context)
    requires ItemIn(s, i, ManualReview) && d !in {Retry, CaptureIt}
    ensures var released := ReleaseReservation(s, i, ReleaseStage(d), None, ctx);
            DecideItem(s, i, d, ctx) == if released.Err? then released else Ok(ForceFail(released.value, i))
  {}

  /** The branches that release. */
  method DecideRelease(db: Database, i: ItemId, d: ItemDecision, ctx: Context) returns (error: Option<Error>)
    requires ItemIn(db.Read(), i, ManualReview) && d !in {Retry, CaptureIt}
    modifies db`bank, db`items, db`orders, db`locks, db`jobs
    ensures Committed(old(db.Read()), db.Read(), error, DecideItem(old(db.Read()), i, d, ctx))
  {
    ReleaseThenFail(db.Read(), i, d, ctx);
    error := WalletService.Release(db, i, ReleaseStage(d), None, ctx);
    if error == None { CloseJob(db, i); }
  }

  /** `applyOrderItemDecision` */
  method DecideItemReview(db: Database, i: ItemId, d: ItemDecision, ctx: Context) returns (error: Option<Error>)
    modifies db`bank, db`items, db`orders, db`locks, db`jobs
    ensures Committed(old(db.Read()), db.Read(), error, DecideItem(old(db.Read()), i, d, ctx))
  {
    if !ItemIn(db.Read(), i, ManualReview) { return Some(StaleState); }
    match d
    case Retry => error := DecideRetry(db, i, ctx);
    case CaptureIt => error := DecideCapture(db, i, ctx);
    case _ => error := DecideRelease(db, i, d, ctx);
  }

  /** How far a review's state is from being ready for its decision. */
  function StepsLeft(r: ReviewState): nat {
    match r
    case Open => 3
    case Assigned => 2
    case EvidencePending => 1
    case DecisionReady => 0
  }

  /** `resolveReview`: OPEN, ASSIGNED, EVIDENCE_PENDING, DECISION_READY in turn, one
      version each; then the decision; then the review is resolved. */
  method Resolve(db: Database, d: Decision, reason: string, isOwner: bool, expected: Option<nat>, ctx: Context)
    returns (error: Option<Error>, review: Option<Review>)
    modifies db`bank, db`items, db`orders, db`locks, db`jobs, db`usages, db`topups, db`reviews
    ensures Committed(old(db.Read()), db.Read(), error, ResolveReview(old(db.Read()), d, reason, isOwner, expected, ctx))
    ensures error == None ==>
              SubjectOf(d) in old(db.reviews) && review.Some? && review.value.state == DecisionReady
              && review.value.version == old(db.reviews)[SubjectOf(d)].version + StepsLeft(old(db.reviews)[SubjectOf(d)].state)
  {
    var subject := SubjectOf(d);
    review := None;
    if Blank(reason) { return Some(InvalidArgument), None; }
    if subject !in db.reviews { return Some(StaleState), None; }
    var row := db.reviews[subject];
    if expected.Some? && row.version != expected.value { return Some(StaleState), None; }
    if (row.ownerOnly || d.TopupCase?) && !isOwner { return Some(NotAuthorized), None; }
    while row.state != DecisionReady
      invariant row.version + StepsLeft(row.state)
                == db.reviews[subject].version + StepsLeft(db.reviews[subject].state)
      decreases StepsLeft(row.state)
    {
      row := row.(version := row.version + 1,
                  state := if row.state == Open then Assigned
                           else if row.state == Assigned then EvidencePending else DecisionReady);
    }
    if d.ItemCase? { error := DecideItemReview(db, d.item, d.choice, ctx); }
    else { error := DecideTopupReview(db, d.topup, d.verdict); }
    if error == None {
      review := Some(row);
      db.reviews := db.reviews - {subject};
    }
  }
}
