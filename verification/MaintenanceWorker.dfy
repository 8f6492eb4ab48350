/** The maintenance transaction as it runs: each phase selects its rows and then writes
    them one by one. */
module MaintenanceWorker {
  import opened Common
  import opened Ledger
  import opened Schema
  import opened Wallet
  import opened Runner
  import opened Recovery

  /** The jobs of a phase: those already written, and those still to write, as before. */
  ghost predicate JobsWritten(before: map<ItemId, Job>, after: map<ItemId, Job>, target: map<ItemId, Job>, rest: set<ItemId>) {
    && after.Keys == before.Keys == target.Keys
    && forall i | i in before :: after[i] == if i in rest then before[i] else target[i]
  }

  ghost predicate ItemsWritten(before: seq<Item>, after: seq<Item>, target: seq<Item>, rest: set<ItemId>) {
    && |after| == |before| == |target|
    && forall i | 0 <= i < |before| :: after[i] == if i in rest then before[i] else target[i]
  }

  lemma JobWritten(before: map<ItemId, Job>, after: map<ItemId, Job>, target: map<ItemId, Job>, rest: set<ItemId>, i: ItemId)
    requires JobsWritten(before, after, target, rest) && i in rest && i in before
    ensures JobsWritten(before, after[i := target[i]], target, rest - {i})
  {}

  lemma ItemWritten(before: seq<Item>, after: seq<Item>, target: seq<Item>, rest: set<ItemId>, i: ItemId, after': seq<Item>)
    requires ItemsWritten(before, after, target, rest) && i in rest
    requires after' == if i < |after| then after[i := target[i]] else after
    ensures ItemsWritten(before, after', target, rest - {i})
  {}

  // ---------------------------------------------------------------- the phases

  /** Where this phase takes the rows of item i. */
  ghost predicate RequeueTarget(s: Tables, end: Tables, i: ItemId)
    requires i in s.jobs
  {
    && i in end.jobs && |end.items| == |s.items|
    && end.jobs[i] == s.jobs[i].(state := Queued, lease := None, availableAt := s.clock, version := s.jobs[i].version + 1)
    && (i < |s.items| ==> end.items[i] == if s.items[i].state == Leased then s.items[i].(state := Queued) else s.items[i])
  }

  lemma RequeueTargets(s: Tables, i: ItemId)
    requires ExpiredBeforeRun(s, i)
    ensures RequeueTarget(s, RequeueExpired(s), i)
  {}

  method RequeueRow(db: Database, i: ItemId, ghost s: Tables, ghost end: Tables, ghost rest: set<ItemId>)
    requires i in rest && ExpiredBeforeRun(s, i) && RequeueTarget(s, end, i) && db.clock == s.clock
    requires JobsWritten(s.jobs, db.jobs, end.jobs, rest)
    requires ItemsWritten(s.items, db.items, end.items, rest)
    modifies db`jobs, db`items
    ensures JobsWritten(s.jobs, db.jobs, end.jobs, rest - {i})
    ensures ItemsWritten(s.items, db.items, end.items, rest - {i})
  {
    ghost var items := db.items;
    JobWritten(s.jobs, db.jobs, end.jobs, rest, i);
    db.jobs := db.jobs[i := db.jobs[i].(state := Queued, lease := None, availableAt := db.clock,
                                        version := db.jobs[i].version + 1)];
    if i < |db.items| && db.items[i].state == Leased { db.items := db.items[i := db.items[i].(state := Queued)]; }
    ItemWritten(s.items, items, end.items, rest, i, db.items);
  }

  /** First half of `recoverExpiredLeases`. */
  method RequeueExpiredJobs(db: Database)
    modifies db`jobs, db`items
    ensures db.Read() == RequeueExpired(old(db.Read()))
  {
    ghost var s := db.Read();
    ghost var end := RequeueExpired(s);
    var rest: set<ItemId> := set i | i in db.jobs && ExpiredBeforeRun(db.Read(), i);
    while rest != {}
      invariant forall i | i in rest :: ExpiredBeforeRun(s, i)
      invariant JobsWritten(s.jobs, db.jobs, end.jobs, rest) && ItemsWritten(s.items, db.items, end.items, rest)
      decreases |rest|
    {
      var i :| i in rest;
      RequeueTargets(s, i);
      RequeueRow(db, i, s, end, rest);
      rest := rest - {i};
    }
    assert db.jobs == end.jobs;
    assert db.items == end.items;
  }

  /** A job that its captured item has outrun. */
  predicate Outrun(s: Tables, i: ItemId) {
    i in s.jobs && ItemIn(s, i, ReadyToClaim) && s.jobs[i].state != Completed
  }

  lemma OutrunTarget(s: Tables, i: ItemId)
    requires Outrun(s, i)
    ensures i in CompleteCaptured(s).jobs
    ensures CompleteCaptured(s).jobs[i] == s.jobs[i].(state := Completed, lease := None, version := s.jobs[i].version + 1)
  {}

  lemma OutrunStarts(s: Tables, rest: set<ItemId>)
    requires forall i | i in s.jobs :: i in rest <==> Outrun(s, i)
    ensures JobsWritten(s.jobs, s.jobs, CompleteCaptured(s).jobs, rest)
  {}

  /** Second half: one UPDATE, which visits the matching rows in any order. */
  method CompleteCapturedJobs(db: Database)
    modifies db`jobs
    ensures db.Read() == CompleteCaptured(old(db.Read()))
  {
    ghost var s := db.Read();
    ghost var end := CompleteCaptured(s);
    var rest: set<ItemId> := set i | i in db.jobs && Outrun(db.Read(), i);
    OutrunStarts(s, rest);
    while rest != {}
      invariant forall i | i in rest :: Outrun(s, i)
      invariant JobsWritten(s.jobs, db.jobs, end.jobs, rest)
      decreases |rest|
    {
      var i :| i in rest;
      OutrunTarget(s, i);
      JobWritten(s.jobs, db.jobs, end.jobs, rest, i);
      db.jobs := db.jobs[i := db.jobs[i].(state := Completed, lease := None, version := db.jobs[i].version + 1)];
      rest := rest - {i};
    }
    assert db.jobs == end.jobs;
  }

  /** The reviews of a phase: those there were, and one for every row written that needs
      a person. */
  ghost predicate ReviewsWritten(before: map<Subject, Review>, after: map<Subject, Review>, target: map<Subject, Review>,
                                 rest: set<ItemId>)
  {
    && before.Keys <= after.Keys <= target.Keys
    && (forall x | x in after :: after[x] == target[x])
    && (forall x | x in target && x !in after :: x.ItemSubject? && x.item in rest)
  }

  lemma ReviewWritten(before: map<Subject, Review>, after: map<Subject, Review>, target: map<Subject, Review>,
                      rest: set<ItemId>, i: ItemId, after': map<Subject, Review>)
    requires ReviewsWritten(before, after, target, rest)
    requires ItemSubject(i) in target ==> after' == after[ItemSubject(i) := target[ItemSubject(i)]]
    requires ItemSubject(i) !in target ==> after' == after
    ensures ReviewsWritten(before, after', target, rest - {i})
  {}

  /** Where this phase takes the rows of item i. */
  ghost predicate RecoverTarget(s: Tables, end: Tables, i: ItemId)
    requires i in s.jobs
  {
    && i in end.jobs && |end.items| == |s.items|
    && end.jobs[i] == s.jobs[i].(state := AfterCrash(s, i), lease := None, availableAt := s.clock + 5,
                                 version := s.jobs[i].version + 1)
    && (i < |s.items| ==> end.items[i] == s.items[i].(state := AfterCrash(s, i)))
    && (NeedsReview(s, i) ==>
          ItemSubject(i) in end.reviews
          && end.reviews[ItemSubject(i)] == if ItemSubject(i) in s.reviews then s.reviews[ItemSubject(i)] else Review(Open, 1, false))
    && (!NeedsReview(s, i) ==> (ItemSubject(i) in end.reviews <==> ItemSubject(i) in s.reviews))
  }

  lemma RecoverTargets(s: Tables, i: ItemId)
    requires Crashed(s, i)
    ensures RecoverTarget(s, RecoverCrashed(s), i)
  {}

  lemma RecoverStarts(s: Tables, rest: set<ItemId>)
    requires forall i | i in s.jobs :: i in rest <==> Crashed(s, i)
    ensures var end := RecoverCrashed(s);
            && JobsWritten(s.jobs, s.jobs, end.jobs, rest) && ItemsWritten(s.items, s.items, end.items, rest)
            && ReviewsWritten(s.reviews, s.reviews, end.reviews, rest)
  {}

  lemma AllWritten(s: Tables, after: Tables, end: Tables)
    requires JobsWritten(s.jobs, after.jobs, end.jobs, {}) && ItemsWritten(s.items, after.items, end.items, {})
    requires ReviewsWritten(s.reviews, after.reviews, end.reviews, {})
    ensures after.jobs == end.jobs && after.items == end.items && after.reviews == end.reviews
  {}

  /** `recoverCrashedRunnerJobs`: which rows need a person is read once, before the loop. */
  method RecoverCrashedJobs(db: Database)
    modifies db`jobs, db`items, db`reviews
    ensures db.Read() == RecoverCrashed(old(db.Read()))
  {
    ghost var s := db.Read();
    ghost var end := RecoverCrashed(s);
    var rest: set<ItemId> := set i | i in db.jobs && Crashed(db.Read(), i);
    var persons: set<ItemId> := set i | i in rest && NeedsReview(db.Read(), i);
    RecoverStarts(s, rest);
    while rest != {}
      invariant forall i | i in rest :: Crashed(s, i) && (i in persons <==> NeedsReview(s, i))
      invariant JobsWritten(s.jobs, db.jobs, end.jobs, rest) && ItemsWritten(s.items, db.items, end.items, rest)
      invariant ReviewsWritten(s.reviews, db.reviews, end.reviews, rest)
      decreases |rest|
    {
      var i :| i in rest;
      RecoverTargets(s, i);
      RecoverRow(db, i, i in persons, s, end, rest);
      rest := rest - {i};
    }
    AllWritten(s, db.Read(), end);
  }

  method RecoverRow(db: Database, i: ItemId, person: bool, ghost s: Tables, ghost end: Tables, ghost rest: set<ItemId>)
    requires i in rest && Crashed(s, i) && RecoverTarget(s, end, i) && (person <==> NeedsReview(s, i)) && db.clock == s.clock
    requires JobsWritten(s.jobs, db.jobs, end.jobs, rest)
    requires ItemsWritten(s.items, db.items, end.items, rest)
    requires ReviewsWritten(s.reviews, db.reviews, end.reviews, rest)
    modifies db`jobs, db`items, db`reviews
    ensures JobsWritten(s.jobs, db.jobs, end.jobs, rest - {i})
    ensures ItemsWritten(s.items, db.items, end.items, rest - {i})
    ensures ReviewsWritten(s.reviews, db.reviews, end.reviews, rest - {i})
  {
    var next := if person then ManualReview else WaitingRetry;
    JobWritten(s.jobs, db.jobs, end.jobs, rest, i);
    db.jobs := db.jobs[i := db.jobs[i].(state := next, lease := None, availableAt := db.clock + 5,
                                        version := db.jobs[i].version + 1)];
    ghost var items := db.items;
    if i < |db.items| { db.items := db.items[i := db.items[i].(state := next)]; }
    ItemWritten(s.items, items, end.items, rest, i, db.items);
    RecoverReview(db, i, person, s, end, rest);
  }

  method RecoverReview(db: Database, i: ItemId, person: bool, ghost s: Tables, ghost end: Tables, ghost rest: set<ItemId>)
    requires i in rest && Crashed(s, i) && RecoverTarget(s, end, i) && (person <==> NeedsReview(s, i))
    requires ReviewsWritten(s.reviews, db.reviews, end.reviews, rest)
    modifies db`reviews
    ensures ReviewsWritten(s.reviews, db.reviews, end.reviews, rest - {i})
  {
    ghost var reviews := db.reviews;
    if person && ItemSubject(i) !in db.reviews { db.reviews := db.reviews[ItemSubject(i) := Review(Open, 1, false)]; }
    if ItemSubject(i) in end.reviews {
      assert db.reviews == reviews[ItemSubject(i) := end.reviews[ItemSubject(i)]];
    }
    ReviewWritten(s.reviews, reviews, end.reviews, rest, i, db.reviews);
  }

  /** Where this phase takes the rows of item i. */
  ghost predicate RetryTarget(s: Tables, end: Tables, i: ItemId)
    requires i in s.jobs
  {
    && i in end.jobs && |end.items| == |s.items|
    && end.jobs[i] == s.jobs[i].(state := Queued, version := s.jobs[i].version + 1)
    && (i < |s.items| ==> end.items[i] == if s.items[i].state == WaitingRetry then s.items[i].(state := Queued) else s.items[i])
  }

  lemma RetryTargets(s: Tables, i: ItemId)
    requires RetryDue(s, i)
    ensures RetryTarget(s, RequeueRetries(s), i)
  {}

  method RetryRow(db: Database, i: ItemId, ghost s: Tables, ghost end: Tables, ghost rest: set<ItemId>)
    requires i in rest && RetryDue(s, i) && RetryTarget(s, end, i)
    requires JobsWritten(s.jobs, db.jobs, end.jobs, rest)
    requires ItemsWritten(s.items, db.items, end.items, rest)
    modifies db`jobs, db`items
    ensures JobsWritten(s.jobs, db.jobs, end.jobs, rest - {i})
    ensures ItemsWritten(s.items, db.items, end.items, rest - {i})
  {
    ghost var items := db.items;
    JobWritten(s.jobs, db.jobs, end.jobs, rest, i);
    db.jobs := db.jobs[i := db.jobs[i].(state := Queued, version := db.jobs[i].version + 1)];
    if i < |db.items| && db.items[i].state == WaitingRetry { db.items := db.items[i := db.items[i].(state := Queued)]; }
    ItemWritten(s.items, items, end.items, rest, i, db.items);
  }

  /** `requeueRetryJobs` */
  method RequeueRetryJobs(db: Database)
    modifies db`jobs, db`items
    ensures db.Read() == RequeueRetries(old(db.Read()))
  {
    ghost var s := db.Read();
    ghost var end := RequeueRetries(s);
    var rest: set<ItemId> := set i | i in db.jobs && RetryDue(db.Read(), i);
    while rest != {}
      invariant forall i | i in rest :: RetryDue(s, i)
      invariant JobsWritten(s.jobs, db.jobs, end.jobs, rest) && ItemsWritten(s.items, db.items, end.items, rest)
      decreases |rest|
    {
      var i :| i in rest;
      RetryTargets(s, i);
      RetryRow(db, i, s, end, rest);
      rest := rest - {i};
    }
    assert db.jobs == end.jobs;
    assert db.items == end.items;
  }

  // ---------------------------------------------------------------- payments

  function PaymentRow(s: Tables, t: TopupId): Topup
    requires t < |s.topups|
  {
    if PaymentCrashed(s, t) then s.topups[t].(status := TopupReview, lease := None)
    else if s.topups[t].status == RetryWait && s.topups[t].availableAt <= s.clock then s.topups[t].(status := PaymentQueued)
    else s.topups[t]
  }

  /** The first `n` top-up rows are written, and their reviews opened. */
  ghost predicate PaymentsWritten(s: Tables, topups: seq<Topup>, n: nat) {
    && |topups| == |s.topups|
    && forall t | 0 <= t < |s.topups| :: topups[t] == if t < n then PaymentRow(s, t) else s.topups[t]
  }

  ghost predicate PaymentReviewsWritten(s: Tables, reviews: map<Subject, Review>, n: nat) {
    && s.reviews.Keys <= reviews.Keys <= RecoverCrashedPayments(s).reviews.Keys
    && (forall x | x in reviews :: reviews[x] == RecoverCrashedPayments(s).reviews[x])
    && (forall x | x in RecoverCrashedPayments(s).reviews && x !in reviews :: x.TopupSubject? && x.topup >= n)
  }

  /** `openReview` */
  method OpenPaymentReview(db: Database, t: TopupId, ghost s: Tables)
    requires PaymentCrashed(s, t) && PaymentReviewsWritten(s, db.reviews, t)
    modifies db`reviews
    ensures PaymentReviewsWritten(s, db.reviews, t + 1)
  {
    assert TopupSubject(t) in RecoverCrashedPayments(s).reviews;
    if TopupSubject(t) !in db.reviews { db.reviews := db.reviews[TopupSubject(t) := Review(Open, 1, true)]; }
  }

  lemma NoPaymentReview(s: Tables, reviews: map<Subject, Review>, t: TopupId)
    requires !PaymentCrashed(s, t) && PaymentReviewsWritten(s, reviews, t)
    ensures PaymentReviewsWritten(s, reviews, t + 1)
  {}

  /** AMBIGUOUS and then MANUAL_REVIEW with its review, or back to the queue. */
  method RecoverPaymentRow(db: Database, t: TopupId, ghost s: Tables)
    requires t < |s.topups| && db.clock == s.clock && PaymentsWritten(s, db.topups, t)
    requires PaymentReviewsWritten(s, db.reviews, t)
    modifies db`topups, db`reviews
    ensures PaymentsWritten(s, db.topups, t + 1) && PaymentReviewsWritten(s, db.reviews, t + 1)
  {
    var row := db.topups[t];
    if row.status == Processing && row.lease.Some? && row.lease.value.expires <= db.clock {
      db.topups := db.topups[t := row.(status := Ambiguous, lease := None)];
      db.topups := db.topups[t := db.topups[t].(status := TopupReview)];
      OpenPaymentReview(db, t, s);
    } else {
      NoPaymentReview(s, db.reviews, t);
      if row.status == RetryWait && row.availableAt <= db.clock {
        db.topups := db.topups[t := row.(status := PaymentQueued)];
      }
    }
  }

  /** `recoverCrashedPayments` */
  method RecoverPayments(db: Database)
    modifies db`topups, db`reviews
    ensures db.Read() == RecoverCrashedPayments(old(db.Read()))
  {
    ghost var s := db.Read();
    var t := 0;
    while t < |db.topups|
      invariant 0 <= t <= |db.topups| && PaymentsWritten(s, db.topups, t) && PaymentReviewsWritten(s, db.reviews, t)
    {
      RecoverPaymentRow(db, t, s);
      t := t + 1;
    }
    assert db.topups == RecoverCrashedPayments(s).topups;
    assert db.reviews == RecoverCrashedPayments(s).reviews;
  }

  // ---------------------------------------------------------------- the transaction

  /** `runTransactionalMaintenance`, as far as it concerns runner and payments: captured
      items are completed before crashed jobs are recovered. */
  method Maintain(db: Database)
    modifies db`jobs, db`items, db`reviews, db`topups
    ensures db.Read() == MaintenancePass(old(db.Read()))
  {
    RequeueExpiredJobs(db);
    CompleteCapturedJobs(db);
    RecoverCrashedJobs(db);
    RequeueRetryJobs(db);
    RecoverPayments(db);
  }
}
