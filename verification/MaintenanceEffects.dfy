/** What a maintenance pass leaves of captured jobs, of payments and of reviews, with states
    and numbers written out; for jobs that expired, crashed or wait see `RunnerEffects`. */
module MaintenanceEffects {
  import opened Common
  import opened Ledger
  import opened Schema
  import opened Wallet
  import opened Runner
  import opened Recovery
  import opened Machine
  import opened Frames
  import opened Lockstep
  import PaymentLaws
  import MaintenanceLaws
  import RunnerEffects

  predicate RanOut(lease: Option<Lease>, now: nat) {
    lease.Some? && lease.value.expires <= now
  }

  /** The job of a captured item is completed, whatever it was doing. */
  lemma CapturedCompletes(s: Tables, i: ItemId)
    requires i in s.jobs && i < |s.items| && s.items[i].state == ReadyToClaim
    ensures i in MaintenancePass(s).jobs && |MaintenancePass(s).items| == |s.items| && MaintenancePass(s).items[i] == s.items[i]
    ensures var j, j' := s.jobs[i], MaintenancePass(s).jobs[i];
            if j.state == Completed then j' == j
            else if j.state == Leased && RanOut(j.lease, s.clock)
            then j' == j.(state := Completed, lease := None, availableAt := s.clock, version := j.version + 2)
            else j' == j.(state := Completed, lease := None, version := j.version + 1)
  {
    RunnerEffects.PassRows(s, i);
  }

  /** A job that neither ran out of its lease nor waits for a retry, and its item, are left. */
  lemma OthersAreLeft(s: Tables, i: ItemId)
    requires i in s.jobs && i < |s.items| && s.items[i].state != ReadyToClaim
    requires s.jobs[i].state != WaitingRetry
    requires !RanOut(s.jobs[i].lease, s.clock) || s.jobs[i].state !in {Leased, Running, Verifying, Settling}
    ensures i in MaintenancePass(s).jobs && |MaintenancePass(s).items| == |s.items|
    ensures MaintenancePass(s).jobs[i] == s.jobs[i] && MaintenancePass(s).items[i] == s.items[i]
  {
    RunnerEffects.PassRows(s, i);
  }

  // ---------------------------------------------------------------- payments

  /** A payment whose worker is gone. */
  predicate Lost(s: Tables, t: TopupId) {
    t < |s.topups| && s.topups[t].status == Processing && RanOut(s.topups[t].lease, s.clock)
  }

  /** A lost payment goes to its owner, a retry that is due to the queue, and every other
      top-up is left. */
  lemma PaymentsAreRecovered(s: Tables, t: TopupId)
    requires t < |s.topups|
    ensures |MaintenancePass(s).topups| == |s.topups|
    ensures var p, p' := s.topups[t], MaintenancePass(s).topups[t];
            if Lost(s, t) then p' == p.(status := TopupReview, lease := None)
            else if p.status == RetryWait && p.availableAt <= s.clock then p' == p.(status := PaymentQueued)
            else p' == p
  {
    PaymentLaws.BeforePaymentRecovery(s);
    RecoveredAt(RequeueRetries(RecoverCrashed(RecoverExpiredLeases(s))), t);
  }

  lemma RecoveredAt(s: Tables, t: TopupId)
    requires t < |s.topups|
    ensures |RecoverCrashedPayments(s).topups| == |s.topups|
    ensures var p, p' := s.topups[t], RecoverCrashedPayments(s).topups[t];
            if Lost(s, t) then p' == p.(status := TopupReview, lease := None)
            else if p.status == RetryWait && p.availableAt <= s.clock then p' == p.(status := PaymentQueued)
            else p' == p
  {}

  // ---------------------------------------------------------------- reviews

  /** A job whose worker is gone with a mutation that may have been applied, or while it
      settled, and whose item is not captured. */
  predicate LeftOpen(s: Tables, i: ItemId) {
    && i in s.jobs && RanOut(s.jobs[i].lease, s.clock)
    && s.jobs[i].state in {Running, Verifying, Settling} && RunnerEffects.StageFor(s.jobs[i]) == ManualReview
    && !(i < |s.items| && s.items[i].state == ReadyToClaim)
  }

  /** A pass opens a review for each lost payment, for its owner, and for each such job, for
      anyone; it opens no other, and the reviews there were stay as they were. */
  lemma ReviewsAfterPass(s: Tables, x: Subject)
    requires LockstepOk(s)
    ensures var wanted := (x.TopupSubject? && Lost(s, x.topup)) || (x.ItemSubject? && LeftOpen(s, x.item));
            var s' := MaintenancePass(s);
            && (x in s'.reviews <==> x in s.reviews || wanted)
            && (x in s'.reviews ==> s'.reviews[x] == if x in s.reviews then s.reviews[x] else Review(Open, 1, x.TopupSubject?))
  {
    var s1 := RecoverExpiredLeases(s);
    var s2 := RecoverCrashed(s1);
    PaymentLaws.BeforePaymentRecovery(s);
    BeforeRecovery(s);
    ItemReviews(s1, x);
    if x.ItemSubject? { SameBefore(s, x.item); }
    PaymentReviews(RequeueRetries(s2), x);
  }

  lemma BeforeRecovery(s: Tables)
    ensures RecoverExpiredLeases(s).reviews == s.reviews && RecoverExpiredLeases(s).clock == s.clock
    ensures RequeueRetries(s).reviews == s.reviews
  {}

  lemma SameBefore(s: Tables, i: ItemId)
    requires LockstepOk(s)
    ensures var s1 := RecoverExpiredLeases(s); Crashed(s1, i) && NeedsReview(s1, i) <==> LeftOpen(s, i)
  {
    assert LockstepAt(s, i);
    if i in s.jobs {
      MaintenanceLaws.PhasesAt(s, i);
      MaintenanceLaws.PhasesAt(RequeueExpired(s), i);
      BeforeRecovery(s);
      SeenBefore(s, RecoverExpiredLeases(s), i);
    }
  }

  lemma SeenBefore(s: Tables, s1: Tables, i: ItemId)
    requires i in s.jobs && i < |s.items| && i in s1.jobs && i < |s1.items| && s1.clock == s.clock
    requires MaintenanceLaws.RowsOf(s1, i)
             == MaintenanceLaws.CapturedClosed(MaintenanceLaws.Requeued(MaintenanceLaws.RowsOf(s, i), s.clock))
    ensures Crashed(s1, i) && NeedsReview(s1, i) <==> LeftOpen(s, i)
  {
    var r, r1 := MaintenanceLaws.RowsOf(s, i), MaintenanceLaws.RowsOf(s1, i);
    JobBefore(r, r1, s.clock);
    assert r1.job == s1.jobs[i] && r.job == s.jobs[i] && r.item == s.items[i];
    assert NeedsReview(s1, i) <==> RunnerEffects.StageFor(r1.job) == ManualReview;
  }

  lemma JobBefore(r: MaintenanceLaws.Rows, r1: MaintenanceLaws.Rows, now: nat)
    requires r1 == MaintenanceLaws.CapturedClosed(MaintenanceLaws.Requeued(r, now))
    ensures var j, j1 := r.job, r1.job;
            var open := RanOut(j.lease, now) && j.state in {Running, Verifying, Settling} && r.item.state != ReadyToClaim;
            && (RanOut(j1.lease, now) && j1.state in {Running, Verifying, Settling} <==> open) && (open ==> j1 == j)
  {}

  lemma ItemReviews(s: Tables, x: Subject)
    ensures var wanted := x.ItemSubject? && Crashed(s, x.item) && NeedsReview(s, x.item);
            var s' := RecoverCrashed(s);
            && (x in s'.reviews <==> x in s.reviews || wanted)
            && (x in s'.reviews ==> s'.reviews[x] == if x in s.reviews then s.reviews[x] else Review(Open, 1, false))
  {}

  lemma PaymentReviews(s: Tables, x: Subject)
    ensures var wanted := x.TopupSubject? && Lost(s, x.topup);
            var s' := RecoverCrashedPayments(s);
            && (x in s'.reviews <==> x in s.reviews || wanted)
            && (x in s'.reviews ==> s'.reviews[x] == if x in s.reviews then s.reviews[x] else Review(Open, 1, true))
  {}
}
