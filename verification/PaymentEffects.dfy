/** What each transaction about a top-up is admitted for and what it leaves, with statuses
    and numbers written out, down to the cents that reach the wallet. */
module PaymentEffects {
  import opened Common
  import opened Ledger
  import opened Schema
  import opened Wallet
  import opened Money
  import opened Promotions
  import opened Recovery
  import opened Payments
  import opened Machine
  import opened Frames
  import opened MoneySteps
  import opened PaymentSteps
  import opened Safety

  // ---------------------------------------------------------------- submitting

  /** A voucher is taken in from anyone not blocked while there is a receiver, and a known
      one once only. */
  lemma VoucherSubmitted(s: Tables, u: UserId, voucher: nat, blocked: bool, receiver: bool, promotion: Option<PromotionId>)
    ensures var o := Try(s, Submit(u, voucher, blocked, receiver, promotion));
            var known := exists k | 0 <= k < |s.topups| :: s.topups[k].voucher == voucher;
            && (o.Ok? <==> !blocked && (known || receiver))
            && (o.Ok? && known ==> o.value == s)
            && (o.Ok? && !known ==>
                  o.value == s.(topups := s.topups + [Topup(u, voucher, PaymentQueued, None, false, 0, promotion, None, 0, 0,
                                                            s.clock, None, map[])]))
  {}

  // ---------------------------------------------------------------- a payment's lease

  predicate Waits(s: Tables, t: TopupId) {
    t < |s.topups| && s.topups[t].status == PaymentQueued && s.topups[t].availableAt <= s.clock
  }

  /** The worker's payment: its token, its name, and time left. */
  predicate Paying(s: Tables, c: PayClaim) {
    && c.topup < |s.topups| && s.topups[c.topup].token == c.token && s.topups[c.topup].lease.Some?
    && s.topups[c.topup].lease.value.owner == c.owner && s.clock < s.topups[c.topup].lease.value.expires
  }

  /** The first waiting top-up is claimed: the worker owns it under the next attempt, for
      the whole time to live. */
  lemma {:induction false} PaymentClaimed(s: Tables, t: TopupId, holder: WorkerId, ttl: nat)
    ensures var o := Try(s, ClaimPayment(t, holder, ttl));
            && (o.Ok? <==> Waits(s, t) && forall k: nat | k < t :: !Waits(s, k))
            && (o.Ok? ==>
                  var p := s.topups[t];
                  && o.value == s.(topups := s.topups[t := p.(status := Processing, lease := Some(Lease(holder, s.clock + ttl)),
                                                              token := p.token + 1, attempts := p.attempts + 1)])
                  && (Paying(o.value, PayClaim(t, holder, p.token + 1)) <==> ttl > 0))
  {
    assert forall k: nat :: Waits(s, k) <==> Payable(s, k);
  }

  lemma PaymentRenewed(s: Tables, c: PayClaim, ttl: nat)
    ensures var o := Try(s, RenewPay(c, ttl));
            && (o.Ok? <==> Paying(s, c) && s.topups[c.topup].status == Processing)
            && (o.Ok? ==>
                  && o.value == s.(topups := s.topups[c.topup := s.topups[c.topup].(lease := Some(Lease(c.owner, s.clock + ttl)))])
                  && (Paying(o.value, c) <==> ttl > 0))
  {}

  /** An attempt is recorded once, before anything is sent. */
  lemma AttemptRecorded(s: Tables, c: PayClaim)
    ensures var o := Try(s, Step.RecordAttempt(c));
            && (o.Ok? <==> c.topup < |s.topups| && 0 < c.token <= s.topups[c.topup].token && c.token !in s.topups[c.topup].log)
            && (o.Ok? ==>
                  var p := s.topups[c.topup];
                  o.value == s.(topups := s.topups[c.topup := p.(log := p.log[c.token := IntentRecorded])]))
  {}

  /** Writing the request out marks its intent, and no attempt that is further on. */
  lemma AttemptMarkedSent(s: Tables, c: PayClaim)
    ensures var s' := Apply(s, Step.MarkSent(c));
            if c.topup < |s.topups| && 0 < c.token <= s.topups[c.topup].token && c.token in s.topups[c.topup].log
               && s.topups[c.topup].log[c.token] == IntentRecorded
            then
              var p := s.topups[c.topup];
              s' == s.(topups := s.topups[c.topup := p.(log := p.log[c.token := PossiblySent])])
            else s' == s
  {}

  // ---------------------------------------------------------------- the answer

  /** Such an answer can come to this attempt. */
  predicate MayAnswer(s: Tables, c: PayClaim, r: Reply) {
    && c.topup < |s.topups| && c.token in s.topups[c.topup].log
    && (r.SaysRefused? ==> r.status in {Invalid, Expired, AlreadyRedeemed})
    && (r.NotSent? ==> s.topups[c.topup].log[c.token] == IntentRecorded)
  }

  /** What an answer makes of the status: three attempts in all; nothing unclear is decided
      without a person, nor a redeemed voucher without the provider's id. */
  function StatusAfter(r: Reply, attempt: nat): TopupStatus {
    match r
    case SaysRedeemed(_, Some(_)) => Redeemed
    case SaysRedeemed(_, None) => TopupReview
    case SaysRefused(status) => status
    case SaysRateLimited => if attempt < 3 then RetryWait else TopupFailed
    case SaysUnclear => TopupReview
    case NotSent => if attempt < 3 then RetryWait else TopupFailed
    case OutcomeUnknown => TopupReview
    case LocalFailure => TopupFailed
  }

  /** The whole row: what the voucher was worth is what the provider said. */
  function RowAfter(p: Topup, r: Reply, now: nat, delay: nat): Topup {
    var status := StatusAfter(r, p.token);
    Topup(p.user, p.voucher, status,
          if r.SaysRedeemed? then Some(r.amount) else None, r.SaysRedeemed?, p.bonus, p.promotion,
          if r.SaysRedeemed? then r.provider else None, p.attempts, p.token,
          if status == RetryWait then now + delay else p.availableAt, None,
          p.log[p.token := if status == Redeemed then AttemptVerified else if status == TopupReview then AttemptAmbiguous
                           else AttemptFailed])
  }

  /** The live worker's answer is recorded as it stands, for this top-up alone, with an
      owner's review when a person must decide; only a provider's id that another top-up
      carries is refused. */
  lemma AnswerRecorded(s: Tables, c: PayClaim, r: Reply, delay: nat)
    requires Inv(s) && Paying(s, c) && MayAnswer(s, c, r)
    ensures var o, t := Try(s, Answer(c, r, delay)), c.topup;
            var taken := r.SaysRedeemed? && r.provider.Some?
                         && exists k | 0 <= k < |s.topups| :: k != t && s.topups[k].provider == r.provider;
            && (o.Ok? <==> !taken) && (taken ==> o.error == UniqueViolation)
            && (o.Ok? ==>
                  o.value == s.(topups := s.topups[t := RowAfter(s.topups[t], r, s.clock, delay)],
                                reviews := if StatusAfter(r, c.token) == TopupReview && TopupSubject(t) !in s.reviews
                                           then s.reviews[TopupSubject(t) := Review(Open, 1, true)] else s.reviews))
  {
    PaymentRow(s, c.topup);
    AnswerEffect(s, c, r, delay);
    assert Try(s, Answer(c, r, delay)) == RecordResult(s, c, r, delay);
  }

  lemma AnswerEffect(s: Tables, c: PayClaim, r: Reply, delay: nat)
    requires Paying(s, c) && MayAnswer(s, c, r) && s.topups[c.topup].status == Processing
    ensures var o, t := RecordResult(s, c, r, delay), c.topup;
            if r.SaysRedeemed? && r.provider.Some?
               && exists k | 0 <= k < |s.topups| :: k != t && s.topups[k].provider == r.provider
            then o == Err(UniqueViolation)
            else o == Ok(s.(topups := s.topups[t := RowAfter(s.topups[t], r, s.clock, delay)],
                            reviews := if StatusAfter(r, c.token) == TopupReview && TopupSubject(t) !in s.reviews
                                       then s.reviews[TopupSubject(t) := Review(Open, 1, true)] else s.reviews))
  {
    var row := RowAfter(s.topups[c.topup], r, s.clock, delay);
    assert RowsAgree(s.topups[c.topup], c.token, r, s.clock, delay, row);
  }

  predicate RowsAgree(p: Topup, token: nat, r: Reply, now: nat, delay: nat, row: Topup) {
    var outcome := ResultOf(r, token);
    (if outcome == Ambiguous then ResultRow(p, token, r, outcome, now, delay).(status := TopupReview)
     else ResultRow(p, token, r, outcome, now, delay)) == row
  }

  /** An answer without the lease records nothing. */
  lemma AnswerTooLate(s: Tables, c: PayClaim, r: Reply, delay: nat)
    requires !Paying(s, c)
    ensures Apply(s, Answer(c, r, delay)) == s
    ensures MayAnswer(s, c, r) ==> Try(s, Answer(c, r, delay)) == Err(FencingLost)
  {}
}
