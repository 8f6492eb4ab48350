/** Dispatching one voucher to the payment provider: at most three attempts, each
    recorded before it is sent, and a result fenced by the lease. */
module Payments {
  import opened Common
  import opened Ledger
  import opened Schema
  import opened Wallet

  const MaxAttempts := 3

  /** What acquirePaymentJob returned. The attempt count is incremented together
      with the fencing token, so the token is also the attempt number. */
  datatype PayClaim = PayClaim(topup: TopupId, owner: WorkerId, token: nat)

  /** What one call to the provider ends in. */
  datatype Reply =
    | SaysRedeemed(amount: nat, provider: Option<string>)
    | SaysRefused(status: TopupStatus)
    | SaysRateLimited
    | SaysUnclear
    | NotSent
    | OutcomeUnknown
    | LocalFailure

  function SubmitVoucher(s: Tables, u: UserId, voucher: nat, blocked: bool, receiver: bool, promotion: Option<PromotionId>)
    : Outcome<Tables>
  {
    if blocked then Err(NotAuthorized)
    else if exists t | 0 <= t < |s.topups| :: s.topups[t].voucher == voucher then Ok(s)
    else if !receiver then Err(NotFound)
    else Ok(s.(topups := s.topups + [Topup(u, voucher, PaymentQueued, None, false, 0, promotion, None, 0, 0, s.clock, None, map[])]))
  }

  predicate Payable(s: Tables, t: TopupId) {
    t < |s.topups| && s.topups[t].status == PaymentQueued && s.topups[t].availableAt <= s.clock
  }

  /** The oldest payable top-up is claimed. */
  function AcquirePayment(s: Tables, t: TopupId, holder: WorkerId, ttl: nat): Outcome<Tables> {
    if !Payable(s, t) || exists k | 0 <= k < t :: Payable(s, k) then Err(NotFound)
    else
      var p := s.topups[t];
      Ok(s.(topups := s.topups[t := p.(status := Processing, lease := Some(Lease(holder, s.clock + ttl)),
                                       token := p.token + 1, attempts := p.attempts + 1)]))
  }

  predicate OwnsPayment(s: Tables, c: PayClaim) {
    && c.topup < |s.topups| && s.topups[c.topup].lease.Some? && s.topups[c.topup].token == c.token
    && s.topups[c.topup].lease.value.owner == c.owner && s.topups[c.topup].lease.value.expires > s.clock
  }

  /** The claim was handed out at some time. */
  predicate Issued(s: Tables, c: PayClaim) {
    c.topup < |s.topups| && 0 < c.token <= s.topups[c.topup].token
  }

  function RenewPayment(s: Tables, c: PayClaim, ttl: nat): Outcome<Tables> {
    if !OwnsPayment(s, c) || s.topups[c.topup].status != Processing then Err(FencingLost)
    else Ok(s.(topups := s.topups[c.topup := s.topups[c.topup].(lease := Some(Lease(c.owner, s.clock + ttl)))]))
  }

  /** The intent is recorded before anything is sent; this write is not fenced. */
  function CreateAttempt(s: Tables, c: PayClaim): Outcome<Tables> {
    if c.topup >= |s.topups| then Err(ForeignKeyViolation)
    else if c.token in s.topups[c.topup].log then Err(UniqueViolation)
    else
      var p := s.topups[c.topup];
      Ok(s.(topups := s.topups[c.topup := p.(log := p.log[c.token := IntentRecorded])]))
  }

  function MarkPossiblySent(s: Tables, c: PayClaim): Tables {
    if c.topup < |s.topups| && c.token in s.topups[c.topup].log && s.topups[c.topup].log[c.token] == IntentRecorded
    then
      var p := s.topups[c.topup];
      s.(topups := s.topups[c.topup := p.(log := p.log[c.token := PossiblySent])])
    else s
  }

  /** `normalizeProviderResult` for an answer and `failureResult` for an error. */
  function ResultOf(r: Reply, attempts: nat): TopupStatus {
    match r
    case SaysRedeemed(_, provider) => if provider.None? then Ambiguous else Redeemed
    case SaysRefused(status) => status
    case SaysRateLimited => if attempts >= MaxAttempts then TopupFailed else RetryWait
    case SaysUnclear => Ambiguous
    case NotSent => if attempts < MaxAttempts then RetryWait else TopupFailed
    case OutcomeUnknown => Ambiguous
    case LocalFailure => TopupFailed
  }

  function AttemptStateOf(outcome: TopupStatus): Dispatch {
    if outcome == Redeemed then AttemptVerified else if outcome == Ambiguous then AttemptAmbiguous else AttemptFailed
  }

  predicate RefusalStatus(st: TopupStatus) {
    st in {Invalid, Expired, AlreadyRedeemed}
  }

  /** Replies the provider client can give: refusals are the three it maps, and
      "not sent" is reported only while the attempt is not marked possibly sent. */
  predicate Plausible(s: Tables, c: PayClaim, r: Reply) {
    && c.topup < |s.topups| && c.token in s.topups[c.topup].log
    && (r.SaysRefused? ==> RefusalStatus(r.status))
    && (r.NotSent? ==> s.topups[c.topup].log[c.token] == IntentRecorded)
  }

  /** Workers credit only rows they saw REDEEMED; by the time they do, such a row may
      have been credited, and even reversed. */
  predicate SeenRedeemed(s: Tables, t: TopupId) {
    t < |s.topups| && s.topups[t].status in {Redeemed, Credited, Reversed}
  }

  predicate ProviderUsed(s: Tables, t: TopupId, provider: string) {
    exists k | 0 <= k < |s.topups| :: k != t && s.topups[k].provider == Some(provider)
  }

  /** The top-up row after a result. */
  function ResultRow(p: Topup, token: nat, r: Reply, outcome: TopupStatus, now: nat, delay: nat): Topup {
    p.(status := outcome, provider := if r.SaysRedeemed? then r.provider else None,
       amount := if r.SaysRedeemed? then Some(r.amount) else None, thb := r.SaysRedeemed?,
       availableAt := if outcome == RetryWait then now + delay else p.availableAt,
       lease := None, log := if token in p.log then p.log[token := AttemptStateOf(outcome)] else p.log)
  }

  function RecordResult(s: Tables, c: PayClaim, r: Reply, delay: nat): Outcome<Tables> {
    if !OwnsPayment(s, c) then Err(FencingLost)
    else
      var p := s.topups[c.topup];
      var outcome := ResultOf(r, c.token);
      if outcome !in TopupTransitions(p.status) then Err(IllegalTransition)
      else
        var provider := if r.SaysRedeemed? then r.provider else None;
        if provider.Some? && ProviderUsed(s, c.topup, provider.value) then Err(UniqueViolation)
        else
          var row := ResultRow(p, c.token, r, outcome, s.clock, delay);
          Ok(s.(topups := s.topups[c.topup := if outcome == Ambiguous then row.(status := TopupReview) else row],
                reviews := if outcome == Ambiguous then OpenReview(s.reviews, TopupSubject(c.topup), true) else s.reviews))
  }

  // ---------------------------------------------------------------- invariant

  predicate InQueue(st: TopupStatus) {
    st in {RetryWait, PaymentQueued}
  }

  predicate MaybePaid(d: Dispatch) {
    d in {PossiblySent, AttemptAmbiguous}
  }

  /** The latest attempt may have reached the provider. */
  predicate LatestMaybePaid(p: Topup) {
    p.attempts in p.log && MaybePaid(p.log[p.attempts])
  }

  predicate PaymentAt(s: Tables, t: TopupId) {
    t < |s.topups| ==>
      var p := s.topups[t];
      && p.attempts == p.token <= MaxAttempts
      && (p.lease.Some? <==> p.status == Processing)
      && (p.status == Processing ==> p.attempts >= 1)
      && (InQueue(p.status) ==> p.attempts <= 2 && (p.attempts > 0 ==> p.attempts in p.log && p.log[p.attempts] == AttemptFailed))
      && (p.status in {Redeemed, Credited, Reversed} ==> p.amount.Some?)
      && (InQueue(p.status) || p.status == Processing ==> p.amount.None?)
      && p.status !in {Received, Validating, Ambiguous}
      && (forall n | n in p.log :: 1 <= n <= p.attempts)
  }

  ghost predicate PaymentsOk(s: Tables) {
    forall t: TopupId :: PaymentAt(s, t)
  }
}
