/** Voucher payments as they run. */
module PaymentService {
  import opened Common
  import opened Ledger
  import opened Schema
  import opened Wallet
  import opened Payments

  /** `submitVoucher` */
  method Submit(db: Database, u: UserId, voucher: nat, blocked: bool, receiver: bool, promotion: Option<PromotionId>)
    returns (error: Option<Error>)
    modifies db`topups
    ensures Committed(old(db.Read()), db.Read(), error, SubmitVoucher(old(db.Read()), u, voucher, blocked, receiver, promotion))
  {
    if blocked { return Some(NotAuthorized); }
    var t := 0;
    while t < |db.topups|
      invariant 0 <= t <= |db.topups| && forall k | 0 <= k < t :: db.topups[k].voucher != voucher
    {
      if db.topups[t].voucher == voucher { return None; }
      t := t + 1;
    }
    if !receiver { return Some(NotFound); }
    db.topups := db.topups + [Topup(u, voucher, PaymentQueued, None, false, 0, promotion, None, 0, 0, db.clock, None, map[])];
    error := None;
  }

  /** `acquirePaymentJob`: the oldest payable top-up, if there is one. */
  method AcquireJob(db: Database, holder: WorkerId, ttl: nat) returns (claim: Option<PayClaim>)
    modifies db`topups
    ensures claim.None? ==> db.Read() == old(db.Read()) && forall t: TopupId :: !Payable(db.Read(), t)
    ensures claim.Some? ==>
              && AcquirePayment(old(db.Read()), claim.value.topup, holder, ttl) == Ok(db.Read())
              && OwnsPayment(db.Read(), claim.value) == (ttl > 0)
              && claim.value.token == db.topups[claim.value.topup].token
  {
    var t := 0;
    while t < |db.topups| && !Payable(db.Read(), t)
      invariant 0 <= t <= |db.topups| && forall k: TopupId | k < t :: !Payable(db.Read(), k)
    {
      t := t + 1;
    }
    if t == |db.topups| { return None; }
    var p := db.topups[t];
    db.topups := db.topups[t := p.(status := Processing, lease := Some(Lease(holder, db.clock + ttl)),
                                   token := p.token + 1, attempts := p.attempts + 1)];
    claim := Some(PayClaim(t, holder, p.token + 1));
  }

  /** `renewPaymentLease` */
  method Renew(db: Database, c: PayClaim, ttl: nat) returns (error: Option<Error>)
    modifies db`topups
    ensures Committed(old(db.Read()), db.Read(), error, RenewPayment(old(db.Read()), c, ttl))
  {
    if !OwnsPayment(db.Read(), c) || db.topups[c.topup].status != Processing { return Some(FencingLost); }
    db.topups := db.topups[c.topup := db.topups[c.topup].(lease := Some(Lease(c.owner, db.clock + ttl)))];
    error := None;
  }

  /** `createPaymentAttempt` */
  method RecordAttempt(db: Database, c: PayClaim) returns (error: Option<Error>)
    modifies db`topups
    ensures Committed(old(db.Read()), db.Read(), error, CreateAttempt(old(db.Read()), c))
  {
    if c.topup >= |db.topups| { return Some(ForeignKeyViolation); }
    var p := db.topups[c.topup];
    if c.token in p.log { return Some(UniqueViolation); }
    db.topups := db.topups[c.topup := p.(log := p.log[c.token := IntentRecorded])];
    error := None;
  }

  /** `markPaymentPossiblySent` */
  method MarkSent(db: Database, c: PayClaim)
    modifies db`topups
    ensures db.Read() == MarkPossiblySent(old(db.Read()), c)
  {
    if c.topup < |db.topups| {
      var p := db.topups[c.topup];
      if c.token in p.log && p.log[c.token] == IntentRecorded {
        db.topups := db.topups[c.topup := p.(log := p.log[c.token := PossiblySent])];
      }
    }
  }

  /** `recordProviderResult`: an ambiguous result is written as such, then moved on to
      manual review in the same transaction. */
  method Record(db: Database, c: PayClaim, r: Reply, delay: nat) returns (error: Option<Error>)
    modifies db`topups, db`reviews
    ensures Committed(old(db.Read()), db.Read(), error, RecordResult(old(db.Read()), c, r, delay))
  {
    if !OwnsPayment(db.Read(), c) { return Some(FencingLost); }
    var p := db.topups[c.topup];
    var next := ResultOf(r, c.token);
    if next !in TopupTransitions(p.status) { return Some(IllegalTransition); }
    var provider := if r.SaysRedeemed? then r.provider else None;
    if provider.Some? && ProviderUsed(db.Read(), c.topup, provider.value) { return Some(UniqueViolation); }
    var row := ResultRow(p, c.token, r, next, db.clock, delay);
    db.topups := db.topups[c.topup := row];
    if next == Ambiguous {
      db.topups := db.topups[c.topup := row.(status := TopupReview)];
      db.reviews := OpenReview(db.reviews, TopupSubject(c.topup), true);
    }
    error := None;
  }
}
