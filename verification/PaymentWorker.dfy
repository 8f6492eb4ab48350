/** One claimed payment from its intent to its result: the worker makes only steps that
    the shop's steps allow, whatever the provider and the network do and whatever everybody
    else commits between its transactions. */
module PaymentWorker {
  import opened Common
  import opened Ledger
  import opened Schema
  import opened Wallet
  import opened Payments
  import opened Machine
  import opened Frames
  import opened Safety
  import opened PaymentFates
  import PaymentService
  import WalletService
  import PaymentSteps
  import PaymentEffects
  import MoneyEffects

  /** One call to the provider: whether the request was written out before the call
      ended, and how it ended. */
  datatype Exchange = Exchange(finished: bool, answer: Reply)

  /** "Not sent" is reported only for a request that was never written out, and that is
      the moment the attempt is marked as possibly sent; refusals are the three known
      ones. */
  predicate Possible(x: Exchange) {
    (x.answer.NotSent? ==> !x.finished) && (x.answer.SaysRefused? ==> RefusalStatus(x.answer.status))
  }

  /** What everybody else commits before the attempt is marked, before the answer is
      recorded and after that; the worker's own heartbeat is part of it. */
  datatype Others = Others(beforeMark: seq<Step>, beforeRecord: seq<Step>, afterRecord: seq<Step>)

  /** Nobody else writes this attempt. */
  predicate Foreign(c: PayClaim, steps: seq<Step>) {
    forall k | 0 <= k < |steps| :: !WritesAttempt(steps[k], c)
  }

  predicate AllForeign(c: PayClaim, o: Others) {
    Foreign(c, o.beforeMark) && Foreign(c, o.beforeRecord) && Foreign(c, o.afterRecord)
  }

  /** `failureResult` of an error that recording itself raised: a lost lease counts as
      retryable, anything else does not. */
  function FailureOf(e: Error): Reply {
    if e == FencingLost then NotSent else LocalFailure
  }

  /** Up to the moment when the answer is known. */
  function Asked(c: PayClaim, x: Exchange, o: Others): seq<Step> {
    (if x.finished then [Step.RecordAttempt(c)] + o.beforeMark + [Step.MarkSent(c)] else [Step.RecordAttempt(c)])
    + o.beforeRecord
  }

  /** From the answer on. */
  function Outcomes(s: Tables, c: PayClaim, r: Reply, delay: nat, autoCredit: bool, after: seq<Step>): seq<Step> {
    var recorded := RecordResult(s, c, r, delay);
    if recorded.Ok? then
      if autoCredit && c.topup < |recorded.value.topups| && recorded.value.topups[c.topup].status == Redeemed
      then [Answer(c, r, delay)] + after + [Step.Credit(c.topup)]
      else [Answer(c, r, delay)]
    else if recorded.error == FencingLost then [Answer(c, r, delay)] + after
    else [Answer(c, r, delay)] + after + [Answer(c, FailureOf(recorded.error), delay)]
  }

  /** The steps that are committed in all: intent, mark, answer; then the credit of a
      redeemed payment if that is enabled, or the failure that recording raised. A worker
      that has no lease any more, lost or given up with its result, reports in vain. */
  function Flow(s: Tables, c: PayClaim, x: Exchange, delay: nat, autoCredit: bool, o: Others): seq<Step> {
    if CreateAttempt(s, c).Err? then []
    else Asked(c, x, o) + Outcomes(Run(s, Asked(c, x, o)), c, x.answer, delay, autoCredit, o.afterRecord)
  }

  /** Transactions of others. */
  method Meanwhile(db: Database, steps: seq<Step>)
    modifies db
    ensures db.Read() == Run(old(db.Read()), steps)
  {
    db.Write(Run(db.Read(), steps));
  }

  lemma {:induction false} RunTwice(s: Tables, a: seq<Step>, b: seq<Step>)
    ensures Run(s, a + b) == Run(Run(s, a), b)
    decreases |a|
  {
    if a == [] {
      assert [] + b == b;
    } else {
      assert (a + b)[1..] == a[1..] + b;
      RunTwice(Apply(s, a[0]), a[1..], b);
    }
  }

  lemma {:induction false} RunOne(s: Tables, step: Step)
    ensures Run(s, [step]) == Apply(s, step)
  {
    assert [step][1..] == [];
    assert Run(Apply(s, step), []) == Apply(s, step);
  }

  /** The request is written out: the attempt is marked as possibly sent. */
  method Finish(db: Database, c: PayClaim, others: seq<Step>)
    requires Inv(db.Read()) && Issued(db.Read(), c) && Foreign(c, others) && c.token in db.topups[c.topup].log
    modifies db
    ensures db.Read() == Run(old(db.Read()), others + [Step.MarkSent(c)])
    ensures Inv(db.Read()) && Issued(db.Read(), c) && c.token in db.topups[c.topup].log
  {
    ghost var s := db.Read();
    Meanwhile(db, others);
    ClaimLivesOn(s, others, c);
    MarkIsStep(db.Read(), c);
    RunAgain(s, others, Step.MarkSent(c));
    PaymentService.MarkSent(db, c);
  }

  /** Intent and request; nothing is sent when the attempt cannot be recorded. */
  method Ask(db: Database, c: PayClaim, x: Exchange, o: Others) returns (error: Option<Error>)
    requires Possible(x) && AllForeign(c, o) && Inv(db.Read()) && Issued(db.Read(), c)
    modifies db
    ensures error == ErrorOf(CreateAttempt(old(db.Read()), c))
    ensures db.Read() == if error == None then Run(old(db.Read()), Asked(c, x, o)) else old(db.Read())
    ensures Inv(db.Read()) && Issued(db.Read(), c)
    ensures error == None ==> Plausible(db.Read(), c, x.answer)
  {
    ghost var s := db.Read();
    error := PaymentService.RecordAttempt(db, c);
    if error != None { return; }
    AttemptIsStep(s, c);
    RunOne(s, Step.RecordAttempt(c));
    ghost var asked := [Step.RecordAttempt(c)];
    if x.finished {
      Finish(db, c, o.beforeMark);
      RunTwice(s, asked, o.beforeMark + [Step.MarkSent(c)]);
      assert asked + (o.beforeMark + [Step.MarkSent(c)]) == asked + o.beforeMark + [Step.MarkSent(c)];
      asked := asked + o.beforeMark + [Step.MarkSent(c)];
    }
    ghost var s3 := db.Read();
    Meanwhile(db, o.beforeRecord);
    ClaimLivesOn(s3, o.beforeRecord, c);
    RunTwice(s, asked, o.beforeRecord);
  }

  /** `processClaimedPayment`: intent, request, result; a result that cannot be recorded
      is recorded as a failure instead, and a redeemed one is credited at once when that
      is enabled. */
  method ProcessClaimed(db: Database, c: PayClaim, x: Exchange, delay: nat, autoCredit: bool, o: Others)
    requires Possible(x) && AllForeign(c, o) && Inv(db.Read()) && Issued(db.Read(), c)
    modifies db
    ensures db.Read() == Run(old(db.Read()), Flow(old(db.Read()), c, x, delay, autoCredit, o))
    ensures Inv(db.Read())
  {
    ghost var s := db.Read();
    var error := Ask(db, c, x, o);
    if error != None { return; }
    RunTwice(s, Asked(c, x, o), Outcomes(db.Read(), c, x.answer, delay, autoCredit, o.afterRecord));
    RecordOutcome(db, c, x.answer, delay, autoCredit, o.afterRecord);
  }

  lemma AttemptIsStep(s: Tables, c: PayClaim)
    requires Inv(s) && Issued(s, c) && CreateAttempt(s, c).Ok?
    ensures var s' := CreateAttempt(s, c).value;
            && s' == Apply(s, Step.RecordAttempt(c)) && Inv(s') && Issued(s', c)
            && c.token in s'.topups[c.topup].log && s'.topups[c.topup].log[c.token] == IntentRecorded
  {
    StepGood(s, Step.RecordAttempt(c));
  }

  lemma MarkIsStep(s: Tables, c: PayClaim)
    requires Inv(s) && Issued(s, c) && c.token in s.topups[c.topup].log
    ensures var s' := MarkPossiblySent(s, c);
            s' == Apply(s, Step.MarkSent(c)) && Inv(s') && Issued(s', c) && c.token in s'.topups[c.topup].log
  {
    StepGood(s, Step.MarkSent(c));
  }

  /** A redeemed payment is credited; a refused credit is reported in vain. */
  method CreditRedeemed(db: Database, c: PayClaim, delay: nat, after: seq<Step>)
    requires Inv(db.Read()) && Issued(db.Read(), c) && !OwnsPayment(db.Read(), c) && Foreign(c, after)
    requires SeenRedeemed(db.Read(), c.topup)
    modifies db
    ensures db.Read() == Run(old(db.Read()), after + [Step.Credit(c.topup)]) && Inv(db.Read())
  {
    ghost var s := db.Read();
    Meanwhile(db, after);
    RedeemedStays(s, after, c.topup);
    ClaimLivesOn(s, after, c);
    ghost var s1 := db.Read();
    CreditIsStep(s1, c.topup);
    RunAgain(s, after, Step.Credit(c.topup));
    var refused := WalletService.Credit(db, c.topup);
    if refused != None {
      var again := PaymentService.Record(db, c, FailureOf(refused.value), delay);
      LostStaysLost(s1, c, delay);
    }
  }

  /** The failure that recording raised is reported; a worker without a lease does so in
      vain. */
  method ReportFailure(db: Database, c: PayClaim, e: Error, delay: nat, after: seq<Step>)
    requires Inv(db.Read()) && Issued(db.Read(), c) && Foreign(c, after) && c.token in db.topups[c.topup].log
    requires e == FencingLost ==> !OwnsPayment(db.Read(), c)
    modifies db
    ensures db.Read() == Run(old(db.Read()), if e == FencingLost then after else after + [Answer(c, LocalFailure, delay)])
    ensures Inv(db.Read())
  {
    ghost var s := db.Read();
    Meanwhile(db, after);
    ClaimLivesOn(s, after, c);
    ghost var s1 := db.Read();
    var again := PaymentService.Record(db, c, FailureOf(e), delay);
    if e == FencingLost {
      LostStaysLost(s1, c, delay);
    } else {
      AnswerIsStep(s1, c, LocalFailure, delay);
      RunAgain(s, after, Answer(c, LocalFailure, delay));
    }
  }

  /** The answer, or the failure to record it, is recorded. In particular a voucher that
      the provider redeemed under a used transaction id ends FAILED. */
  method RecordOutcome(db: Database, c: PayClaim, answer: Reply, delay: nat, autoCredit: bool, after: seq<Step>)
    requires Inv(db.Read()) && Issued(db.Read(), c) && Plausible(db.Read(), c, answer) && Foreign(c, after)
    modifies db
    ensures db.Read() == Run(old(db.Read()), Outcomes(old(db.Read()), c, answer, delay, autoCredit, after))
    ensures Inv(db.Read())
  {
    ghost var s := db.Read();
    AnswerIsStep(s, c, answer, delay);
    RunOne(s, Answer(c, answer, delay));
    var error := PaymentService.Record(db, c, answer, delay);
    if error != None {
      var rest := if error.value == FencingLost then after else after + [Answer(c, LocalFailure, delay)];
      RunTwice(s, [Answer(c, answer, delay)], rest);
      assert Outcomes(s, c, answer, delay, autoCredit, after) == [Answer(c, answer, delay)] + rest;
      ReportFailure(db, c, error.value, delay, after);
    } else if autoCredit && db.topups[c.topup].status == Redeemed {
      RunTwice(s, [Answer(c, answer, delay)], after + [Step.Credit(c.topup)]);
      assert Outcomes(s, c, answer, delay, autoCredit, after) == [Answer(c, answer, delay)] + (after + [Step.Credit(c.topup)]);
      CreditRedeemed(db, c, delay, after);
    }
  }

  lemma CreditIsStep(s: Tables, t: TopupId)
    requires Inv(s) && SeenRedeemed(s, t)
    ensures Apply(s, Step.Credit(t)) == Settled(CreditRedeemedTopup(s, t), s) && Inv(Apply(s, Step.Credit(t)))
  {
    StepGood(s, Step.Credit(t));
  }

  /** Recording, refused or not, is one step of the shop. */
  lemma AnswerIsStep(s: Tables, c: PayClaim, r: Reply, delay: nat)
    requires Inv(s) && Issued(s, c) && Plausible(s, c, r)
    ensures var s' := Apply(s, Answer(c, r, delay));
            && s' == Settled(RecordResult(s, c, r, delay), s) && Inv(s') && Issued(s', c)
            && (if RecordResult(s, c, r, delay).Err? then s' == s else !OwnsPayment(s', c))
            && (RecordResult(s, c, r, delay) == Err(FencingLost) ==> !OwnsPayment(s, c))
  {
    StepGood(s, Answer(c, r, delay));
    RecordedLease(s, c, r, delay);
    assert Apply(s, Answer(c, r, delay)) == Settled(RecordResult(s, c, r, delay), s);
  }

  /** Recording gives the lease up, and is refused for want of it only. */
  lemma RecordedLease(s: Tables, c: PayClaim, r: Reply, delay: nat)
    ensures var o := RecordResult(s, c, r, delay);
            && (o.Ok? ==> !OwnsPayment(o.value, c) && (Issued(s, c) ==> Issued(o.value, c)))
            && (o == Err(FencingLost) ==> !OwnsPayment(s, c))
  {}

  /** A worker that lost its lease cannot record the failure either: nothing it reports
      puts the payment back into the queue. */
  lemma LostStaysLost(s: Tables, c: PayClaim, delay: nat)
    requires !OwnsPayment(s, c)
    ensures forall r: Reply :: RecordResult(s, c, r, delay) == Err(FencingLost)
  {}

  // ---------------------------------------------------------------- undisturbed

  /** Intent and mark, before the answer. */
  lemma AskedUndisturbed(s: Tables, c: PayClaim)
    requires Inv(s) && PaymentEffects.Paying(s, c) && 0 < c.token && c.token !in s.topups[c.topup].log
    ensures var s2 := Apply(Apply(s, Step.RecordAttempt(c)), Step.MarkSent(c));
            && Inv(s2) && PaymentEffects.Paying(s2, c)
            && s2 == s.(topups := s.topups[c.topup := s.topups[c.topup].(log := s.topups[c.topup].log[c.token := PossiblySent])])
  {
    PaymentEffects.AttemptRecorded(s, c);
    var s1 := Apply(s, Step.RecordAttempt(c));
    PaymentEffects.AttemptMarkedSent(s1, c);
    StepGood(s, Step.RecordAttempt(c));
    StepGood(s1, Step.MarkSent(c));
    LogWrittenTwice(s.topups, c.topup, s.topups[c.topup].log, c.token);
  }

  lemma LogWrittenTwice(ps: seq<Topup>, t: nat, log: map<nat, Dispatch>, n: nat)
    requires t < |ps| && log == ps[t].log
    ensures var p := ps[t].(log := log[n := IntentRecorded]);
            ps[t := p][t := p.(log := p.log[n := PossiblySent])] == ps[t := ps[t].(log := log[n := PossiblySent])]
  {
    assert log[n := IntentRecorded][n := PossiblySent] == log[n := PossiblySent];
  }

  /** The top-up is credited with this amount and its bonus, which its user has. */
  predicate PaidOut(s: Tables, s': Tables, t: TopupId, amount: nat)
    requires t < |s.topups|
  {
    var u := s.topups[t].user;
    && t < |s'.topups| && s'.topups[t].status == Credited && s'.topups[t].amount == Some(amount)
    && s'.topups[t].bonus == MoneyEffects.BonusOf(s, s.topups[t], amount).cents
    && WalletOf(s'.bank, u) == Balance(WalletOf(s.bank, u).available + amount + s'.topups[t].bonus, WalletOf(s.bank, u).reserved)
  }

  lemma PaidSince(s: Tables, s2: Tables, s': Tables, t: TopupId, amount: nat)
    requires t < |s.topups| == |s2.topups| && s2 == s.(topups := s2.topups) && PaidOut(s2, s', t, amount)
    requires s2.topups[t] == s.topups[t].(log := s2.topups[t].log)
    ensures PaidOut(s, s', t, amount)
  {}

  /** A worker that nobody disturbs, whose request is answered with a voucher redeemed under an
      id not used before, brings its customer what the voucher was worth and the bonus for it. */
  lemma {:induction false} RedeemedVoucherPays(s: Tables, c: PayClaim, amount: nat, provider: string, delay: nat)
    requires Inv(s) && PaymentEffects.Paying(s, c) && 0 < c.token && c.token !in s.topups[c.topup].log
    requires forall k | 0 <= k < |s.topups| && k != c.topup :: s.topups[k].provider != Some(provider)
    ensures var x := Exchange(true, SaysRedeemed(amount, Some(provider)));
            PaidOut(s, Run(s, Flow(s, c, x, delay, true, Others([], [], []))), c.topup, amount)
  {
    var r := SaysRedeemed(amount, Some(provider));
    AskedUndisturbed(s, c);
    var s2 := Apply(Apply(s, Step.RecordAttempt(c)), Step.MarkSent(c));
    MoneyEffects.AnswerReachesWallet(s2, c, amount, provider, delay);
    RedeemedRecorded(s2, c, amount, provider, delay);
    FlowUndisturbed(s, c, r, delay);
    PaidSince(s, s2, Apply(Apply(s2, Answer(c, r, delay)), Step.Credit(c.topup)), c.topup, amount);
  }

  lemma RedeemedRecorded(s: Tables, c: PayClaim, amount: nat, provider: string, delay: nat)
    requires Inv(s) && PaymentEffects.Paying(s, c) && c.token in s.topups[c.topup].log
    requires forall k | 0 <= k < |s.topups| && k != c.topup :: s.topups[k].provider != Some(provider)
    ensures var r := SaysRedeemed(amount, Some(provider));
            && Plausible(s, c, r) && RecordResult(s, c, r, delay).Ok? && c.topup < |RecordResult(s, c, r, delay).value.topups|
            && RecordResult(s, c, r, delay).value.topups[c.topup].status == Redeemed
  {
    PaymentSteps.PaymentRow(s, c.topup);
    PaymentEffects.AnswerEffect(s, c, SaysRedeemed(amount, Some(provider)), delay);
  }

  lemma {:induction false} FlowUndisturbed(s: Tables, c: PayClaim, r: Reply, delay: nat)
    requires Issued(s, c) && CreateAttempt(s, c).Ok?
    requires var s2 := Apply(Apply(s, Step.RecordAttempt(c)), Step.MarkSent(c));
             && Plausible(s2, c, r) && RecordResult(s2, c, r, delay).Ok? && c.topup < |RecordResult(s2, c, r, delay).value.topups|
             && RecordResult(s2, c, r, delay).value.topups[c.topup].status == Redeemed
    ensures var s2 := Apply(Apply(s, Step.RecordAttempt(c)), Step.MarkSent(c));
            Run(s, Flow(s, c, Exchange(true, r), delay, true, Others([], [], [])))
            == Apply(Apply(s2, Answer(c, r, delay)), Step.Credit(c.topup))
  {
    var x, o := Exchange(true, r), Others([], [], []);
    var s2 := Apply(Apply(s, Step.RecordAttempt(c)), Step.MarkSent(c));
    assert Asked(c, x, o) == [Step.RecordAttempt(c)] + [Step.MarkSent(c)];
    AskedRuns(s, c);
    AnswerThenCredit(s2, c, r, delay);
    FlowUnfolds(s, s2, c, x, delay, true, o);
    RunTwice(s, Asked(c, x, o), Outcomes(s2, c, r, delay, true, []));
  }

  lemma {:induction false} FlowUnfolds(s: Tables, s2: Tables, c: PayClaim, x: Exchange, delay: nat, autoCredit: bool, o: Others)
    requires CreateAttempt(s, c).Ok? && Run(s, Asked(c, x, o)) == s2
    ensures Flow(s, c, x, delay, autoCredit, o) == Asked(c, x, o) + Outcomes(s2, c, x.answer, delay, autoCredit, o.afterRecord)
  {}

  lemma {:induction false} AskedRuns(s: Tables, c: PayClaim)
    ensures Run(s, [Step.RecordAttempt(c)] + [Step.MarkSent(c)]) == Apply(Apply(s, Step.RecordAttempt(c)), Step.MarkSent(c))
  {
    RunOne(s, Step.RecordAttempt(c));
    RunAgain(s, [Step.RecordAttempt(c)], Step.MarkSent(c));
  }

  lemma {:induction false} AnswerThenCredit(s: Tables, c: PayClaim, r: Reply, delay: nat)
    requires Plausible(s, c, r) && RecordResult(s, c, r, delay).Ok? && c.topup < |RecordResult(s, c, r, delay).value.topups|
    requires RecordResult(s, c, r, delay).value.topups[c.topup].status == Redeemed
    ensures Run(s, Outcomes(s, c, r, delay, true, [])) == Apply(Apply(s, Answer(c, r, delay)), Step.Credit(c.topup))
  {
    RunOne(s, Answer(c, r, delay));
    RunAgain(s, [Answer(c, r, delay)], Step.Credit(c.topup));
    assert Outcomes(s, c, r, delay, true, []) == [Answer(c, r, delay)] + [Step.Credit(c.topup)];
  }
}
