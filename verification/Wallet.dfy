/** The seven money operations: what each transaction does to the tables. */
module Wallet {
  import opened Common
  import opened Ledger
  import opened Schema
  import opened Promotions

  const SecondsPerDay := 86400
  const BangkokOffset := 25200

  function BangkokDay(clock: nat): nat {
    (clock + BangkokOffset) / SecondsPerDay
  }

  // ---------------------------------------------------------------- shared pieces

  /** The worker still owns the job: same owner, same token, lease not expired. */
  predicate Owns(s: Tables, c: Claim) {
    && c.job in s.jobs && s.jobs[c.job].lease.Some? && s.jobs[c.job].token == c.token
    && s.jobs[c.job].lease.value.owner == c.owner && s.jobs[c.job].lease.value.expires > s.clock
  }

  /** INSERT ... ON CONFLICT keeps the review that is already open. */
  function OpenReview(reviews: map<Subject, Review>, subject: Subject, ownerOnly: bool): map<Subject, Review> {
    if subject in reviews then reviews else reviews[subject := Review(Open, 1, ownerOnly)]
  }

  predicate OrderActive(items: seq<Item>, o: OrderId) {
    exists i | 0 <= i < |items| :: items[i].order == o && items[i].state !in TerminalItemStates
  }

  /** `finalizeOrderIfTerminal`: the transaction that settles the last open item
      completes the order and drops its credential and its account lock. */
  function FinalizeOrder(s: Tables, o: OrderId): Tables {
    if OrderActive(s.items, o) || o >= |s.orders| || s.orders[o].completed then s
    else
      s.(orders := s.orders[o := s.orders[o].(completed := true, credential := false)],
         locks := LocksWithout(s.locks, o))
  }

  /** DELETE FROM account_locks WHERE order_id = o */
  function LocksWithout(locks: map<AccountId, OrderId>, o: OrderId): map<AccountId, OrderId> {
    map a | a in locks && locks[a] != o :: locks[a]
  }

  predicate HasReservation(s: Tables, i: ItemId) {
    i < |s.items| && s.items[i].reservation.Some?
  }

  /** The item row leaves for a settled state together with its reservation; a captured
      one is complete. */
  function SettleItem(s: Tables, i: ItemId, next: Stage, state: ReservationState): Tables
    requires HasReservation(s, i)
  {
    var r := s.items[i].reservation.value;
    s.(items := s.items[i := s.items[i].(state := next,
                                         progress := if next == ReadyToClaim then 100 else s.items[i].progress,
                                         reservation := Some(r.(state := state, version := r.version + 1)))])
  }

  // ---------------------------------------------------------------- reserve

  /** One requested reservation: the item and its amount. */
  datatype Request = Request(item: ItemId, amount: nat)

  function Total(requests: seq<Request>): nat {
    if requests == [] then 0 else requests[0].amount + Total(requests[1..])
  }

  function ReservePosting(r: Request, ctx: Context): Posting {
    Posting(Reserve, 0 - r.amount, r.amount, ItemRef(r.item), ReserveKey(ctx, r.item))
  }

  function ReserveOne(s: Tables, u: UserId, r: Request, ctx: Context): Outcome<Tables> {
    var bank := Post(s.bank, u, ReservePosting(r, ctx), s.clock);
    if bank.Err? then Err(bank.error)
    else if r.item >= |s.items| then Err(ForeignKeyViolation)
    else if s.items[r.item].reservation.Some? then Err(UniqueViolation)
    else if r.amount == 0 then Err(InvalidArgument)
    else if s.items[r.item].state != Selected then Err(StaleState)
    else
      var item := s.items[r.item].(state := Stage.Reserved, reservation := Some(Reservation(u, r.amount, Held, 1)));
      Ok(s.(bank := bank.value, items := s.items[r.item := item]))
  }

  function ReserveEach(s: Tables, u: UserId, requests: seq<Request>, ctx: Context): Outcome<Tables>
    decreases |requests|
  {
    if requests == [] then Ok(s)
    else
      var first := ReserveOne(s, u, requests[0], ctx);
      if first.Err? then first else ReserveEach(first.value, u, requests[1..], ctx)
  }

  function ReserveItems(s: Tables, u: UserId, requests: seq<Request>, ctx: Context): Outcome<Tables> {
    if requests == [] then Err(InvalidArgument)
    else if WalletOf(s.bank, u).available < Total(requests) then Err(InsufficientBalance)
    else ReserveEach(s, u, requests, ctx)
  }

  // ---------------------------------------------------------------- settle

  function CapturePosting(i: ItemId, amount: nat, ctx: Context): Posting {
    Posting(Kind.Capture, 0, 0 - amount, ItemRef(i), CaptureKey(ctx, i))
  }

  function ReleasePosting(i: ItemId, amount: nat, ctx: Context): Posting {
    Posting(Kind.Release, amount, 0 - amount, ItemRef(i), ReleaseKey(ctx, i))
  }

  function CaptureReservation(s: Tables, i: ItemId, fence: Option<Claim>, ctx: Context): Outcome<Tables> {
    if fence.Some? && !(fence.value.job == i && Owns(s, fence.value)) then Err(FencingLost)
    else if !HasReservation(s, i) then Err(ReservationNotFound)
    else
      var r := s.items[i].reservation.value;
      if r.state == ReservationState.Captured then Ok(s)
      else if r.state != Held then Err(ReservationNotActive)
      else if ReadyToClaim !in ItemTransitions(s.items[i].state) then Err(IllegalTransition)
      else
        var bank := Post(s.bank, r.user, CapturePosting(i, r.amount, ctx), s.clock);
        if bank.Err? then Err(bank.error)
        else Ok(FinalizeOrder(SettleItem(s, i, ReadyToClaim, ReservationState.Captured).(bank := bank.value),
                              s.items[i].order))
  }

  function ReleaseReservation(s: Tables, i: ItemId, terminal: Stage, fence: Option<Claim>, ctx: Context)
    : Outcome<Tables>
  {
    if terminal !in ReleasedStates then Err(InvalidArgument)
    else if fence.Some? && !(fence.value.job == i && Owns(s, fence.value)) then Err(FencingLost)
    else if !HasReservation(s, i) then Err(ReservationNotFound)
    else
      var r := s.items[i].reservation.value;
      if r.state == ReservationState.Released then Ok(s)
      else if r.state != Held then Err(ReservationCaptured)
      else if terminal !in ItemTransitions(s.items[i].state) then Err(IllegalTransition)
      else
        var bank := Post(s.bank, r.user, ReleasePosting(i, r.amount, ctx), s.clock);
        if bank.Err? then Err(bank.error)
        else Ok(FinalizeOrder(SettleItem(s, i, terminal, ReservationState.Released).(bank := bank.value),
                              s.items[i].order))
  }

  // ---------------------------------------------------------------- refund, adjust

  function RefundPosting(i: ItemId, amount: nat): Posting {
    Posting(RefundCredit, amount, 0, RefundRef(i), RefundKey(i))
  }

  /** A refund row names its ledger row, and no two refund rows may name the same
      one: a key that is already on the ledger belongs to an earlier refund. */
  function RefundCapturedItem(s: Tables, i: ItemId, reason: string, expected: Option<nat>): Outcome<Tables> {
    if Blank(reason) then Err(InvalidArgument)
    else if i in s.refunds then Ok(s)
    else if !HasReservation(s, i) then Err(ReservationNotFound)
    else
      var r := s.items[i].reservation.value;
      if r.state != ReservationState.Captured then Err(RefundNotCaptured)
      else if expected.Some? && r.version != expected.value then Err(StaleState)
      else
        var bank := Post(s.bank, r.user, RefundPosting(i, r.amount), s.clock);
        if bank.Err? then Err(bank.error)
        else if KeyUsed(s.bank, RefundKey(i)) then Err(UniqueViolation)
        else Ok(s.(bank := bank.value, refunds := s.refunds[i := s.bank.nextId]))
  }

  function AdjustPosting(amount: int, ctx: Context): Posting {
    Posting(if amount > 0 then AdminCredit else AdminDebit, amount, 0, AdjustmentRef(ctx), AdjustKey(ctx))
  }

  function AdjustBalance(s: Tables, u: UserId, amount: int, reason: string, ctx: Context): Outcome<Tables> {
    if amount == 0 || Blank(reason) then Err(InvalidArgument)
    else if KeyUsed(s.bank, AdjustKey(ctx)) then Ok(s)
    else
      var bank := Post(s.bank, u, AdjustPosting(amount, ctx), s.clock);
      if bank.Err? then Err(bank.error) else Ok(s.(bank := bank.value))
  }

  // ---------------------------------------------------------------- top-ups

  function CreditPosting(t: TopupId, total: nat): Posting {
    Posting(TopupCredit, total, 0, TopupRef(t), CreditKey(t))
  }

  function ReversalPosting(t: TopupId, total: nat): Posting {
    Posting(TopupReversal, 0 - total, 0, TopupRef(t), ReversalKey(t))
  }

  /** The credit with its bonus: posting, usage row, top-up. */
  function Crediting(s: Tables, t: TopupId, principal: nat, day: nat, bonus: Bonus): Outcome<Tables>
    requires t < |s.topups| && (bonus.eligible ==> s.topups[t].promotion.Some?)
  {
    var topup := s.topups[t];
    var bank := Post(s.bank, topup.user, CreditPosting(t, principal + bonus.cents), s.clock);
    if bank.Err? then Err(bank.error)
    else
      Ok(s.(bank := bank.value,
            usages := if bonus.eligible
                      then RecordUsage(s.usages, Usage(t, topup.promotion.value, topup.user, day, principal, bonus.cents))
                      else s.usages,
            topups := s.topups[t := topup.(status := Credited, bonus := bonus.cents, lease := None)]))
  }

  function CreditRedeemedTopup(s: Tables, t: TopupId): Outcome<Tables> {
    if t >= |s.topups| then Err(NotFound)
    else
      var topup := s.topups[t];
      if topup.status == Credited then Ok(s)
      else if Credited !in TopupTransitions(topup.status) then Err(IllegalTransition)
      else if topup.amount.None? || !topup.thb then Err(EvidenceIncomplete)
      else
        var principal, day := topup.amount.value, BangkokDay(s.clock);
        var bonus := ResolvePromotionBonus(s.promotions, s.usages, topup.promotion, topup.user, principal, day);
        Crediting(s, t, principal, day, bonus)
  }

  /** What `reverse` does with a credited top-up. */
  function Reversing(s: Tables, t: TopupId, total: nat): Outcome<Tables>
    requires t < |s.topups|
  {
    if WalletOf(s.bank, s.topups[t].user).available < total
    then Ok(s.(reviews := OpenReview(s.reviews, TopupSubject(t), true)))
    else
      var bank := Post(s.bank, s.topups[t].user, ReversalPosting(t, total), s.clock);
      if bank.Err? then Err(bank.error)
      else Ok(s.(bank := bank.value, topups := s.topups[t := s.topups[t].(status := Reversed)]))
  }

  /** Too little available money does not reverse: it opens an owner review. */
  function ReverseTopup(s: Tables, t: TopupId, reason: string): Outcome<Tables> {
    if Blank(reason) then Err(InvalidArgument)
    else if t >= |s.topups| then Err(NotFound)
    else
      var topup := s.topups[t];
      if topup.status == Reversed then Ok(s)
      else if Reversed !in TopupTransitions(topup.status) then Err(IllegalTransition)
      else
        Reversing(s, t, (if topup.amount.Some? then topup.amount.value else 0) + topup.bonus)
  }
}
