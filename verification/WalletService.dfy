/** The wallet transactions as they run: they write the tables row by row, and a refused
    one leaves them as it found them. */
module WalletService {
  import opened Common
  import opened Ledger
  import opened Schema
  import opened Promotions
  import opened Wallet
  import opened Retention

  // ---------------------------------------------------------------- ledger

  /** `lockWallet` and `updateWallet`: the only writer of balances. */
  method UpdateWallet(db: Database, u: UserId, p: Posting) returns (before: Balance, error: Option<Error>)
    modifies db`bank
    ensures before == WalletOf(old(db.bank), u)
    ensures var after := AfterPosting(before, p);
            if after.available < 0 || after.reserved < 0 then error == Some(InsufficientBalance) && db.bank == old(db.bank)
            else error == None && db.bank == old(db.bank).(wallets := old(db.bank).wallets[u := after])
  {
    before := WalletOf(db.bank, u);
    var available, reserved := before.available + p.deltaAvailable, before.reserved + p.deltaReserved;
    if available < 0 || reserved < 0 { return before, Some(InsufficientBalance); }
    db.bank := db.bank.(wallets := db.bank.wallets[u := Balance(available, reserved)]);
    error := None;
  }

  /** `appendLedger` */
  method AppendRow(db: Database, u: UserId, p: Posting, before: Balance)
    modifies db`bank
    ensures db.bank == AppendLedger(old(db.bank), u, p, before, db.clock)
  {
    if KeyUsed(db.bank, p.key) { return; }
    var book := BookOf(db.bank, u);
    var after := AfterPosting(before, p);
    var previous := PreviousHash(book);
    var row := Entry(db.bank.nextId, p.kind, p.deltaAvailable, p.deltaReserved, before, after, p.reference, p.key, previous,
                     LedgerHash(u, db.bank.nextId, p, after, previous), db.clock);
    db.bank := db.bank.(books := db.bank.books[u := book.(entries := book.entries + [row])], nextId := db.bank.nextId + 1);
  }

  method PostRow(db: Database, u: UserId, p: Posting) returns (error: Option<Error>)
    modifies db`bank
    ensures var o := Post(old(db.bank), u, p, db.clock); db.bank == Settled(o, old(db.bank)) && error == ErrorOf(o)
  {
    var before;
    before, error := UpdateWallet(db, u, p);
    if error == None { AppendRow(db, u, p, before); }
  }

  /** `finalizeOrderIfTerminal` */
  method Finalize(db: Database, o: OrderId)
    modifies db`orders, db`locks
    ensures db.Read() == FinalizeOrder(old(db.Read()), o)
  {
    if OrderActive(db.items, o) || o >= |db.orders| || db.orders[o].completed { return; }
    db.orders := db.orders[o := db.orders[o].(completed := true, credential := false)];
    db.locks := LocksWithout(db.locks, o);
  }

  // ---------------------------------------------------------------- reserve

  method SumCents(requests: seq<Request>) returns (total: nat)
    ensures total == Total(requests)
  {
    total := 0;
    var i := |requests|;
    while i > 0
      invariant 0 <= i <= |requests| && total == Total(requests[i..])
    {
      i := i - 1;
      assert requests[i..][1..] == requests[i + 1..];
      total := requests[i].amount + total;
    }
    assert requests[0..] == requests;
  }

  method ReserveRow(db: Database, u: UserId, r: Request, ctx: Context) returns (error: Option<Error>)
    modifies db`bank, db`items
    ensures error == ErrorOf(ReserveOne(old(db.Read()), u, r, ctx))
    ensures error == None ==> db.Read() == ReserveOne(old(db.Read()), u, r, ctx).value
  {
    error := PostRow(db, u, ReservePosting(r, ctx));
    if error != None { return; }
    if r.item >= |db.items| { return Some(ForeignKeyViolation); }
    if db.items[r.item].reservation.Some? { return Some(UniqueViolation); }
    if r.amount == 0 { return Some(InvalidArgument); }
    if db.items[r.item].state != Selected { return Some(StaleState); }
    db.items := db.items[r.item := db.items[r.item].(state := Stage.Reserved,
                                                     reservation := Some(Reservation(u, r.amount, Held, 1)))];
  }

  /** `reserve`: the loop spends from the wallet it just updated; any refusal rolls the
      whole call back. */
  method ReserveBalance(db: Database, u: UserId, requests: seq<Request>, ctx: Context) returns (error: Option<Error>)
    modifies db`bank, db`items
    ensures Committed(old(db.Read()), db.Read(), error, ReserveItems(old(db.Read()), u, requests, ctx))
  {
    if requests == [] { return Some(InvalidArgument); }
    var total := SumCents(requests);
    if WalletOf(db.bank, u).available < total { return Some(InsufficientBalance); }
    var bank, items := db.bank, db.items;
    error := None;
    var i := 0;
    assert requests[0..] == requests;
    while i < |requests|
      invariant 0 <= i <= |requests| && error == None
      invariant ReserveEach(old(db.Read()), u, requests, ctx) == ReserveEach(db.Read(), u, requests[i..], ctx)
      invariant db.Read() == old(db.Read()).(bank := db.bank, items := db.items)
    {
      assert requests[i..][0] == requests[i] && requests[i..][1..] == requests[i + 1..];
      ghost var s := db.Read();
      error := ReserveRow(db, u, requests[i], ctx);
      if error != None {
        assert ReserveEach(s, u, requests[i..], ctx) == ReserveOne(s, u, requests[i], ctx);
        db.bank, db.items := bank, items;
        return;
      }
      i := i + 1;
    }
    assert requests[i..] == [];
  }

  // ---------------------------------------------------------------- settle

  /** The item and its reservation are written together. */
  method WriteSettled(db: Database, i: ItemId, next: Stage, state: ReservationState)
    requires HasReservation(db.Read(), i)
    modifies db`items
    ensures db.Read() == SettleItem(old(db.Read()), i, next, state)
  {
    var r := db.items[i].reservation.value;
    var progress := if next == ReadyToClaim then 100 else db.items[i].progress;
    db.items := db.items[i := db.items[i].(state := next, progress := progress,
                                           reservation := Some(r.(state := state, version := r.version + 1)))];
  }

  /** The transaction that settles a held item: posting, item, reservation, order. */
  ghost function SettledWith(s: Tables, i: ItemId, p: Posting, next: Stage, state: ReservationState): Outcome<Tables>
    requires HasReservation(s, i)
  {
    var bank := Post(s.bank, s.items[i].reservation.value.user, p, s.clock);
    if bank.Err? then Err(bank.error)
    else Ok(FinalizeOrder(SettleItem(s, i, next, state).(bank := bank.value), s.items[i].order))
  }

  method Settle(db: Database, i: ItemId, p: Posting, next: Stage, state: ReservationState) returns (error: Option<Error>)
    requires HasReservation(db.Read(), i)
    modifies db`bank, db`items, db`orders, db`locks
    ensures Committed(old(db.Read()), db.Read(), error, SettledWith(old(db.Read()), i, p, next, state))
  {
    ghost var s := db.Read();
    error := PostRow(db, db.items[i].reservation.value.user, p);
    if error == None {
      assert db.Read() == s.(bank := db.bank);
      WriteSettled(db, i, next, state);
      assert db.Read() == SettleItem(s, i, next, state).(bank := db.bank);
      Finalize(db, db.items[i].order);
    }
  }

  /** `capture` */
  method Capture(db: Database, i: ItemId, fence: Option<Claim>, ctx: Context) returns (error: Option<Error>)
    modifies db`bank, db`items, db`orders, db`locks
    ensures Committed(old(db.Read()), db.Read(), error, CaptureReservation(old(db.Read()), i, fence, ctx))
  {
    if fence.Some? && !(fence.value.job == i && Owns(db.Read(), fence.value)) { return Some(FencingLost); }
    if !HasReservation(db.Read(), i) { return Some(ReservationNotFound); }
    var r := db.items[i].reservation.value;
    if r.state == ReservationState.Captured { return None; }
    if r.state != Held { return Some(ReservationNotActive); }
    if ReadyToClaim !in ItemTransitions(db.items[i].state) { return Some(IllegalTransition); }
    error := Settle(db, i, CapturePosting(i, r.amount, ctx), ReadyToClaim, ReservationState.Captured);
  }

  /** `release` */
  method Release(db: Database, i: ItemId, terminal: Stage, fence: Option<Claim>, ctx: Context) returns (error: Option<Error>)
    modifies db`bank, db`items, db`orders, db`locks
    ensures Committed(old(db.Read()), db.Read(), error, ReleaseReservation(old(db.Read()), i, terminal, fence, ctx))
  {
    if terminal !in ReleasedStates { return Some(InvalidArgument); }
    if fence.Some? && !(fence.value.job == i && Owns(db.Read(), fence.value)) { return Some(FencingLost); }
    if !HasReservation(db.Read(), i) { return Some(ReservationNotFound); }
    var r := db.items[i].reservation.value;
    if r.state == ReservationState.Released { return None; }
    if r.state != Held { return Some(ReservationCaptured); }
    if terminal !in ItemTransitions(db.items[i].state) { return Some(IllegalTransition); }
    error := Settle(db, i, ReleasePosting(i, r.amount, ctx), terminal, ReservationState.Released);
  }

  // ---------------------------------------------------------------- refund, adjust

  /** `refund` */
  method Refund(db: Database, i: ItemId, reason: string, expected: Option<nat>) returns (error: Option<Error>)
    modifies db`bank, db`refunds
    ensures Committed(old(db.Read()), db.Read(), error, RefundCapturedItem(old(db.Read()), i, reason, expected))
  {
    if Blank(reason) { return Some(InvalidArgument); }
    if i in db.refunds { return None; }
    if !HasReservation(db.Read(), i) { return Some(ReservationNotFound); }
    var r := db.items[i].reservation.value;
    if r.state != ReservationState.Captured { return Some(RefundNotCaptured); }
    if expected.Some? && r.version != expected.value { return Some(StaleState); }
    var bank := db.bank;
    error := PostRow(db, r.user, RefundPosting(i, r.amount));
    if error != None { return; }
    if KeyUsed(bank, RefundKey(i)) {
      db.bank := bank;
      return Some(UniqueViolation);
    }
    db.refunds := db.refunds[i := bank.nextId];
  }

  /** `adjust` */
  method Adjust(db: Database, u: UserId, amount: int, reason: string, ctx: Context) returns (error: Option<Error>)
    modifies db`bank
    ensures Committed(old(db.Read()), db.Read(), error, AdjustBalance(old(db.Read()), u, amount, reason, ctx))
  {
    if amount == 0 || Blank(reason) { return Some(InvalidArgument); }
    if KeyUsed(db.bank, AdjustKey(ctx)) { return None; }
    error := PostRow(db, u, AdjustPosting(amount, ctx));
  }

  // ---------------------------------------------------------------- top-ups

  /** `creditRedeemedTopup` */
  method Credit(db: Database, t: TopupId) returns (error: Option<Error>)
    modifies db`bank, db`usages, db`topups
    ensures Committed(old(db.Read()), db.Read(), error, CreditRedeemedTopup(old(db.Read()), t))
  {
    if t >= |db.topups| { return Some(NotFound); }
    var topup := db.topups[t];
    if topup.status == Credited { return None; }
    if Credited !in TopupTransitions(topup.status) { return Some(IllegalTransition); }
    if topup.amount.None? || !topup.thb { return Some(EvidenceIncomplete); }
    var principal, day := topup.amount.value, BangkokDay(db.clock);
    var bonus := ResolvePromotionBonus(db.promotions, db.usages, topup.promotion, topup.user, principal, day);
    assert CreditRedeemedTopup(db.Read(), t) == Crediting(db.Read(), t, principal, day, bonus);
    error := WriteCredit(db, t, principal, day, bonus);
  }

  method WriteCredit(db: Database, t: TopupId, principal: nat, day: nat, bonus: Bonus) returns (error: Option<Error>)
    requires t < |db.topups| && (bonus.eligible ==> db.topups[t].promotion.Some?)
    modifies db`bank, db`usages, db`topups
    ensures Committed(old(db.Read()), db.Read(), error, Crediting(old(db.Read()), t, principal, day, bonus))
  {
    var topup := db.topups[t];
    error := PostRow(db, topup.user, CreditPosting(t, principal + bonus.cents));
    if error != None { return; }
    if bonus.eligible {
      db.usages := RecordUsage(db.usages, Usage(t, topup.promotion.value, topup.user, day, principal, bonus.cents));
    }
    db.topups := db.topups[t := topup.(status := Credited, bonus := bonus.cents, lease := None)];
  }

  method PostReversal(db: Database, t: TopupId, total: nat) returns (error: Option<Error>)
    requires t < |db.topups|
    modifies db`bank, db`topups, db`reviews
    ensures Committed(old(db.Read()), db.Read(), error, Reversing(old(db.Read()), t, total))
  {
    if WalletOf(db.bank, db.topups[t].user).available < total {
      db.reviews := OpenReview(db.reviews, TopupSubject(t), true);
      return None;
    }
    error := PostRow(db, db.topups[t].user, ReversalPosting(t, total));
    if error == None { db.topups := db.topups[t := db.topups[t].(status := Reversed)]; }
  }

  /** `reverse` */
  method Reverse(db: Database, t: TopupId, reason: string) returns (error: Option<Error>)
    modifies db`bank, db`topups, db`reviews
    ensures Committed(old(db.Read()), db.Read(), error, ReverseTopup(old(db.Read()), t, reason))
  {
    if Blank(reason) { return Some(InvalidArgument); }
    if t >= |db.topups| { return Some(NotFound); }
    var topup := db.topups[t];
    if topup.status == Reversed { return None; }
    if Reversed !in TopupTransitions(topup.status) { return Some(IllegalTransition); }
    var total := (if topup.amount.Some? then topup.amount.value else 0) + topup.bonus;
    assert ReverseTopup(db.Read(), t, reason) == Reversing(db.Read(), t, total);
    error := PostReversal(db, t, total);
  }

  // ---------------------------------------------------------------- pruning

  /** `questshop_prune_wallet_ledger`, for users taken in collation order. */
  method PruneWalletLedger(db: Database, order: seq<UserId>, cutoff: nat, limit: int) returns (error: Option<Error>)
    modifies db`bank
    ensures Committed(old(db.Read()), db.Read(), error, PruneTables(old(db.Read()), order, cutoff, limit))
  {
    if limit < 1 || limit > 500 { return Some(InvalidArgument); }
    var bank := db.bank;
    var held, pinned := HeldUsers(db.Read()), db.refunds.Values;
    var budget: nat := limit;
    var i := 0;
    assert order[0..] == order;
    while i < |order|
      invariant 0 <= i <= |order|
      invariant PruneBooks(bank, order, cutoff, limit, held) == PruneBooks(db.bank, order[i..], cutoff, budget, held)
    {
      assert order[i..][0] == order[i] && order[i..][1..] == order[i + 1..];
      var u := order[i];
      if u !in held && u in db.bank.books {
        var book := db.bank.books[u];
        var gone := |Candidates(book.entries, cutoff, budget)|;
        db.bank := db.bank.(books := db.bank.books[u := PruneBook(book, cutoff, budget)]);
        budget := if gone <= budget then budget - gone else 0;
      }
      i := i + 1;
    }
    assert order[i..] == [];
    if DeletesPinned(bank, db.bank, pinned) {
      db.bank := bank;
      return Some(ForeignKeyViolation);
    }
    error := None;
  }
}
