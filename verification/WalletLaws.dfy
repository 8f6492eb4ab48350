/** Every money operation keeps the money and the settlement invariant. */
module WalletLaws {
  import opened Common
  import opened Ledger
  import opened Schema
  import opened Promotions
  import opened Wallet
  import opened Money
  import opened Settlement

  /** Money, settlement and promotion tables are all in order. */
  ghost predicate BooksOk(s: Tables) {
    && MoneyOk(s) && SettlementOk(s)
    && TiersOk(s.promotions) && CapsOk(s.promotions, s.usages) && BonusesOk(s)
  }

  /** A credited top-up's bonus is the one in its usage row, or zero without one;
      a usage row exists only for a credited or reversed top-up. */
  ghost predicate BonusesOk(s: Tables) {
    && (forall t | 0 <= t < |s.topups| && s.topups[t].status in {Credited, Reversed} ::
          !HasUsage(s.usages, t) ==> s.topups[t].bonus == 0)
    && (forall k | 0 <= k < |s.usages| :: UsageOk(s, s.usages[k]))
  }

  predicate UsageOk(s: Tables, x: Usage) {
    && x.topup < |s.topups| && s.topups[x.topup].status in {Credited, Reversed}
    && s.topups[x.topup].bonus == x.bonus && s.topups[x.topup].user == x.user
    && s.topups[x.topup].amount == Some(x.principal)
  }

  // ---------------------------------------------------------------- settle

  lemma SettleIsDue(s: Tables, i: ItemId, next: Stage, state: ReservationState)
    requires HasReservation(s, i) && s.items[i].reservation.value.state == Held && state != Held
    ensures var s' := SettleItem(s, i, next, state);
            var r := s.items[i].reservation.value;
            && DueGrows(s, s', r.user, if state == ReservationState.Captured then ForCapture(i) else ForRelease(i))
            && ReservedMoves(s, s', r.user, 0 - r.amount)
  {
    var s' := SettleItem(s, i, next, state);
    var r := s.items[i].reservation.value;
    forall v: UserId ensures ReservedSum(s'.items, v)
                             == ReservedSum(s.items, v) + (if v == r.user then 0 - r.amount else 0)
    {
      ReservedSumSet(s.items, i, s'.items[i], v);
    }
  }

  lemma NotYetSettled(s: Tables, i: ItemId)
    requires HasReservation(s, i) && s.items[i].reservation.value.state == Held
    ensures forall v: UserId :: !Due(s, v, ForCapture(i)) && !Due(s, v, ForRelease(i))
  {}

  /** Two tables that agree on bank, clock, items, refunds and top-ups agree on money. */
  lemma MoneyFrame(s: Tables, s': Tables)
    requires MoneyOk(s) && s'.bank == s.bank && s'.clock == s.clock
    requires s'.items == s.items && s'.refunds == s.refunds && s'.topups == s.topups
    ensures MoneyOk(s')
  {
    assert forall v: UserId, r: Purpose :: Due(s', v, r) <==> Due(s, v, r);
    assert forall r: Purpose :: Delta(s', r) == Delta(s, r);
    SameMoneyKeeps(s, s');
  }

  lemma CaptureKeepsMoney(s: Tables, i: ItemId, fence: Option<Claim>, ctx: Context)
    requires MoneyOk(s) && CaptureReservation(s, i, fence, ctx).Ok?
    ensures MoneyOk(CaptureReservation(s, i, fence, ctx).value)
  {
    var r := s.items[i].reservation.value;
    if r.state == Held {
      var mid := SettleItem(s, i, ReadyToClaim, ReservationState.Captured);
      var p := CapturePosting(i, r.amount, ctx);
      var posted := mid.(bank := Post(s.bank, r.user, p, s.clock).value);
      SettleIsDue(s, i, ReadyToClaim, ReservationState.Captured);
      NotYetSettled(s, i);
      DueFrame(s, mid, posted, r.user, ForCapture(i), p.deltaReserved);
      PostKeepsMoney(s, posted, r.user, p);
      FinalizeFrame(posted, s.items[i].order);
      MoneyFrame(posted, FinalizeOrder(posted, s.items[i].order));
    }
  }

  lemma ReleaseKeepsMoney(s: Tables, i: ItemId, terminal: Stage, fence: Option<Claim>, ctx: Context)
    requires MoneyOk(s) && ReleaseReservation(s, i, terminal, fence, ctx).Ok?
    ensures MoneyOk(ReleaseReservation(s, i, terminal, fence, ctx).value)
  {
    var r := s.items[i].reservation.value;
    if r.state == Held {
      var mid := SettleItem(s, i, terminal, ReservationState.Released);
      var p := ReleasePosting(i, r.amount, ctx);
      var posted := mid.(bank := Post(s.bank, r.user, p, s.clock).value);
      SettleIsDue(s, i, terminal, ReservationState.Released);
      NotYetSettled(s, i);
      DueFrame(s, mid, posted, r.user, ForRelease(i), p.deltaReserved);
      PostKeepsMoney(s, posted, r.user, p);
      FinalizeFrame(posted, s.items[i].order);
      MoneyFrame(posted, FinalizeOrder(posted, s.items[i].order));
    }
  }

  /** What is due does not depend on the bank or on the other tables. */
  lemma DueFrame(s: Tables, mid: Tables, s': Tables, u: UserId, q: Purpose, change: int)
    requires DueGrows(s, mid, u, q) && ReservedMoves(s, mid, u, change)
    requires s'.items == mid.items && s'.refunds == mid.refunds && s'.topups == mid.topups
    ensures DueGrows(s, s', u, q) && ReservedMoves(s, s', u, change)
    ensures Delta(s', q) == Delta(mid, q)
  {
    assert forall v: UserId, r: Purpose :: Due(s', v, r) <==> Due(mid, v, r);
    assert forall r: Purpose :: Delta(s', r) == Delta(mid, r);
  }

  /** Settling is never refused for lack of money: the wallet's reserved cents
      cover every open reservation. */
  lemma ReservedCoversItem(s: Tables, i: ItemId)
    requires MoneyOk(s) && HasReservation(s, i) && s.items[i].reservation.value.state == Held
    ensures var r := s.items[i].reservation.value;
            WalletOf(s.bank, r.user).reserved >= r.amount && WalletOf(s.bank, r.user).available >= 0
  {
    var r := s.items[i].reservation.value;
    BalancesNonnegative(s, r.user);
    assert MoneyAt(s, r.user, ForAdjustment, 0);
    ReservedSumCovers(s.items, i, r.user);
  }

  lemma {:induction false} ReservedSumCovers(items: seq<Item>, i: nat, u: UserId)
    requires i < |items|
    ensures ReservedSum(items, u) >= HeldBy(items[i], u)
  {
    if i == |items| - 1 { ReservedSumNonnegative(items[..i], u); }
    else { ReservedSumCovers(items[..|items| - 1], i, u); }
  }

  lemma SettleNeverInsufficient(s: Tables, i: ItemId, terminal: Stage, fence: Option<Claim>, ctx: Context)
    requires MoneyOk(s)
    ensures CaptureReservation(s, i, fence, ctx) != Err(InsufficientBalance)
    ensures ReleaseReservation(s, i, terminal, fence, ctx) != Err(InsufficientBalance)
  {
    if HasReservation(s, i) && s.items[i].reservation.value.state == Held { ReservedCoversItem(s, i); }
  }

  lemma SettlementFrame(s: Tables, s': Tables)
    requires SettlementOk(s) && s'.items == s.items && s'.orders == s.orders && s'.locks == s.locks
    ensures SettlementOk(s') && ReservationsKept(s, s')
  {
    assert forall i | 0 <= i < |s.items| :: StageMovedAt(s.items, s'.items, i);
    StagesMovedKeeps(s, s');
  }

  lemma FinalizeIgnoresBank(s: Tables, o: OrderId, bank: Bank)
    ensures var a, b := FinalizeOrder(s.(bank := bank), o), FinalizeOrder(s, o);
            a.items == b.items && a.orders == b.orders && a.locks == b.locks
  {}

  lemma SettlingKeepsSettlement(s: Tables, i: ItemId, next: Stage, state: ReservationState, bank: Bank)
    requires SettlementOk(s) && HasReservation(s, i) && s.items[i].reservation.value.state == Held
    requires if state == ReservationState.Captured then next == ReadyToClaim
             else state == ReservationState.Released && next in ReleasedStates
    ensures var s' := FinalizeOrder(SettleItem(s, i, next, state).(bank := bank), s.items[i].order);
            SettlementOk(s') && ReservationsKept(s, s')
  {
    var mid := FinalizeOrder(SettleItem(s, i, next, state), s.items[i].order);
    SettleKeeps(s, i, next, state);
    FinalizeIgnoresBank(SettleItem(s, i, next, state), s.items[i].order, bank);
    SettlementFrame(mid, FinalizeOrder(SettleItem(s, i, next, state).(bank := bank), s.items[i].order));
  }

  lemma CaptureKeepsSettlement(s: Tables, i: ItemId, fence: Option<Claim>, ctx: Context)
    requires SettlementOk(s) && CaptureReservation(s, i, fence, ctx).Ok?
    ensures var s' := CaptureReservation(s, i, fence, ctx).value; SettlementOk(s') && ReservationsKept(s, s')
  {
    var r := s.items[i].reservation.value;
    if r.state == Held {
      SettlingKeepsSettlement(s, i, ReadyToClaim, ReservationState.Captured,
                              Post(s.bank, r.user, CapturePosting(i, r.amount, ctx), s.clock).value);
    }
  }

  lemma ReleaseKeepsSettlement(s: Tables, i: ItemId, terminal: Stage, fence: Option<Claim>, ctx: Context)
    requires SettlementOk(s) && ReleaseReservation(s, i, terminal, fence, ctx).Ok?
    ensures var s' := ReleaseReservation(s, i, terminal, fence, ctx).value; SettlementOk(s') && ReservationsKept(s, s')
  {
    var r := s.items[i].reservation.value;
    if r.state == Held {
      SettlingKeepsSettlement(s, i, terminal, ReservationState.Released,
                              Post(s.bank, r.user, ReleasePosting(i, r.amount, ctx), s.clock).value);
    }
  }

  /** A capture that its guards admit succeeds, and takes exactly the item's amount from
      the reserved cents of its customer. */
  lemma CaptureSucceeds(s: Tables, i: ItemId, fence: Option<Claim>, ctx: Context)
    requires MoneyOk(s) && HasReservation(s, i) && s.items[i].reservation.value.state == Held
    requires ReadyToClaim in ItemTransitions(s.items[i].state)
    requires fence.Some? ==> fence.value.job == i && Owns(s, fence.value)
    ensures var o, r := CaptureReservation(s, i, fence, ctx), s.items[i].reservation.value;
            o.Ok? && WalletOf(o.value.bank, r.user) == Balance(WalletOf(s.bank, r.user).available,
                                                               WalletOf(s.bank, r.user).reserved - r.amount)
  {
    var r := s.items[i].reservation.value;
    ReservedCoversItem(s, i);
    NotYetSettled(s, i);
    MoneyParts(s);
    NotDueIsFresh(s, CaptureKey(ctx, i));
    PostUnfolds(s.bank, r.user, CapturePosting(i, r.amount, ctx), s.clock);
    BankOfFinal(SettleItem(s, i, ReadyToClaim, ReservationState.Captured).(
                  bank := Post(s.bank, r.user, CapturePosting(i, r.amount, ctx), s.clock).value), s.items[i].order);
  }

  lemma BankOfFinal(s: Tables, o: OrderId)
    ensures FinalizeOrder(s, o).bank == s.bank
  {}

  // ---------------------------------------------------------------- refund, adjust

  lemma RefundIsDue(s: Tables, s': Tables, i: ItemId)
    requires HasReservation(s, i) && i !in s.refunds && i in s'.refunds && s'.refunds.Keys == s.refunds.Keys + {i}
    requires s'.items == s.items && s'.topups == s.topups
    ensures DueGrows(s, s', s.items[i].reservation.value.user, ForRefund(i))
    ensures ReservedMoves(s, s', s.items[i].reservation.value.user, 0)
    ensures forall v: UserId :: !Due(s, v, ForRefund(i))
  {
    assert forall q: Purpose :: Delta(s', q) == Delta(s, q);
  }

  lemma RefundKeepsMoney(s: Tables, i: ItemId, reason: string, expected: Option<nat>)
    requires MoneyOk(s) && RefundCapturedItem(s, i, reason, expected).Ok?
    ensures MoneyOk(RefundCapturedItem(s, i, reason, expected).value)
  {
    if i !in s.refunds {
      var r := s.items[i].reservation.value;
      var s' := RefundCapturedItem(s, i, reason, expected).value;
      RefundIsDue(s, s', i);
      PostKeepsMoney(s, s', r.user, RefundPosting(i, r.amount));
    }
  }

  /** A captured item that has no refund yet is always refunded in full: neither
      the balance nor the ledger key can stand in the way. */
  lemma RefundAlwaysPossible(s: Tables, i: ItemId, reason: string)
    requires MoneyOk(s) && !Blank(reason) && HasReservation(s, i) && i !in s.refunds
    requires s.items[i].reservation.value.state == ReservationState.Captured
    ensures var s' := RefundCapturedItem(s, i, reason, None);
            var r := s.items[i].reservation.value;
            s'.Ok? && WalletOf(s'.value.bank, r.user) == Balance(WalletOf(s.bank, r.user).available + r.amount,
                                                                WalletOf(s.bank, r.user).reserved)
  {
    var r := s.items[i].reservation.value;
    BalancesNonnegative(s, r.user);
    assert forall v: UserId :: !Due(s, v, ForRefund(i));
    MoneyParts(s);
    NotDueIsFresh(s, RefundKey(i));
  }

  lemma NothingMoreDue(s: Tables, s': Tables, u: UserId)
    requires s' == s.(bank := s'.bank)
    ensures DueGrows(s, s', u, ForAdjustment) && ReservedMoves(s, s', u, 0)
  {
    assert forall v: UserId, r: Purpose :: Due(s', v, r) <==> Due(s, v, r);
    assert forall r: Purpose :: Delta(s', r) == Delta(s, r);
  }

  lemma AdjustKeepsMoney(s: Tables, u: UserId, amount: int, reason: string, ctx: Context)
    requires MoneyOk(s) && AdjustBalance(s, u, amount, reason, ctx).Ok?
    ensures MoneyOk(AdjustBalance(s, u, amount, reason, ctx).value)
  {
    if !KeyUsed(s.bank, AdjustKey(ctx)) {
      var s' := AdjustBalance(s, u, amount, reason, ctx).value;
      NothingMoreDue(s, s', u);
      PostKeepsMoney(s, s', u, AdjustPosting(amount, ctx));
    }
  }

  // ---------------------------------------------------------------- top-ups

  /** Replacing one top-up row by a credited or reversed one. */
  lemma TopupBecomesDue(s: Tables, s': Tables, t: TopupId, q: Purpose)
    requires t < |s.topups| == |s'.topups| && s'.items == s.items && s'.refunds == s.refunds
    requires s'.topups == s.topups[t := s'.topups[t]] && s'.topups[t].user == s.topups[t].user
    requires if s'.topups[t].status == Credited
             then q == ForCredit(t) && s.topups[t].status !in {Credited, Reversed}
             else q == ForReversal(t) && s'.topups[t] == s.topups[t].(status := Reversed) && s.topups[t].status == Credited
    ensures DueGrows(s, s', s.topups[t].user, q) && ReservedMoves(s, s', s.topups[t].user, 0)
    ensures forall v: UserId :: !Due(s, v, q)
  {
    forall v: UserId, r: Purpose | Due(s, v, r) ensures Delta(s', r) == Delta(s, r) {
      if r.ForCredit? || r.ForReversal? { assert r.topup != t || s.topups[t].status == Credited; }
    }
  }

  lemma CreditKeepsMoney(s: Tables, t: TopupId)
    requires MoneyOk(s) && CreditRedeemedTopup(s, t).Ok?
    ensures MoneyOk(CreditRedeemedTopup(s, t).value)
  {
    if s.topups[t].status != Credited {
      var s' := CreditRedeemedTopup(s, t).value;
      TopupBecomesDue(s, s', t, ForCredit(t));
      PostKeepsMoney(s, s', s.topups[t].user, CreditPosting(t, TopupTotal(s', t)));
    }
  }

  lemma ReversalPosted(s: Tables, t: TopupId, s': Tables)
    requires MoneyOk(s) && t < |s.topups| && s.topups[t].status == Credited
    requires s' == s.(bank := s'.bank, topups := s.topups[t := s.topups[t].(status := Reversed)])
    requires s.topups[t].amount.Some?
    requires Post(s.bank, s.topups[t].user, ReversalPosting(t, s.topups[t].bonus + s.topups[t].amount.value), s.clock)
             == Ok(s'.bank)
    ensures MoneyOk(s')
  {
    TopupBecomesDue(s, s', t, ForReversal(t));
    PostKeepsMoney(s, s', s.topups[t].user, ReversalPosting(t, s.topups[t].bonus + s.topups[t].amount.value));
  }

  lemma ReversingKeepsMoney(s: Tables, t: TopupId, total: nat)
    requires MoneyOk(s) && t < |s.topups| && s.topups[t].status == Credited && s.topups[t].amount.Some?
    requires total == s.topups[t].amount.value + s.topups[t].bonus && Reversing(s, t, total).Ok?
    ensures MoneyOk(Reversing(s, t, total).value)
  {
    var s' := Reversing(s, t, total).value;
    if WalletOf(s.bank, s.topups[t].user).available < total {
      assert s' == s.(reviews := s'.reviews);
      MoneyFrame(s, s');
    } else {
      assert Post(s.bank, s.topups[t].user, ReversalPosting(t, total), s.clock) == Ok(s'.bank);
      ReversalPosted(s, t, s');
    }
  }

  lemma ReverseKeepsMoney(s: Tables, t: TopupId, reason: string)
    requires MoneyOk(s) && ReverseTopup(s, t, reason).Ok?
    requires s.topups[t].status == Credited ==> s.topups[t].amount.Some?
    ensures MoneyOk(ReverseTopup(s, t, reason).value)
  {
    var s' := ReverseTopup(s, t, reason).value;
    if s.topups[t].status == Credited {
      var total := s.topups[t].amount.value + s.topups[t].bonus;
      assert ReverseTopup(s, t, reason) == Reversing(s, t, total);
      ReversingKeepsMoney(s, t, total);
    } else {
      assert s' == s;
    }
  }

  lemma CreditKeepsBonuses(s: Tables, t: TopupId)
    requires BonusesOk(s) && TiersOk(s.promotions) && CapsOk(s.promotions, s.usages) && CreditRedeemedTopup(s, t).Ok?
    ensures var s' := CreditRedeemedTopup(s, t).value;
            BonusesOk(s') && CapsOk(s'.promotions, s'.usages) && s'.promotions == s.promotions
  {
    var topup := s.topups[t];
    if topup.status != Credited {
      var s' := CreditRedeemedTopup(s, t).value;
      var bonus := ResolvePromotionBonus(s.promotions, s.usages, topup.promotion, topup.user, topup.amount.value,
                                         BangkokDay(s.clock));
      assert !HasUsage(s.usages, t);
      if bonus.eligible {
        CreditKeepsCaps(s.promotions, s.usages, topup.promotion.value, topup.user, t, topup.amount.value, BangkokDay(s.clock));
        assert s'.usages[|s.usages|].topup == t;
      }
      forall k | 0 <= k < |s'.usages| ensures UsageOk(s', s'.usages[k]) {
        if k < |s.usages| { assert UsageOk(s, s.usages[k]); }
      }
      forall u | 0 <= u < |s'.topups| && s'.topups[u].status in {Credited, Reversed} && !HasUsage(s'.usages, u)
        ensures s'.topups[u].bonus == 0
      {
        assert forall k | 0 <= k < |s.usages| :: s'.usages[k] == s.usages[k];
      }
    }
  }

  // ---------------------------------------------------------------- reserve

  lemma ItemBecomesReserved(s: Tables, s': Tables, u: UserId, i: ItemId, x: Item)
    requires i < |s.items| && s.items[i].reservation.None? && s'.items == s.items[i := x]
    requires s'.refunds == s.refunds && s'.topups == s.topups && i !in s.refunds
    requires x.reservation.Some? && x.reservation.value.user == u && x.reservation.value.state == Held
    ensures DueGrows(s, s', u, ForReserve(i)) && ReservedMoves(s, s', u, x.reservation.value.amount)
    ensures forall v: UserId :: !Due(s, v, ForReserve(i))
  {
    forall v: UserId
      ensures ReservedSum(s'.items, v) == ReservedSum(s.items, v) + (if v == u then x.reservation.value.amount else 0)
    {
      ReservedSumSet(s.items, i, x, v);
    }
  }

  lemma ReserveOneKeepsMoney(s: Tables, u: UserId, r: Request, ctx: Context)
    requires MoneyOk(s) && ReserveOne(s, u, r, ctx).Ok? && r.item !in s.refunds
    ensures MoneyOk(ReserveOne(s, u, r, ctx).value)
    ensures PostedOnly(s.bank, ReserveOne(s, u, r, ctx).value.bank, u, ReservePosting(r, ctx), s.clock)
  {
    var s' := ReserveOne(s, u, r, ctx).value;
    ItemBecomesReserved(s, s', u, r.item, s'.items[r.item]);
    PostKeepsMoney(s, s', u, ReservePosting(r, ctx));
  }

  /** The request charges the item's price to the order's customer. */
  predicate Priced(s: Tables, u: UserId, r: Request) {
    r.item < |s.items| ==> s.items[r.item].price == r.amount
                           && (s.items[r.item].order < |s.orders| ==> s.orders[s.items[r.item].order].user == u)
  }

  lemma ReserveOneKeepsSettlement(s: Tables, u: UserId, r: Request, ctx: Context)
    requires SettlementOk(s) && ReserveOne(s, u, r, ctx).Ok? && Priced(s, u, r)
    ensures var s' := ReserveOne(s, u, r, ctx).value; SettlementOk(s') && ReservationsKept(s, s')
  {
    var s' := ReserveOne(s, u, r, ctx).value;
    assert RowsOk(s, r.item);
    forall k: nat ensures RowsOk(s', k) {
      assert RowsOk(s, k);
      if k < |s.items| && k != r.item { ItemOkFrame(s, s', k); }
      if k < |s.orders| && OrderActive(s.items, k) {
        var i :| 0 <= i < |s.items| && s.items[i].order == k && s.items[i].state !in TerminalItemStates;
        assert s'.items[i].order == k && s'.items[i].state !in TerminalItemStates;
      }
    }
  }

  /** What reserving leaves alone. */
  ghost predicate OnlyBankAndItems(s: Tables, s': Tables) {
    s' == s.(bank := s'.bank, items := s'.items) && |s'.items| == |s.items|
    && forall i | 0 <= i < |s.items| :: s'.items[i].order == s.items[i].order && s'.items[i].price == s.items[i].price
  }

  lemma {:induction false} ReserveEachKeeps(s: Tables, u: UserId, rs: seq<Request>, ctx: Context)
    requires MoneyOk(s) && SettlementOk(s) && ReserveEach(s, u, rs, ctx).Ok?
    requires forall k | 0 <= k < |rs| :: rs[k].item !in s.refunds
    requires forall k | 0 <= k < |rs| :: Priced(s, u, rs[k])
    ensures var s' := ReserveEach(s, u, rs, ctx).value;
            MoneyOk(s') && SettlementOk(s') && ReservationsKept(s, s') && OnlyBankAndItems(s, s')
    decreases |rs|
  {
    if rs != [] {
      var mid := ReserveOne(s, u, rs[0], ctx).value;
      ReserveOneKeepsMoney(s, u, rs[0], ctx);
      ReserveOneKeepsSettlement(s, u, rs[0], ctx);
      ReserveEachKeeps(mid, u, rs[1..], ctx);
    }
  }

  /** An item that can be reserved: selected, without a reservation or a refund. */
  predicate Reservable(s: Tables, r: Request) {
    && r.item < |s.items| && r.amount > 0 && r.item !in s.refunds
    && s.items[r.item].state == Selected && s.items[r.item].reservation.None?
  }

  predicate ReservableAt(s: Tables, rs: seq<Request>, k: nat)
    requires k < |rs|
  {
    Reservable(s, rs[k]) && forall j | 0 <= j < k :: rs[j].item != rs[k].item
  }

  /** Every requested item can be reserved and none is requested twice. */
  ghost predicate AllReservable(s: Tables, rs: seq<Request>) {
    forall k: nat | k < |rs| :: ReservableAt(s, rs, k)
  }

  function ReservedItem(x: Item, u: UserId, amount: nat): Item {
    x.(state := Stage.Reserved, reservation := Some(Reservation(u, amount, Held, 1)))
  }

  /** The requested amount for an item, none when it is not requested. */
  function Requested(rs: seq<Request>, i: ItemId): Option<nat> {
    if rs == [] then None else if rs[0].item == i then Some(rs[0].amount) else Requested(rs[1..], i)
  }

  /** The state after reserving, seen at one item and at one user. */
  ghost predicate ReservedAt(s: Tables, o: Outcome<Tables>, u: UserId, rs: seq<Request>, i: nat, v: UserId) {
    && o.Ok? && |o.value.items| == |s.items|
    && o.value == s.(bank := o.value.bank, items := o.value.items)
    && (i < |s.items| ==>
          o.value.items[i] == if Requested(rs, i).Some? then ReservedItem(s.items[i], u, Requested(rs, i).value)
                              else s.items[i])
    && WalletOf(o.value.bank, v) == if v == u then Balance(WalletOf(s.bank, u).available - Total(rs),
                                                          WalletOf(s.bank, u).reserved + Total(rs))
                                    else WalletOf(s.bank, v)
  }

  lemma FirstReserves(s: Tables, u: UserId, r: Request, ctx: Context)
    requires MoneyOk(s) && Reservable(s, r) && WalletOf(s.bank, u).available >= r.amount
    ensures var o := ReserveOne(s, u, r, ctx);
            && o.Ok? && MoneyOk(o.value)
            && o.value == s.(bank := o.value.bank, items := s.items[r.item := ReservedItem(s.items[r.item], u, r.amount)])
            && PostedOnly(s.bank, o.value.bank, u, ReservePosting(r, ctx), s.clock)
  {
    BalancesNonnegative(s, u);
    ReserveOneKeepsMoney(s, u, r, ctx);
  }

  lemma {:induction false} RequestedOnce(rs: seq<Request>, s: Tables, k: nat)
    requires AllReservable(s, rs) && k < |rs|
    ensures Requested(rs, rs[k].item) == Some(rs[k].amount)
  {
    assert ReservableAt(s, rs, k);
    if k > 0 {
      RestReservable(s, s, rs);
      RequestedOnce(rs[1..], s, k - 1);
    }
  }

  lemma {:induction false} NotRequested(rs: seq<Request>, i: ItemId)
    requires forall k | 0 <= k < |rs| :: rs[k].item != i
    ensures Requested(rs, i).None?
  {
    if rs != [] { NotRequested(rs[1..], i); }
  }

  lemma {:induction false} RestReservable(s: Tables, mid: Tables, rs: seq<Request>)
    requires AllReservable(s, rs) && rs != [] && mid.refunds == s.refunds && |mid.items| == |s.items|
    requires forall i | 0 <= i < |s.items| && i != rs[0].item :: mid.items[i] == s.items[i]
    ensures AllReservable(mid, rs[1..]) && Requested(rs[1..], rs[0].item).None?
  {
    var rest := rs[1..];
    forall k: nat | k < |rest| ensures ReservableAt(mid, rest, k) && rest[k].item != rs[0].item {
      assert ReservableAt(s, rs, k + 1) && rest[k] == rs[k + 1] && rs[0].item != rs[k + 1].item;
      forall j | 0 <= j < k ensures rest[j].item != rest[k].item { assert rest[j] == rs[j + 1]; }
    }
    NotRequested(rest, rs[0].item);
  }

  /** The total check before the loop is enough: once it passes, no guard inside
      the loop can fail, and exactly the total moves from available to reserved. */
  lemma {:induction false} TotalCheckSuffices(s: Tables, u: UserId, rs: seq<Request>, ctx: Context)
    requires MoneyOk(s) && AllReservable(s, rs) && WalletOf(s.bank, u).available >= Total(rs)
    ensures forall i: nat, v: UserId :: ReservedAt(s, ReserveEach(s, u, rs, ctx), u, rs, i, v)
    decreases |rs|
  {
    if rs != [] {
      assert ReservableAt(s, rs, 0);
      FirstReserves(s, u, rs[0], ctx);
      var mid := ReserveOne(s, u, rs[0], ctx).value;
      RestReservable(s, mid, rs);
      TotalCheckSuffices(mid, u, rs[1..], ctx);
      forall i: nat, v: UserId ensures ReservedAt(s, ReserveEach(s, u, rs, ctx), u, rs, i, v) {
        assert ReservedAt(mid, ReserveEach(mid, u, rs[1..], ctx), u, rs[1..], i, v);
      }
    }
  }
}
