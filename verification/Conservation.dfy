/** What the invariant says about money: the three representations agree, every
    top-up and every item has exactly the net effect its rows say. */
module Conservation {
  import opened Common
  import opened Ledger
  import opened Schema
  import opened Money
  import opened Retention
  import opened Frames
  import opened Payments

  /** Every surviving row starts where the one before it, or the newest checkpoint,
      ended, in money and in hash. */
  predicate Linked(bk: Book, i: nat) {
    i < |bk.entries| ==>
      && (i > 0 ==> bk.entries[i].before == bk.entries[i - 1].after
                    && bk.entries[i].previousHash == Some(bk.entries[i - 1].entryHash))
      && (i == 0 ==> bk.entries[0].before == Anchor(bk)
                     && bk.entries[0].previousHash
                        == if |bk.checkpoints| > 0 then Some(bk.checkpoints[|bk.checkpoints| - 1].chainHash) else None)
  }

  lemma SurvivorsLinked(u: UserId, bk: Book, i: nat)
    requires Chained(u, History(bk)) && Anchored(bk)
    ensures Linked(bk, i)
  {
    var k := |bk.archived|;
    if i < |bk.entries| {
      assert LinkOk(u, History(bk), k + i) && History(bk)[k + i] == bk.entries[i];
      if i > 0 { assert History(bk)[k + i - 1] == bk.entries[i - 1]; }
    }
  }

  /** The wallet is non-negative, its reserved cents are those of the open
      reservations, and it is where the surviving ledger rows lead. */
  ghost predicate WalletAgrees(s: Tables, u: UserId) {
    var w, bk := WalletOf(s.bank, u), BookOf(s.bank, u);
    && w.available >= 0 && w.reserved >= 0 && w.reserved == ReservedSum(s.items, u)
    && Replay(Anchor(bk), bk.entries) == w
    && (|bk.entries| > 0 ==> bk.entries[|bk.entries| - 1].after == w)
  }

  /** The three representations of the same cents agree in every state that
      satisfies the invariant: wallet, open reservations, ledger with checkpoint. */
  lemma TripleAgreement(s: Tables, u: UserId)
    requires Inv(s)
    ensures WalletAgrees(s, u) && forall i: nat :: Linked(BookOf(s.bank, u), i)
  {
    AllAspects(s);
    var bk := BookOf(s.bank, u);
    assert MoneyAt(s, u, ForAdjustment, 0);
    BalancesNonnegative(s, u);
    SurvivorsReplayToWallet(u, WalletOf(s.bank, u), bk);
    forall i: nat ensures Linked(bk, i) { SurvivorsLinked(u, bk, i); }
  }

  // ---------------------------------------------------------------- net effects

  function Plus(a: Balance, b: Balance): Balance {
    Balance(a.available + b.available, a.reserved + b.reserved)
  }

  function Times(n: nat, a: Balance): Balance {
    if n == 0 then Balance(0, 0) else Plus(Times(n - 1, a), a)
  }

  /** Cents that the rows of one purpose moved. */
  function Moved(es: seq<Entry>, q: Purpose): Balance {
    if |es| == 0 then Balance(0, 0)
    else
      var e := es[|es| - 1];
      Plus(Moved(es[..|es| - 1], q),
           if PurposeOf(e.key) == q then Balance(e.deltaAvailable, e.deltaReserved) else Balance(0, 0))
  }

  lemma {:induction false} MovedIsCount(s: Tables, es: seq<Entry>, q: Purpose)
    requires q != ForAdjustment && forall i | 0 <= i < |es| :: RightDelta(s, es[i])
    ensures Moved(es, q) == Times(Count(es, q), Delta(s, q))
  {
    if |es| > 0 {
      MovedIsCount(s, es[..|es| - 1], q);
      assert RightDelta(s, es[|es| - 1]);
    }
  }

  function DueMoved(s: Tables, u: UserId, q: Purpose): Balance {
    if Due(s, u, q) then Delta(s, q) else Balance(0, 0)
  }

  /** Each movement reaches its user's ledger once if it is due and never otherwise. */
  lemma {:induction false} MovedAsDue(s: Tables, u: UserId, q: Purpose)
    requires Inv(s) && q != ForAdjustment
    ensures Moved(History(BookOf(s.bank, u)), q) == DueMoved(s, u, q)
  {
    AllAspects(s);
    var h := History(BookOf(s.bank, u));
    forall i | 0 <= i < |h| ensures RightDelta(s, h[i]) { assert MoneyAt(s, u, q, i); }
    assert MoneyAt(s, u, q, 0);
    MovedIsCount(s, h, q);
  }

  /** What a top-up has brought its user so far. */
  function TopupValue(s: Tables, t: TopupId): int {
    if t < |s.topups| && s.topups[t].status == Credited then TopupTotal(s, t) else 0
  }

  lemma TopupMovesAddUp(s: Tables, u: UserId, t: TopupId)
    requires t < |s.topups|
    ensures var a, b := DueMoved(s, u, ForCredit(t)), DueMoved(s, u, ForReversal(t));
            && a.reserved + b.reserved == 0
            && a.available + b.available == (if s.topups[t].user == u then TopupValue(s, t) else 0)
  {
    assert DueMoved(s, u, ForCredit(t)).reserved == 0 && DueMoved(s, u, ForReversal(t)).reserved == 0;
  }

  /** A top-up is credited with principal and bonus exactly once when its status is
      CREDITED or REVERSED and never otherwise, to its own user only, and reversed at
      most once. */
  lemma {:induction false} CreditedExactlyOnce(s: Tables, u: UserId, t: TopupId)
    requires Inv(s) && t < |s.topups|
    ensures var h, row := History(BookOf(s.bank, u)), s.topups[t];
            && Count(h, ForCredit(t)) == (if row.user == u && row.status in {Credited, Reversed} then 1 else 0)
            && Count(h, ForReversal(t)) == (if row.user == u && row.status == Reversed then 1 else 0)
            && forall i | 0 <= i < |h| && h[i].key == CreditKey(t) ::
                 h[i].deltaReserved == 0 && row.amount.Some? && h[i].deltaAvailable == row.amount.value + row.bonus
  {
    AllAspects(s);
    var h := History(BookOf(s.bank, u));
    assert MoneyAt(s, u, ForCredit(t), 0) && MoneyAt(s, u, ForReversal(t), 0);
    forall i | 0 <= i < |h| && h[i].key == CreditKey(t)
      ensures h[i].deltaReserved == 0 && s.topups[t].amount.Some?
              && h[i].deltaAvailable == s.topups[t].amount.value + s.topups[t].bonus
    {
      assert MoneyAt(s, u, ForCredit(t), i);
      CountPositive(h, i);
      assert PaymentAt(s, t);
    }
  }

  /** Its net effect is principal plus bonus while it is credited, and zero once it is
      reversed. */
  lemma {:induction false} TopupNetEffect(s: Tables, u: UserId, t: TopupId)
    requires Inv(s) && t < |s.topups|
    ensures var h := History(BookOf(s.bank, u));
            var a, b := Moved(h, ForCredit(t)), Moved(h, ForReversal(t));
            && a.reserved + b.reserved == 0
            && a.available + b.available == (if s.topups[t].user == u then TopupValue(s, t) else 0)
  {
    MovedAsDue(s, u, ForCredit(t));
    MovedAsDue(s, u, ForReversal(t));
    TopupMovesAddUp(s, u, t);
  }

  function Sum4(a: Balance, b: Balance, c: Balance, d: Balance): Balance {
    Balance(a.available + b.available + c.available + d.available, a.reserved + b.reserved + c.reserved + d.reserved)
  }

  /** All movements for one item: reserving, settling and refunding. */
  function ItemMoved(h: seq<Entry>, i: ItemId): Balance {
    Sum4(Moved(h, ForReserve(i)), Moved(h, ForCapture(i)), Moved(h, ForRelease(i)), Moved(h, ForRefund(i)))
  }

  /** What an item has cost its customer so far. */
  function ItemCost(s: Tables, i: ItemId): Balance
    requires i < |s.items| && s.items[i].reservation.Some?
  {
    var r := s.items[i].reservation.value;
    if r.state == Held then Balance(0 - r.amount, r.amount)
    else if r.state == ReservationState.Captured && i !in s.refunds then Balance(0 - r.amount, 0)
    else Balance(0, 0)
  }

  lemma DueMovesAddUp(s: Tables, u: UserId, i: ItemId, r: Reservation)
    requires Reserves(s, u, i) && s.items[i].reservation == Some(r)
    requires i in s.refunds ==> r.state == ReservationState.Captured
    ensures Sum4(DueMoved(s, u, ForReserve(i)), DueMoved(s, u, ForCapture(i)),
                 DueMoved(s, u, ForRelease(i)), DueMoved(s, u, ForRefund(i))) == ItemCost(s, i)
  {
    assert DueMoved(s, u, ForReserve(i)) == Balance(0 - r.amount, r.amount);
    assert DueMoved(s, u, ForRefund(i)) == if i in s.refunds then Balance(r.amount, 0) else Balance(0, 0);
    if r.state == ReservationState.Captured {
      assert DueMoved(s, u, ForCapture(i)) == Balance(0, 0 - r.amount) && DueMoved(s, u, ForRelease(i)) == Balance(0, 0);
    } else if r.state == ReservationState.Released {
      assert DueMoved(s, u, ForRelease(i)) == Balance(r.amount, 0 - r.amount) && DueMoved(s, u, ForCapture(i)) == Balance(0, 0);
    } else {
      assert DueMoved(s, u, ForCapture(i)) == Balance(0, 0) && DueMoved(s, u, ForRelease(i)) == Balance(0, 0);
    }
  }

  /** An item costs its customer the price while it is held or captured, nothing
      once it is released or refunded, and holds cents reserved exactly while it is
      held; nobody else ever pays for it. */
  lemma ItemNetEffect(s: Tables, u: UserId, i: ItemId)
    requires Inv(s)
    ensures ItemMoved(History(BookOf(s.bank, u)), i) == if Reserves(s, u, i) then ItemCost(s, i) else Balance(0, 0)
  {
    AllAspects(s);
    assert RegistryAt(s, i);
    if Reserves(s, u, i) { DueMovesAddUp(s, u, i, s.items[i].reservation.value); }
    MovedAsDue(s, u, ForReserve(i));
    MovedAsDue(s, u, ForCapture(i));
    MovedAsDue(s, u, ForRelease(i));
    MovedAsDue(s, u, ForRefund(i));
  }
}
