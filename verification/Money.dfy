/** The money invariant: wallets, open reservations and the ledger agree, and
    every movement of money is posted exactly once. */
module Money {
  import opened Common
  import opened Ledger
  import opened Schema

  // ---------------------------------------------------------- what a row is owed

  /** What a posting is for: its idempotency key without the caller's context. */
  datatype Purpose =
    | ForReserve(item: ItemId)
    | ForCapture(item: ItemId)
    | ForRelease(item: ItemId)
    | ForRefund(item: ItemId)
    | ForCredit(topup: TopupId)
    | ForReversal(topup: TopupId)
    | ForAdjustment

  function PurposeOf(k: Key): Purpose {
    match k
    case ReserveKey(_, i) => ForReserve(i)
    case CaptureKey(_, i) => ForCapture(i)
    case ReleaseKey(_, i) => ForRelease(i)
    case RefundKey(i) => ForRefund(i)
    case CreditKey(t) => ForCredit(t)
    case ReversalKey(t) => ForReversal(t)
    case AdjustKey(_) => ForAdjustment
  }

  predicate Reserves(s: Tables, u: UserId, i: ItemId) {
    i < |s.items| && s.items[i].reservation.Some? && s.items[i].reservation.value.user == u
  }

  /** The rows say that user u has this movement on the books. */
  predicate Due(s: Tables, u: UserId, q: Purpose) {
    match q
    case ForReserve(i) => Reserves(s, u, i)
    case ForCapture(i) => Reserves(s, u, i) && s.items[i].reservation.value.state == ReservationState.Captured
    case ForRelease(i) => Reserves(s, u, i) && s.items[i].reservation.value.state == ReservationState.Released
    case ForRefund(i) => Reserves(s, u, i) && i in s.refunds
    case ForCredit(t) => t < |s.topups| && s.topups[t].user == u && s.topups[t].status in {Credited, Reversed}
    case ForReversal(t) => t < |s.topups| && s.topups[t].user == u && s.topups[t].status == Reversed
    case ForAdjustment => false
  }

  function Amount(s: Tables, i: ItemId): int {
    if i < |s.items| && s.items[i].reservation.Some? then s.items[i].reservation.value.amount else 0
  }

  function TopupTotal(s: Tables, t: TopupId): int {
    if t < |s.topups| && s.topups[t].amount.Some? then s.topups[t].amount.value + s.topups[t].bonus else 0
  }

  /** How a movement changes (available, reserved). */
  function Delta(s: Tables, q: Purpose): Balance {
    match q
    case ForReserve(i) => Balance(-Amount(s, i), Amount(s, i))
    case ForCapture(i) => Balance(0, -Amount(s, i))
    case ForRelease(i) => Balance(Amount(s, i), -Amount(s, i))
    case ForRefund(i) => Balance(Amount(s, i), 0)
    case ForCredit(t) => Balance(TopupTotal(s, t), 0)
    case ForReversal(t) => Balance(-TopupTotal(s, t), 0)
    case ForAdjustment => Balance(0, 0)
  }

  /** Ledger rows for a purpose, deleted rows included. */
  function Count(es: seq<Entry>, q: Purpose): nat {
    if |es| == 0 then 0
    else Count(es[..|es| - 1], q) + (if PurposeOf(es[|es| - 1].key) == q then 1 else 0)
  }

  /** Cents of this user that open reservations hold. */
  function ReservedSum(items: seq<Item>, u: UserId): int {
    if |items| == 0 then 0 else ReservedSum(items[..|items| - 1], u) + HeldBy(items[|items| - 1], u)
  }

  function HeldBy(item: Item, u: UserId): int {
    if item.reservation.Some? && item.reservation.value.user == u && item.reservation.value.state == Held
    then item.reservation.value.amount else 0
  }

  // ---------------------------------------------------------------- invariant

  ghost predicate PostedAsDue(s: Tables, u: UserId, q: Purpose) {
    Count(History(BookOf(s.bank, u)), q) == (if Due(s, u, q) then 1 else 0)
  }

  /** Each movement is on its user's ledger exactly once when the rows say that it
      happened, and on no ledger otherwise. */
  ghost predicate PostedOnce(s: Tables) {
    forall u: UserId, q: Purpose | q != ForAdjustment :: PostedAsDue(s, u, q)
  }

  predicate RightDelta(s: Tables, e: Entry) {
    PurposeOf(e.key) == ForAdjustment || Balance(e.deltaAvailable, e.deltaReserved) == Delta(s, PurposeOf(e.key))
  }

  predicate RightRow(s: Tables, u: UserId, i: nat) {
    i < |History(BookOf(s.bank, u))| ==> RightDelta(s, History(BookOf(s.bank, u))[i])
  }

  /** Every ledger row moves the cents its purpose is about. */
  ghost predicate PostedRight(s: Tables) {
    forall u: UserId, i: nat :: RightRow(s, u, i)
  }

  predicate ReservedOf(s: Tables, u: UserId) {
    WalletOf(s.bank, u).reserved == ReservedSum(s.items, u)
  }

  ghost predicate ReservedAgrees(s: Tables) {
    forall u: UserId :: ReservedOf(s, u)
  }

  /** The money invariant, one user, one purpose and one ledger row at a time. */
  ghost predicate MoneyAt(s: Tables, u: UserId, q: Purpose, i: nat) {
    && UserBookOk(s.bank, u, s.clock)
    && ReservedOf(s, u)
    && (q != ForAdjustment ==> PostedAsDue(s, u, q))
    && RightRow(s, u, i)
  }

  ghost predicate MoneyOk(s: Tables) {
    forall u: UserId, q: Purpose, i: nat :: MoneyAt(s, u, q, i)
  }

  lemma MoneyParts(s: Tables)
    ensures MoneyOk(s) <==> BankOk(s.bank, s.clock) && ReservedAgrees(s) && PostedOnce(s) && PostedRight(s)
  {
    if MoneyOk(s) {
      forall u: UserId ensures UserBookOk(s.bank, u, s.clock) && ReservedOf(s, u) { assert MoneyAt(s, u, ForAdjustment, 0); }
      forall u: UserId, q: Purpose | q != ForAdjustment ensures PostedAsDue(s, u, q) { assert MoneyAt(s, u, q, 0); }
      forall u: UserId, i: nat ensures RightRow(s, u, i) { assert MoneyAt(s, u, ForAdjustment, i); }
    }
  }

  // ---------------------------------------------------------------- counting

  lemma {:induction false} CountAppend(es: seq<Entry>, e: Entry, q: Purpose)
    ensures Count(es + [e], q) == Count(es, q) + (if PurposeOf(e.key) == q then 1 else 0)
  {
    assert (es + [e])[..|es|] == es;
  }

  lemma {:induction false} CountPositive(es: seq<Entry>, i: nat)
    requires i < |es|
    ensures Count(es, PurposeOf(es[i].key)) > 0
  {
    if i < |es| - 1 { CountPositive(es[..|es| - 1], i); }
  }

  /** The guards read row states, not the ledger; this is why they are enough: a
      key whose purpose is not yet due cannot be on any surviving ledger row. */
  lemma NotDueIsFresh(s: Tables, key: Key)
    requires PostedOnce(s) && PurposeOf(key) != ForAdjustment
    requires forall u: UserId :: !Due(s, u, PurposeOf(key))
    ensures !KeyUsed(s.bank, key)
  {
    if KeyUsed(s.bank, key) {
      var u :| u in s.bank.books && KeyIn(s.bank.books[u].entries, key);
      var i :| 0 <= i < |s.bank.books[u].entries| && s.bank.books[u].entries[i].key == key;
      var bk := BookOf(s.bank, u);
      assert History(bk)[|bk.archived| + i].key == key;
      assert PostedAsDue(s, u, PurposeOf(key));
      CountPositive(History(bk), |bk.archived| + i);
    }
  }

  lemma {:induction false} ReservedSumSet(items: seq<Item>, i: nat, x: Item, u: UserId)
    requires i < |items|
    ensures ReservedSum(items[i := x], u) == ReservedSum(items, u) - HeldBy(items[i], u) + HeldBy(x, u)
  {
    var n := |items| - 1;
    if i == n {
      assert items[i := x][..n] == items[..n];
    } else {
      assert items[i := x][..n] == items[..n][i := x];
      ReservedSumSet(items[..n], i, x, u);
    }
  }

  /** Rows appended without a reservation, and rows whose reservation does not
      change, leave every user's reserved cents alone. */
  lemma {:induction false} ReservedSumSame(items: seq<Item>, items': seq<Item>, u: UserId)
    requires |items| <= |items'|
    requires forall i | 0 <= i < |items| :: items'[i].reservation == items[i].reservation
    requires forall i | |items| <= i < |items'| :: items'[i].reservation.None?
    ensures ReservedSum(items', u) == ReservedSum(items, u)
    decreases |items'|
  {
    if |items'| > |items| {
      ReservedSumSame(items, items'[..|items'| - 1], u);
    } else if |items| > 0 {
      ReservedSumSame(items[..|items| - 1], items'[..|items| - 1], u);
    }
  }

  lemma {:induction false} ReservedSumNonnegative(items: seq<Item>, u: UserId)
    ensures ReservedSum(items, u) >= 0
  {
    if |items| > 0 { ReservedSumNonnegative(items[..|items| - 1], u); }
  }

  // ---------------------------------------------------------------- one posting

  /** The rows after a posting: exactly one more movement is due, for this user. */
  ghost predicate DueGrows(s: Tables, s': Tables, u: UserId, q: Purpose) {
    && (forall v: UserId, r: Purpose :: Due(s', v, r) <==> Due(s, v, r) || (v == u && r == q && q != ForAdjustment))
    && (forall v: UserId, r: Purpose | Due(s, v, r) :: Delta(s', r) == Delta(s, r))
  }

  ghost predicate ReservedMoves(s: Tables, s': Tables, u: UserId, change: int) {
    forall v: UserId :: ReservedSum(s'.items, v) == ReservedSum(s.items, v) + (if v == u then change else 0)
  }

  /** After a posting each movement is still on its ledger as often as it is due. */
  lemma PostingCounted(s: Tables, s': Tables, u: UserId, p: Posting, v: UserId, r: Purpose)
    requires PostedAsDue(s, v, r) && r != ForAdjustment
    requires PostedOnly(s.bank, s'.bank, u, p, s.clock)
    requires DueGrows(s, s', u, PurposeOf(p.key))
    requires !Due(s, u, PurposeOf(p.key))
    ensures PostedAsDue(s', v, r)
  {
    var e := NewEntry(s.bank, u, p, WalletOf(s.bank, u), s.clock);
    var h := History(BookOf(s.bank, u));
    if v == u {
      assert History(BookOf(s'.bank, u)) == h + [e];
      CountAppend(h, e, r);
    }
  }

  /** An old row's movement was due, and what is due keeps its amount. */
  lemma OldRowRight(s: Tables, s': Tables, u: UserId, p: Posting, v: UserId, i: nat)
    requires PostedOnce(s) && RightRow(s, v, i) && DueGrows(s, s', u, PurposeOf(p.key))
    requires i < |History(BookOf(s.bank, v))|
    ensures RightDelta(s', History(BookOf(s.bank, v))[i])
  {
    var h := History(BookOf(s.bank, v));
    var q := PurposeOf(h[i].key);
    if q != ForAdjustment {
      assert PostedAsDue(s, v, q);
      CountPositive(h, i);
    }
  }

  lemma RowsRight(s: Tables, s': Tables, u: UserId, p: Posting, v: UserId, i: nat)
    requires PostedOnce(s) && PostedRight(s)
    requires PostedOnly(s.bank, s'.bank, u, p, s.clock) && DueGrows(s, s', u, PurposeOf(p.key))
    requires PurposeOf(p.key) != ForAdjustment ==> Balance(p.deltaAvailable, p.deltaReserved) == Delta(s', PurposeOf(p.key))
    ensures RightRow(s', v, i)
  {
    var h := History(BookOf(s.bank, v));
    var e := NewEntry(s.bank, u, p, WalletOf(s.bank, u), s.clock);
    assert History(BookOf(s'.bank, v)) == if v == u then h + [e] else h;
    if i < |h| {
      assert RightRow(s, v, i);
      OldRowRight(s, s', u, p, v, i);
    }
  }

  /** A posting whose purpose becomes due keeps the money invariant. */
  lemma PostKeepsMoney(s: Tables, s': Tables, u: UserId, p: Posting)
    requires MoneyOk(s) && s'.clock == s.clock
    requires Post(s.bank, u, p, s.clock) == Ok(s'.bank)
    requires DueGrows(s, s', u, PurposeOf(p.key)) && ReservedMoves(s, s', u, p.deltaReserved)
    requires if PurposeOf(p.key) == ForAdjustment then !KeyUsed(s.bank, p.key)
             else (forall v: UserId :: !Due(s, v, PurposeOf(p.key)))
                  && Balance(p.deltaAvailable, p.deltaReserved) == Delta(s', PurposeOf(p.key))
    ensures MoneyOk(s') && PostedOnly(s.bank, s'.bank, u, p, s.clock)
  {
    MoneyParts(s);
    if PurposeOf(p.key) != ForAdjustment { NotDueIsFresh(s, p.key); }
    PostKeepsBank(s.bank, u, p, s.clock);
    forall v: UserId, r: Purpose | r != ForAdjustment ensures PostedAsDue(s', v, r) {
      assert PostedAsDue(s, v, r);
      PostingCounted(s, s', u, p, v, r);
    }
    forall v: UserId, i: nat ensures RightRow(s', v, i) { RowsRight(s, s', u, p, v, i); }
    forall v: UserId ensures ReservedOf(s', v) { assert ReservedOf(s, v); }
    MoneyParts(s');
  }

  /** Steps that post nothing and settle nothing keep the money invariant. */
  ghost predicate SameMoney(s: Tables, s': Tables) {
    && s'.bank == s.bank && s.clock <= s'.clock
    && (forall v: UserId, r: Purpose :: Due(s', v, r) <==> Due(s, v, r))
    && (forall v: UserId, r: Purpose | Due(s, v, r) :: Delta(s', r) == Delta(s, r))
    && (forall v: UserId :: ReservedSum(s'.items, v) == ReservedSum(s.items, v))
  }

  lemma SameMoneyKeeps(s: Tables, s': Tables)
    requires MoneyOk(s) && SameMoney(s, s')
    ensures MoneyOk(s')
  {
    MoneyParts(s);
    BankOkLater(s.bank, s.clock, s'.clock);
    forall v: UserId, i: nat ensures RightRow(s', v, i) {
      var h := History(BookOf(s.bank, v));
      assert RightRow(s, v, i);
      if i < |h| {
        CountPositive(h, i);
        assert PurposeOf(h[i].key) != ForAdjustment ==> PostedAsDue(s, v, PurposeOf(h[i].key));
      }
    }
    forall v: UserId, r: Purpose | r != ForAdjustment ensures PostedAsDue(s', v, r) { assert PostedAsDue(s, v, r); }
    forall v: UserId ensures ReservedOf(s', v) { assert ReservedOf(s, v); }
    MoneyParts(s');
  }

  /** Both balances of every wallet are non-negative. */
  lemma BalancesNonnegative(s: Tables, u: UserId)
    requires MoneyOk(s)
    ensures WalletOf(s.bank, u).available >= 0 && WalletOf(s.bank, u).reserved >= 0
  {
    var h := History(BookOf(s.bank, u));
    assert MoneyAt(s, u, ForAdjustment, 0);
    if |h| > 0 { assert LinkOk(u, h, |h| - 1); }
  }
}
