/** The wallet balances, the hash-chained ledger behind them and the retention
    routine that replaces old ledger rows by checkpoints. */
module Ledger {
  import opened Common

  type UserId = nat
  type ItemId = nat
  type TopupId = nat
  type Context = nat

  datatype Balance = Balance(available: int, reserved: int)

  /** Idempotency keys, tagged by the template that builds the string. */
  datatype Key =
    | ReserveKey(context: Context, item: ItemId)
    | CaptureKey(context: Context, item: ItemId)
    | ReleaseKey(context: Context, item: ItemId)
    | RefundKey(item: ItemId)
    | AdjustKey(context: Context)
    | CreditKey(topup: TopupId)
    | ReversalKey(topup: TopupId)

  datatype Kind =
    | TopupCredit | TopupReversal | Reserve | Capture | Release
    | AdminCredit | AdminDebit | RefundCredit

  datatype Reference =
    | ItemRef(item: ItemId)
    | RefundRef(item: ItemId)
    | AdjustmentRef(context: Context)
    | TopupRef(topup: TopupId)

  /** SHA-256 over the canonical row text, taken as free of collisions: a digest
      is the hashed content itself, the previous digest included. */
  datatype Digest = Digest(id: nat, user: UserId, kind: Kind, deltaAvailable: int, deltaReserved: int,
                           after: Balance, reference: Reference, key: Key, previous: Option<Digest>)

  datatype Entry = Entry(id: nat, kind: Kind, deltaAvailable: int, deltaReserved: int,
                         before: Balance, after: Balance, reference: Reference, key: Key,
                         previousHash: Option<Digest>, entryHash: Digest, created: nat)

  datatype Checkpoint = Checkpoint(through: nat, balance: Balance, chainHash: Digest)

  /** One user's ledger in (created_at, id) order. `archived` holds the rows that
      retention has deleted; no operation reads it, only properties do. */
  datatype Book = Book(archived: seq<Entry>, entries: seq<Entry>, checkpoints: seq<Checkpoint>)

  datatype Bank = Bank(wallets: map<UserId, Balance>, books: map<UserId, Book>, nextId: nat)

  /** What an operation asks the ledger to record. */
  datatype Posting = Posting(kind: Kind, deltaAvailable: int, deltaReserved: int, reference: Reference, key: Key)

  const EmptyBook := Book([], [], [])

  // ---------------------------------------------------------------- operations

  /** `lockWallet` creates an absent wallet with both balances zero. */
  function WalletOf(b: Bank, u: UserId): Balance {
    if u in b.wallets then b.wallets[u] else Balance(0, 0)
  }

  function BookOf(b: Bank, u: UserId): Book {
    if u in b.books then b.books[u] else EmptyBook
  }

  /** A surviving ledger row of any user carries this idempotency key. */
  predicate KeyUsed(b: Bank, key: Key) {
    exists u | u in b.books :: KeyIn(b.books[u].entries, key)
  }

  predicate KeyIn(es: seq<Entry>, key: Key) {
    exists i | 0 <= i < |es| :: es[i].key == key
  }

  function LedgerHash(u: UserId, id: nat, p: Posting, after: Balance, previous: Option<Digest>): Digest {
    Digest(id, u, p.kind, p.deltaAvailable, p.deltaReserved, after, p.reference, p.key, previous)
  }

  function AfterPosting(w: Balance, p: Posting): Balance {
    Balance(w.available + p.deltaAvailable, w.reserved + p.deltaReserved)
  }

  /** The hash a new row links to: the last surviving row's, else the newest
      checkpoint's, else none. */
  function PreviousHash(bk: Book): Option<Digest> {
    if |bk.entries| > 0 then Some(bk.entries[|bk.entries| - 1].entryHash)
    else if |bk.checkpoints| > 0 then Some(bk.checkpoints[|bk.checkpoints| - 1].chainHash)
    else None
  }

  function NewEntry(b: Bank, u: UserId, p: Posting, before: Balance, now: nat): Entry {
    var after := AfterPosting(before, p);
    var previous := PreviousHash(BookOf(b, u));
    Entry(b.nextId, p.kind, p.deltaAvailable, p.deltaReserved, before, after, p.reference, p.key,
          previous, LedgerHash(u, b.nextId, p, after, previous), now)
  }

  /** `appendLedger`: a used key returns the old row and writes nothing. */
  function AppendLedger(b: Bank, u: UserId, p: Posting, before: Balance, now: nat): Bank {
    if KeyUsed(b, p.key) then b
    else
      var bk := BookOf(b, u);
      b.(books := b.books[u := bk.(entries := bk.entries + [NewEntry(b, u, p, before, now)])],
         nextId := b.nextId + 1)
  }

  /** `lockWallet`, `walletBalances`, `updateWallet`, `appendLedger` in a row. */
  function Post(b: Bank, u: UserId, p: Posting, now: nat): Outcome<Bank> {
    var before := WalletOf(b, u);
    var after := AfterPosting(before, p);
    if after.available < 0 || after.reserved < 0 then Err(InsufficientBalance)
    else Ok(AppendLedger(b.(wallets := b.wallets[u := after]), u, p, before, now))
  }

  // ---------------------------------------------------------------- invariant

  function History(bk: Book): seq<Entry> {
    bk.archived + bk.entries
  }

  function BalanceBefore(es: seq<Entry>, i: nat): Balance
    requires i <= |es|
  {
    if i == 0 then Balance(0, 0) else es[i - 1].after
  }

  function HashBefore(es: seq<Entry>, i: nat): Option<Digest>
    requires i <= |es|
  {
    if i == 0 then None else Some(es[i - 1].entryHash)
  }

  predicate LinkOk(u: UserId, es: seq<Entry>, i: nat)
    requires i < |es|
  {
    var e := es[i];
    var p := Posting(e.kind, e.deltaAvailable, e.deltaReserved, e.reference, e.key);
    && e.before == BalanceBefore(es, i)
    && e.after == AfterPosting(e.before, p)
    && e.after.available >= 0 && e.after.reserved >= 0
    && e.previousHash == HashBefore(es, i)
    && e.entryHash == LedgerHash(u, e.id, p, e.after, e.previousHash)
  }

  ghost predicate Chained(u: UserId, es: seq<Entry>) {
    forall i | 0 <= i < |es| :: LinkOk(u, es, i)
  }

  /** Ids strictly increase and creation times never decrease along the chain. */
  ghost predicate Ordered(es: seq<Entry>, nextId: nat, clock: nat) {
    && (forall i | 0 <= i < |es| :: es[i].id < nextId && es[i].created <= clock)
    && (forall i, j | 0 <= i < j < |es| :: es[i].id < es[j].id && es[i].created <= es[j].created)
  }

  function CheckpointOf(e: Entry): Checkpoint {
    Checkpoint(e.id, e.after, e.entryHash)
  }

  /** The newest checkpoint is the state at the end of the deleted rows, and no
      checkpoint stands later than that. */
  predicate Anchored(bk: Book) {
    if bk.archived == [] then bk.checkpoints == []
    else
      var last := bk.archived[|bk.archived| - 1];
      && |bk.checkpoints| > 0
      && bk.checkpoints[|bk.checkpoints| - 1] == CheckpointOf(last)
      && forall i | 0 <= i < |bk.checkpoints| :: bk.checkpoints[i].through <= last.id
  }

  ghost predicate BookOk(u: UserId, w: Balance, bk: Book, nextId: nat, clock: nat) {
    var h := History(bk);
    && Chained(u, h)
    && Ordered(h, nextId, clock)
    && w == BalanceBefore(h, |h|)
    && Anchored(bk)
  }

  ghost predicate UserBookOk(b: Bank, u: UserId, clock: nat) {
    BookOk(u, WalletOf(b, u), BookOf(b, u), b.nextId, clock)
  }

  ghost predicate BankOk(b: Bank, clock: nat) {
    forall u: UserId :: UserBookOk(b, u, clock)
  }

  // ---------------------------------------------------------------- posting

  lemma ChainExtends(u: UserId, h: seq<Entry>, e: Entry)
    requires Chained(u, h) && LinkOk(u, h + [e], |h|)
    ensures Chained(u, h + [e])
  {
    forall i | 0 <= i < |h| + 1 ensures LinkOk(u, h + [e], i) {
      if i < |h| { assert LinkOk(u, h, i); }
    }
  }

  /** Adding a row that links to the last surviving row, or to the newest
      checkpoint, extends the full chain by one good link. */
  lemma EntryExtendsBook(u: UserId, w: Balance, bk: Book, b: Bank, p: Posting, now: nat)
    requires BookOf(b, u) == bk && BookOk(u, w, bk, b.nextId, now)
    requires AfterPosting(w, p).available >= 0 && AfterPosting(w, p).reserved >= 0
    ensures var bk' := bk.(entries := bk.entries + [NewEntry(b, u, p, w, now)]);
            BookOk(u, AfterPosting(w, p), bk', b.nextId + 1, now)
  {
    var e := NewEntry(b, u, p, w, now);
    var h := History(bk);
    assert History(bk.(entries := bk.entries + [e])) == h + [e];
    LinksToHistory(bk);
    ChainExtends(u, h, e);
  }

  lemma LinksToHistory(bk: Book)
    requires Anchored(bk)
    ensures PreviousHash(bk) == HashBefore(History(bk), |History(bk)|)
  {}

  /** Posting with a fresh key keeps every user's book: the wallet stays the end
      of its own chain, and exactly one row is added, to this user's book. */
  lemma PostKeepsBank(b: Bank, u: UserId, p: Posting, now: nat)
    requires BankOk(b, now) && !KeyUsed(b, p.key)
    requires Post(b, u, p, now).Ok?
    ensures BankOk(Post(b, u, p, now).value, now)
    ensures PostedOnly(b, Post(b, u, p, now).value, u, p, now)
  {
    PostUnfolds(b, u, p, now);
    var b' := Post(b, u, p, now).value;
    assert UserBookOk(b, u, now);
    EntryExtendsBook(u, WalletOf(b, u), BookOf(b, u), b, p, now);
    forall v: UserId ensures UserBookOk(b', v, now) {
      assert UserBookOk(b, v, now);
      if v != u { BookOkLater(v, WalletOf(b, v), BookOf(b, v), b.nextId, now, b'.nextId, now); }
    }
  }

  /** The whole effect of a posting on the bank. */
  ghost predicate PostedOnly(b: Bank, b': Bank, u: UserId, p: Posting, now: nat) {
    && WalletOf(b', u) == AfterPosting(WalletOf(b, u), p)
    && BookOf(b', u).archived == BookOf(b, u).archived
    && BookOf(b', u).entries == BookOf(b, u).entries + [NewEntry(b, u, p, WalletOf(b, u), now)]
    && (forall v: UserId | v != u :: WalletOf(b', v) == WalletOf(b, v) && BookOf(b', v) == BookOf(b, v))
  }

  lemma PostUnfolds(b: Bank, u: UserId, p: Posting, now: nat)
    requires !KeyUsed(b, p.key) && Post(b, u, p, now).Ok?
    ensures var w := WalletOf(b, u);
            var bk := BookOf(b, u);
            Post(b, u, p, now).value
            == Bank(b.wallets[u := AfterPosting(w, p)],
                    b.books[u := bk.(entries := bk.entries + [NewEntry(b, u, p, w, now)])], b.nextId + 1)
  {
    var b1 := b.(wallets := b.wallets[u := AfterPosting(WalletOf(b, u), p)]);
    assert KeyUsed(b1, p.key) == KeyUsed(b, p.key);
  }

  /** The book invariant bounds ids and creation times from above only. */
  lemma BookOkLater(u: UserId, w: Balance, bk: Book, nextId: nat, clock: nat, nextId': nat, clock': nat)
    requires BookOk(u, w, bk, nextId, clock) && nextId <= nextId' && clock <= clock'
    ensures BookOk(u, w, bk, nextId', clock')
  {}

  lemma BankOkLater(b: Bank, clock: nat, later: nat)
    requires BankOk(b, clock) && clock <= later
    ensures BankOk(b, later)
  {
    forall u: UserId ensures UserBookOk(b, u, later) {
      assert UserBookOk(b, u, clock);
      BookOkLater(u, WalletOf(b, u), BookOf(b, u), b.nextId, clock, b.nextId, later);
    }
  }
}
