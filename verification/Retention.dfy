/** questshop_prune_wallet_ledger: old ledger rows are replaced by a checkpoint
    per user. Deleting must not change what the ledger means. */
module Retention {
  import opened Common
  import opened Ledger
  import opened Schema

  // ---------------------------------------------------------------- operation

  /** One user's candidates: rows created before the cutoff, in row order, at
      most `budget` of them. */
  function Candidates(es: seq<Entry>, cutoff: nat, budget: nat): seq<Entry> {
    if es == [] || budget == 0 then []
    else if es[0].created < cutoff then [es[0]] + Candidates(es[1..], cutoff, budget - 1)
    else Candidates(es[1..], cutoff, budget)
  }

  predicate HasId(es: seq<Entry>, id: nat) {
    exists i | 0 <= i < |es| :: es[i].id == id
  }

  /** DELETE ... USING candidates WHERE t.id = c.id */
  function Surviving(es: seq<Entry>, gone: seq<Entry>): seq<Entry> {
    if es == [] then []
    else (if HasId(gone, es[0].id) then [] else [es[0]]) + Surviving(es[1..], gone)
  }

  /** The boundary row becomes a checkpoint unless one already stands there. */
  function AddCheckpoint(cs: seq<Checkpoint>, boundary: Entry): seq<Checkpoint> {
    if exists i | 0 <= i < |cs| :: cs[i].through == boundary.id then cs
    else cs + [CheckpointOf(boundary)]
  }

  function PruneBook(bk: Book, cutoff: nat, budget: nat): Book {
    var gone := Candidates(bk.entries, cutoff, budget);
    if gone == [] then bk
    else Book(bk.archived + gone, Surviving(bk.entries, gone), AddCheckpoint(bk.checkpoints, gone[|gone| - 1]))
  }

  /** The users in `order` share one LIMIT; users under an open review are skipped. */
  function PruneBooks(b: Bank, order: seq<UserId>, cutoff: nat, budget: nat, held: set<UserId>): Bank
    decreases |order|
  {
    if order == [] then b
    else if order[0] in held || order[0] !in b.books then PruneBooks(b, order[1..], cutoff, budget, held)
    else
      var bk := b.books[order[0]];
      var gone := |Candidates(bk.entries, cutoff, budget)|;
      PruneBooks(b.(books := b.books[order[0] := PruneBook(bk, cutoff, budget)]), order[1..], cutoff,
                 if gone <= budget then budget - gone else 0, held)
  }

  /** A row some refund still references cannot be deleted. */
  predicate DeletesPinned(b: Bank, b': Bank, pinned: set<nat>) {
    exists u | u in b.books :: exists i | 0 <= i < |b.books[u].entries| ::
        b.books[u].entries[i].id in pinned && !HasId(BookOf(b', u).entries, b.books[u].entries[i].id)
  }

  /** The routine, for users taken in collation order. */
  function PruneLedger(b: Bank, order: seq<UserId>, cutoff: nat, limit: int, held: set<UserId>, pinned: set<nat>)
    : Outcome<Bank>
  {
    if limit < 1 || limit > 500 then Err(InvalidArgument)
    else
      var b' := PruneBooks(b, order, cutoff, limit, held);
      if DeletesPinned(b, b', pinned) then Err(ForeignKeyViolation) else Ok(b')
  }

  /** The unresolved review is about one of this user's surviving ledger rows. */
  predicate ReviewTouches(subject: Subject, es: seq<Entry>) {
    exists i | 0 <= i < |es| ::
      || (subject.TopupSubject? && es[i].reference == TopupRef(subject.topup))
      || (subject.ItemSubject? && es[i].reference == ItemRef(subject.item))
  }

  /** Users whose rows no prune may touch now; a financial review holds everyone. */
  function HeldUsers(s: Tables): set<UserId> {
    set u | u in s.bank.books
            && exists r | r in s.reviews :: r.FinancialSubject? || ReviewTouches(r, s.bank.books[u].entries)
  }

  function PruneTables(s: Tables, order: seq<UserId>, cutoff: nat, limit: int): Outcome<Tables> {
    var bank := PruneLedger(s.bank, order, cutoff, limit, HeldUsers(s), s.refunds.Values);
    if bank.Err? then Err(bank.error) else Ok(s.(bank := bank.value))
  }

  // ------------------------------------------------ the deleted rows are a prefix

  ghost predicate Sorted(es: seq<Entry>) {
    forall i, j | 0 <= i < j < |es| :: es[i].id < es[j].id && es[i].created <= es[j].created
  }

  lemma {:induction false} NoCandidates(es: seq<Entry>, cutoff: nat, budget: nat)
    requires forall i | 0 <= i < |es| :: es[i].created >= cutoff
    ensures Candidates(es, cutoff, budget) == []
  {
    if es != [] && budget > 0 { NoCandidates(es[1..], cutoff, budget); }
  }

  lemma {:induction false} CandidatesArePrefix(es: seq<Entry>, cutoff: nat, budget: nat)
    requires Sorted(es)
    ensures var n := |Candidates(es, cutoff, budget)|;
            && n <= |es| && n <= budget && Candidates(es, cutoff, budget) == es[..n]
            && (forall i | 0 <= i < n :: es[i].created < cutoff)
            && (n < budget ==> forall i | n <= i < |es| :: es[i].created >= cutoff)
  {
    if es == [] || budget == 0 {
    } else if es[0].created < cutoff {
      CandidatesArePrefix(es[1..], cutoff, budget - 1);
      var n := |Candidates(es[1..], cutoff, budget - 1)|;
      assert [es[0]] + es[1..][..n] == es[..n + 1];
      assert forall i | 0 <= i < |es[1..]| :: es[1..][i] == es[i + 1];
      forall i | 0 <= i < n + 1 ensures es[i].created < cutoff {
        if i > 0 { assert es[i] == es[1..][i - 1]; }
      }
      forall i | n + 1 <= i < |es| && n + 1 < budget ensures es[i].created >= cutoff {
        assert es[i] == es[1..][i - 1];
      }
    } else {
      NoCandidates(es, cutoff, budget);
    }
  }

  lemma {:induction false} SurvivingDropsIds(es: seq<Entry>, gone: seq<Entry>)
    requires forall i | 0 <= i < |es| :: !HasId(gone, es[i].id)
    ensures Surviving(es, gone) == es
  {
    if es != [] {
      SurvivingDropsIds(es[1..], gone);
      assert [es[0]] + es[1..] == es;
    }
  }

  lemma {:induction false} SurvivingIsSuffix(es: seq<Entry>, gone: seq<Entry>, n: nat)
    requires n <= |es|
    requires forall i | 0 <= i < |es| :: HasId(gone, es[i].id) <==> i < n
    ensures Surviving(es, gone) == es[n..]
  {
    if n == 0 {
      SurvivingDropsIds(es, gone);
    } else {
      assert HasId(gone, es[0].id);
      assert forall i | 0 <= i < |es[1..]| :: es[1..][i] == es[i + 1];
      SurvivingIsSuffix(es[1..], gone, n - 1);
      assert es[1..][n - 1..] == es[n..];
    }
  }

  /** What one prune does to one user: a prefix moves out, nothing else changes,
      and no row older than the cutoff is left unless the limit ran out. */
  lemma {:induction false} PruneBookShape(bk: Book, cutoff: nat, budget: nat)
    requires Sorted(bk.entries)
    ensures var n := |Candidates(bk.entries, cutoff, budget)|;
            var bk' := PruneBook(bk, cutoff, budget);
            && n <= |bk.entries| && n <= budget
            && bk'.archived == bk.archived + bk.entries[..n]
            && bk'.entries == bk.entries[n..]
            && (n < budget ==> forall i | 0 <= i < |bk'.entries| :: bk'.entries[i].created >= cutoff)
  {
    var es := bk.entries;
    CandidatesArePrefix(es, cutoff, budget);
    var gone := Candidates(es, cutoff, budget);
    var n := |gone|;
    forall i | 0 <= i < |es| ensures HasId(gone, es[i].id) <==> i < n {
      if i < n { assert gone[i].id == es[i].id; }
    }
    SurvivingIsSuffix(es, gone, n);
    if n == 0 { assert es[n..] == es && bk.archived + es[..n] == bk.archived; }
  }

  ghost predicate ArchiveBelow(bk: Book) {
    forall i, j | 0 <= i < |bk.archived| && 0 <= j < |bk.entries| :: bk.archived[i].id < bk.entries[j].id
  }

  lemma EntriesSorted(bk: Book, nextId: nat, clock: nat)
    requires Ordered(History(bk), nextId, clock)
    ensures Sorted(bk.entries)
    ensures ArchiveBelow(bk)
  {
    var h := History(bk);
    assert forall i | 0 <= i < |bk.entries| :: bk.entries[i] == h[|bk.archived| + i];
    assert forall i | 0 <= i < |bk.archived| :: bk.archived[i] == h[i];
  }

  /** The new boundary is later than every checkpoint, so the unique index on
      (user, boundary row) never suppresses the new checkpoint. */
  lemma NewBoundaryAnchors(bk: Book, n: nat)
    requires Anchored(bk) && 0 < n <= |bk.entries| && Sorted(bk.entries)
    requires forall i | 0 <= i < |bk.archived| :: bk.archived[i].id < bk.entries[n - 1].id
    ensures AddCheckpoint(bk.checkpoints, bk.entries[n - 1]) == bk.checkpoints + [CheckpointOf(bk.entries[n - 1])]
    ensures Anchored(Book(bk.archived + bk.entries[..n], bk.entries[n..],
                          bk.checkpoints + [CheckpointOf(bk.entries[n - 1])]))
  {
    var archived := bk.archived + bk.entries[..n];
    assert archived[|archived| - 1] == bk.entries[n - 1];
    assert forall i | 0 <= i < |bk.checkpoints| :: bk.checkpoints[i].through < bk.entries[n - 1].id;
  }

  lemma PruneBookAnchored(bk: Book, cutoff: nat, budget: nat)
    requires Anchored(bk) && Sorted(bk.entries) && ArchiveBelow(bk)
    ensures var bk' := PruneBook(bk, cutoff, budget);
            History(bk') == History(bk) && Anchored(bk')
  {
    var n := |Candidates(bk.entries, cutoff, budget)|;
    PruneBookShape(bk, cutoff, budget);
    assert bk.entries == bk.entries[..n] + bk.entries[n..];
    if n > 0 {
      CandidatesArePrefix(bk.entries, cutoff, budget);
      NewBoundaryAnchors(bk, n);
    }
  }

  /** Pruning one user's rows keeps the full history, the wallet and the chain. */
  lemma PruneBookKeepsMeaning(u: UserId, w: Balance, bk: Book, nextId: nat, clock: nat, cutoff: nat, budget: nat)
    requires BookOk(u, w, bk, nextId, clock)
    ensures var bk' := PruneBook(bk, cutoff, budget);
            History(bk') == History(bk) && BookOk(u, w, bk', nextId, clock)
  {
    EntriesSorted(bk, nextId, clock);
    PruneBookAnchored(bk, cutoff, budget);
  }

  // ---------------------------------------------------------------- all users

  /** Same wallets, same full histories, same next id. */
  ghost predicate SameMeaning(b: Bank, b': Bank) {
    && b.wallets == b'.wallets && b.nextId == b'.nextId
    && forall u: UserId :: History(BookOf(b, u)) == History(BookOf(b', u))
  }

  lemma {:induction false} PruneBooksKeepMeaning(b: Bank, order: seq<UserId>, cutoff: nat, budget: nat,
                                                 held: set<UserId>, clock: nat)
    requires BankOk(b, clock)
    ensures var b' := PruneBooks(b, order, cutoff, budget, held);
            SameMeaning(b, b') && BankOk(b', clock)
    decreases |order|
  {
    if order != [] {
      var u := order[0];
      if u in held || u !in b.books {
        PruneBooksKeepMeaning(b, order[1..], cutoff, budget, held, clock);
      } else {
        var bk := b.books[u];
        var gone := |Candidates(bk.entries, cutoff, budget)|;
        var b1 := b.(books := b.books[u := PruneBook(bk, cutoff, budget)]);
        assert UserBookOk(b, u, clock);
        PruneBookKeepsMeaning(u, WalletOf(b, u), bk, b.nextId, clock, cutoff, budget);
        forall v: UserId
          ensures UserBookOk(b1, v, clock)
          ensures History(BookOf(b1, v)) == History(BookOf(b, v))
        {
          assert UserBookOk(b, v, clock);
          if v != u { BookOkLater(v, WalletOf(b, v), BookOf(b, v), b.nextId, clock, b.nextId, clock); }
        }
        PruneBooksKeepMeaning(b1, order[1..], cutoff, if gone <= budget then budget - gone else 0, held, clock);
      }
    }
  }

  /** Pruning is invisible to balances and to the full history, whatever the
      cutoff, the limit, the users held back and the references that pin rows. */
  lemma PruneKeepsMeaning(b: Bank, order: seq<UserId>, cutoff: nat, limit: int, held: set<UserId>,
                          pinned: set<nat>, clock: nat)
    requires BankOk(b, clock)
    requires PruneLedger(b, order, cutoff, limit, held, pinned).Ok?
    ensures var b' := PruneLedger(b, order, cutoff, limit, held, pinned).value;
            SameMeaning(b, b') && BankOk(b', clock)
  {
    PruneBooksKeepMeaning(b, order, cutoff, limit, held, clock);
  }

  // ------------------------------------------------------- replaying what is left

  function Replay(start: Balance, es: seq<Entry>): Balance
    decreases |es|
  {
    if es == [] then start
    else Replay(Balance(start.available + es[0].deltaAvailable, start.reserved + es[0].deltaReserved), es[1..])
  }

  /** The balance replay starts from: the newest checkpoint, or an empty wallet. */
  function Anchor(bk: Book): Balance {
    if |bk.checkpoints| > 0 then bk.checkpoints[|bk.checkpoints| - 1].balance else Balance(0, 0)
  }

  lemma {:induction false} ReplayFrom(u: UserId, h: seq<Entry>, k: nat)
    requires Chained(u, h) && k <= |h|
    ensures Replay(BalanceBefore(h, k), h[k..]) == BalanceBefore(h, |h|)
    decreases |h| - k
  {
    if k < |h| {
      assert LinkOk(u, h, k);
      assert h[k..][0] == h[k] && h[k..][1..] == h[k + 1..];
      ReplayFrom(u, h, k + 1);
    }
  }

  /** In every good book the surviving rows replayed from the newest checkpoint
      give the wallet. */
  lemma {:induction false} SurvivorsReplayToWallet(u: UserId, w: Balance, bk: Book)
    requires Chained(u, History(bk)) && Anchored(bk) && w == BalanceBefore(History(bk), |History(bk)|)
    ensures Replay(Anchor(bk), bk.entries) == w
  {
    var k := |bk.archived|;
    ReplayFrom(u, History(bk), k);
    assert History(bk)[k..] == bk.entries;
    assert Anchor(bk) == BalanceBefore(History(bk), k);
  }

  /** The first surviving row, or the next one appended when none survives, links
      to the newest checkpoint's chain hash. */
  lemma SurvivorsLinkToCheckpoint(u: UserId, bk: Book)
    requires Chained(u, History(bk)) && Anchored(bk) && |bk.checkpoints| > 0
    ensures var chain := Some(bk.checkpoints[|bk.checkpoints| - 1].chainHash);
            if bk.entries == [] then PreviousHash(bk) == chain else bk.entries[0].previousHash == chain
  {
    if bk.entries != [] { assert LinkOk(u, History(bk), |bk.archived|); }
  }

  // ------------------------------------------------------------ the limit is used

  /** Rows the routine could delete for this user. */
  ghost predicate Left(b: Bank, u: UserId, cutoff: nat) {
    exists i | 0 <= i < |BookOf(b, u).entries| :: BookOf(b, u).entries[i].created < cutoff
  }

  function Rows(b: Bank, order: seq<UserId>): nat {
    if order == [] then 0 else |BookOf(b, order[0]).entries| + Rows(b, order[1..])
  }

  lemma {:induction false} RowsFrame(b: Bank, u: UserId, bk: Book, order: seq<UserId>)
    requires u !in order
    ensures Rows(b.(books := b.books[u := bk]), order) == Rows(b, order)
  {
    if order != [] { RowsFrame(b, u, bk, order[1..]); }
  }

  lemma {:induction false} PruneBooksFrame(b: Bank, order: seq<UserId>, cutoff: nat, budget: nat,
                                           held: set<UserId>, u: UserId)
    requires u !in order || u in held
    ensures BookOf(PruneBooks(b, order, cutoff, budget, held), u) == BookOf(b, u)
    decreases |order|
  {
    if order != [] {
      var o := order[0];
      if o in held || o !in b.books {
        PruneBooksFrame(b, order[1..], cutoff, budget, held, u);
      } else {
        var bk := b.books[o];
        var gone := |Candidates(bk.entries, cutoff, budget)|;
        PruneBooksFrame(b.(books := b.books[o := PruneBook(bk, cutoff, budget)]), order[1..], cutoff,
                        if gone <= budget then budget - gone else 0, held, u);
      }
    }
  }

  ghost predicate BooksSorted(b: Bank) {
    forall u | u in b.books :: Sorted(b.books[u].entries)
  }

  lemma BankOkSorted(b: Bank, clock: nat)
    requires BankOk(b, clock)
    ensures BooksSorted(b)
  {
    forall u | u in b.books ensures Sorted(b.books[u].entries) {
      assert UserBookOk(b, u, clock);
      EntriesSorted(b.books[u], b.nextId, clock);
    }
  }

  /** A prune deletes at most its limit, and if it deletes fewer rows then no
      user it may touch keeps a row older than the cutoff. */
  lemma {:induction false} PruneBooksUseBudget(b: Bank, order: seq<UserId>, cutoff: nat, budget: nat, held: set<UserId>)
    requires BooksSorted(b)
    requires forall i, j | 0 <= i < j < |order| :: order[i] != order[j]
    ensures var b' := PruneBooks(b, order, cutoff, budget, held);
            && Rows(b, order) - budget <= Rows(b', order) <= Rows(b, order)
            && (Rows(b', order) > Rows(b, order) - budget ==>
                  forall u | u in order && u !in held :: !Left(b', u, cutoff))
    decreases |order|
  {
    if order != [] {
      var o, rest := order[0], order[1..];
      assert o !in rest;
      if o in held || o !in b.books {
        PruneBooksUseBudget(b, rest, cutoff, budget, held);
        PruneBooksFrame(b, rest, cutoff, budget, held, o);
      } else {
        var bk := b.books[o];
        PruneBookShape(bk, cutoff, budget);
        var gone := |Candidates(bk.entries, cutoff, budget)|;
        var b1 := b.(books := b.books[o := PruneBook(bk, cutoff, budget)]);
        assert Sorted(b1.books[o].entries);
        PruneBooksUseBudget(b1, rest, cutoff, budget - gone, held);
        PruneBooksFrame(b1, rest, cutoff, budget - gone, held, o);
        RowsFrame(b, o, b1.books[o], rest);
      }
    }
  }
}
