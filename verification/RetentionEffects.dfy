/** Which ledger rows a prune takes and whose it may not touch, with numbers written out. */
module RetentionEffects {
  import opened Common
  import opened Ledger
  import opened Schema
  import opened Retention
  import opened Machine
  import opened Money
  import opened Frames

  /** The review is financial, which is about everybody's rows, or about one of these. */
  predicate AboutRows(r: Subject, es: seq<Entry>) {
    || r.FinancialSubject?
    || exists k | 0 <= k < |es| ::
         || (r.TopupSubject? && es[k].reference == TopupRef(r.topup))
         || (r.ItemSubject? && es[k].reference == ItemRef(r.item))
  }

  /** An open review is about this user's surviving ledger rows. */
  predicate UnderReview(s: Tables, u: UserId) {
    exists r | r in s.reviews :: AboutRows(r, BookOf(s.bank, u).entries)
  }

  /** While it is open, a prune takes none of his rows. */
  lemma ReviewedRowsStay(s: Tables, users: seq<UserId>, cutoff: nat, limit: int, u: UserId)
    requires UnderReview(s, u)
    ensures BookOf(Apply(s, Prune(users, cutoff, limit)).bank, u) == BookOf(s.bank, u)
  {
    PruneUnfolds(s, users, cutoff, limit);
    if u in s.bank.books {
      HeldIff(s, u);
      if 1 <= limit { PruneBooksFrame(s.bank, users, cutoff, limit, HeldUsers(s), u); }
    } else if 1 <= limit {
      NoBookStays(s.bank, users, cutoff, limit, HeldUsers(s), u);
    }
  }

  lemma HeldIff(s: Tables, u: UserId)
    ensures u in HeldUsers(s) <==> u in s.bank.books && UnderReview(s, u)
  {
    if u in s.bank.books {
      assert forall r: Subject :: AboutRows(r, BookOf(s.bank, u).entries)
                                  <==> r.FinancialSubject? || ReviewTouches(r, s.bank.books[u].entries);
    }
  }

  lemma {:induction false} PruneUnfolds(s: Tables, users: seq<UserId>, cutoff: nat, limit: int)
    ensures var o := Try(s, Prune(users, cutoff, limit));
            && (o.Ok? ==> 1 <= limit <= 500
                          && o.value == s.(bank := PruneBooks(s.bank, users, cutoff, limit, HeldUsers(s)))
                          && !DeletesPinned(s.bank, o.value.bank, s.refunds.Values))
            && (o.Err? && 1 <= limit <= 500 ==>
                  DeletesPinned(s.bank, PruneBooks(s.bank, users, cutoff, limit, HeldUsers(s)), s.refunds.Values))
  {
    assert Try(s, Prune(users, cutoff, limit)) == PruneTables(s, users, cutoff, limit);
  }

  lemma {:induction false} NoBookStays(b: Bank, order: seq<UserId>, cutoff: nat, budget: nat, held: set<UserId>, u: UserId)
    requires u !in b.books
    ensures u !in PruneBooks(b, order, cutoff, budget, held).books
    decreases |order|
  {
    if order != [] {
      var o := order[0];
      if o in held || o !in b.books {
        NoBookStays(b, order[1..], cutoff, budget, held, u);
      } else {
        var gone := |Candidates(b.books[o].entries, cutoff, budget)|;
        NoBookStays(b.(books := b.books[o := PruneBook(b.books[o], cutoff, budget)]), order[1..], cutoff,
                    if gone <= budget then budget - gone else 0, held, u);
      }
    }
  }

  /** The first n rows are gone, all from before the cutoff, and the last of them is now the
      newest checkpoint: its row, its balances and its hash. */
  predicate Cut(bk: Book, bk': Book, cutoff: nat, n: nat) {
    && n <= |bk.entries| && bk'.entries == bk.entries[n..]
    && (forall k | 0 <= k < n :: bk.entries[k].created < cutoff)
    && bk'.checkpoints == if n == 0 then bk.checkpoints
                          else
                            var last := bk.entries[n - 1];
                            bk.checkpoints + [Ledger.Checkpoint.Checkpoint(last.id, last.after, last.entryHash)]
  }

  /** A prune of up to 500 rows takes old rows only, from the front of each ledger, and nothing
      else; a row that a refund names it never takes. */
  lemma {:induction false} OldRowsAreCut(s: Tables, users: seq<UserId>, cutoff: nat, limit: int, u: UserId)
    requires Inv(s) && forall i, j | 0 <= i < j < |users| :: users[i] != users[j]
    ensures var o := Try(s, Prune(users, cutoff, limit));
            && (o.Ok? ==> 1 <= limit <= 500 && o.value == s.(bank := s.bank.(books := o.value.bank.books)))
            && (o.Ok? ==> exists n: nat :: n <= limit && Cut(BookOf(s.bank, u), BookOf(o.value.bank, u), cutoff, n)
                                           && (u !in users ==> n == 0)
                                           && forall k | 0 <= k < n :: BookOf(s.bank, u).entries[k].id !in s.refunds.Values)
  {
    PruneUnfolds(s, users, cutoff, limit);
    AllAspects(s);
    MoneyParts(s);
    if Try(s, Prune(users, cutoff, limit)).Ok? {
      var b' := PruneBooks(s.bank, users, cutoff, limit, HeldUsers(s));
      var n := CutBy(s.bank, users, cutoff, limit, HeldUsers(s), u, s.clock);
      PinnedStay(s, b', u, cutoff, n);
    }
  }

  lemma {:induction false} PinnedStay(s: Tables, b': Bank, u: UserId, cutoff: nat, n: nat)
    requires BankOk(s.bank, s.clock) && Cut(BookOf(s.bank, u), BookOf(b', u), cutoff, n) && (n > 0 ==> u in s.bank.books)
    requires !DeletesPinned(s.bank, b', s.refunds.Values)
    ensures forall k | 0 <= k < n :: BookOf(s.bank, u).entries[k].id !in s.refunds.Values
  {
    if n > 0 {
      assert UserBookOk(s.bank, u, s.clock);
      EntriesSorted(BookOf(s.bank, u), s.bank.nextId, s.clock);
      var es := s.bank.books[u].entries;
      forall k | 0 <= k < n ensures es[k].id !in s.refunds.Values {
        assert es[k].id in s.refunds.Values ==> HasId(BookOf(b', u).entries, es[k].id);
        assert forall i | 0 <= i < |es[n..]| :: es[n..][i] == es[n + i];
      }
    }
  }

  /** How many rows of this user the walk over the users takes. */
  lemma {:induction false} CutBy(b: Bank, order: seq<UserId>, cutoff: nat, budget: nat, held: set<UserId>, u: UserId, clock: nat)
      returns (n: nat)
    requires BankOk(b, clock) && forall i, j | 0 <= i < j < |order| :: order[i] != order[j]
    ensures var b' := PruneBooks(b, order, cutoff, budget, held);
            && n <= budget && Cut(BookOf(b, u), BookOf(b', u), cutoff, n) && b' == b.(books := b'.books)
            && (n > 0 ==> u in order && u in b.books)
    decreases |order|
  {
    if order == [] {
      n := 0;
    } else {
      var o, rest := order[0], order[1..];
      assert o !in rest;
      if o in held || o !in b.books {
        n := CutBy(b, rest, cutoff, budget, held, u, clock);
      } else {
        var bk := b.books[o];
        var gone := |Candidates(bk.entries, cutoff, budget)|;
        var b1 := b.(books := b.books[o := PruneBook(bk, cutoff, budget)]);
        FirstCut(b, o, cutoff, budget, clock);
        n := CutBy(b1, rest, cutoff, budget - gone, held, u, clock);
        if u == o {
          n := gone;
          PruneBooksFrame(b1, rest, cutoff, budget - gone, held, o);
        }
      }
    }
  }

  lemma {:induction false} FirstCut(b: Bank, o: UserId, cutoff: nat, budget: nat, clock: nat)
    requires BankOk(b, clock) && o in b.books
    ensures var bk := b.books[o];
            var gone := |Candidates(bk.entries, cutoff, budget)|;
            && gone <= budget && Cut(bk, PruneBook(bk, cutoff, budget), cutoff, gone)
            && BankOk(b.(books := b.books[o := PruneBook(bk, cutoff, budget)]), clock)
  {
    var bk := b.books[o];
    assert UserBookOk(b, o, clock);
    EntriesSorted(bk, b.nextId, clock);
    BookIsCut(bk, cutoff, budget);
    OneBookPruned(b, o, cutoff, budget, clock);
  }

  lemma {:induction false} BookIsCut(bk: Book, cutoff: nat, budget: nat)
    requires Sorted(bk.entries) && Anchored(bk) && ArchiveBelow(bk)
    ensures var gone := |Candidates(bk.entries, cutoff, budget)|;
            gone <= budget && Cut(bk, PruneBook(bk, cutoff, budget), cutoff, gone)
  {
    var gone := |Candidates(bk.entries, cutoff, budget)|;
    PruneBookShape(bk, cutoff, budget);
    CandidatesArePrefix(bk.entries, cutoff, budget);
    if gone > 0 { NewBoundaryAnchors(bk, gone); }
  }

  lemma {:induction false} OneBookPruned(b: Bank, o: UserId, cutoff: nat, budget: nat, clock: nat)
    requires BankOk(b, clock) && o in b.books
    ensures BankOk(b.(books := b.books[o := PruneBook(b.books[o], cutoff, budget)]), clock)
  {
    var b1 := b.(books := b.books[o := PruneBook(b.books[o], cutoff, budget)]);
    forall v: UserId ensures UserBookOk(b1, v, clock) {
      assert UserBookOk(b, v, clock);
      if v == o { PruneBookKeepsMeaning(o, WalletOf(b, o), b.books[o], b.nextId, clock, cutoff, budget); }
    }
  }
}
