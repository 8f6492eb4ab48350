/** What quoting and confirming are admitted for and what they leave, with fields and numbers
    written out. */
module CheckoutEffects {
  import opened Common
  import opened Ledger
  import opened Schema
  import opened Wallet
  import opened Money
  import opened WalletLaws
  import Runner
  import opened Checkout
  import opened Machine
  import opened Frames
  import opened CheckoutLaws
  import RunnerEffects

  // ---------------------------------------------------------------- the session

  /** The caller's session: there, active, not over, and his. */
  predicate Live(s: Tables, c: Caller) {
    && c.session in s.sessions && s.sessions[c.session].state == Active && s.clock < s.sessions[c.session].expires
    && s.sessions[c.session].actor == c.actor
  }

  lemma SelectionChanged(s: Tables, c: Caller, lines: seq<Line>)
    ensures var o := Try(s, Select(c, lines));
            && (o.Ok? <==> Live(s, c) && s.sessions[c.session].config == c.config)
            && (o.Ok? ==> o.value == s.(sessions := s.sessions[c.session := s.sessions[c.session].(selected := lines)]))
  {}

  /** A session begins active and without a quote, under an id of its own. */
  lemma SessionStarted(s: Tables, x: SessionId, row: Session)
    ensures var o := Try(s, StartSession(x, row));
            && (o.Ok? <==> x !in s.sessions && row.state == Active && row.quote == None)
            && (o.Ok? ==> o.value == s.(sessions := s.sessions[x := row]))
  {}

  /** Ending sessions ends the active ones whose time is over, and changes no other. */
  lemma SessionsEnded(s: Tables)
    ensures var s' := Apply(s, EndSessions);
            && s'.sessions.Keys == s.sessions.Keys && s' == s.(sessions := s'.sessions)
            && forall x | x in s.sessions ::
                 s'.sessions[x] == if s.sessions[x].state == Active && s.sessions[x].expires <= s.clock
                                   then s.sessions[x].(state := SessionEnded) else s.sessions[x]
  {}

  // ---------------------------------------------------------------- the offer

  /** The quest is in the catalogue, for sale, with time enough, at the line's price and under
      the line's rule. */
  predicate OnOffer(catalogue: map<QuestId, Listing>, line: Line) {
    && line.quest in catalogue && catalogue[line.quest].forSale
    && catalogue[line.quest].price == line.price && catalogue[line.quest].rule == line.rule
    && catalogue[line.quest].enoughTime
  }

  /** Why the line is refused. */
  predicate RefusedFor(catalogue: map<QuestId, Listing>, line: Line, error: Error) {
    if line.quest !in catalogue || !catalogue[line.quest].forSale then error == NotForSale
    else if catalogue[line.quest].price != line.price || catalogue[line.quest].rule != line.rule then error == QuoteExpired
    else !catalogue[line.quest].enoughTime && error == InsufficientTime
  }

  lemma {:induction false} AllOnOffer(catalogue: map<QuestId, Listing>, lines: seq<Line>)
    ensures QuoteRefusal(catalogue, lines).None? <==> forall k | 0 <= k < |lines| :: OnOffer(catalogue, lines[k])
    decreases |lines|
  {
    if lines != [] {
      AllOnOffer(catalogue, lines[1..]);
      assert forall k | 0 < k < |lines| :: lines[k] == lines[1..][k - 1];
    }
  }

  lemma {:induction false} FirstNotOnOffer(catalogue: map<QuestId, Listing>, lines: seq<Line>, k: nat)
    requires k < |lines| && !OnOffer(catalogue, lines[k]) && forall j | 0 <= j < k :: OnOffer(catalogue, lines[j])
    ensures QuoteRefusal(catalogue, lines).Some? && RefusedFor(catalogue, lines[k], QuoteRefusal(catalogue, lines).value)
    decreases |lines|
  {
    if k > 0 {
      assert OnOffer(catalogue, lines[0]);
      FirstNotOnOffer(catalogue, lines[1..], k - 1);
    }
  }

  /** A quote is given iff the session is the caller's and something is selected, all of it on
      offer as the lines say; it remembers the lines and the configuration. */
  lemma {:induction false} QuotedIff(s: Tables, c: Caller, catalogue: map<QuestId, Listing>)
    ensures var o := Try(s, Quote(c, catalogue));
            && (o.Ok? <==> Live(s, c) && s.sessions[c.session].selected != []
                           && forall k | 0 <= k < |s.sessions[c.session].selected| ::
                                OnOffer(catalogue, s.sessions[c.session].selected[k]))
            && (o.Ok? ==>
                  var x := s.sessions[c.session];
                  o.value == s.(sessions := s.sessions[c.session := x.(quote := Some(QuoteHash(x.config, multiset(x.selected))))]))
  {
    if Live(s, c) { AllOnOffer(catalogue, s.sessions[c.session].selected); }
    assert Try(s, Quote(c, catalogue)) == BuildQuote(s, c, catalogue);
  }

  /** Otherwise the first line that is not on offer says why. */
  lemma {:induction false} QuoteRefusedFor(s: Tables, c: Caller, catalogue: map<QuestId, Listing>, k: nat)
    requires Live(s, c) && k < |s.sessions[c.session].selected|
    requires var lines := s.sessions[c.session].selected;
             !OnOffer(catalogue, lines[k]) && forall j | 0 <= j < k :: OnOffer(catalogue, lines[j])
    ensures var o := Try(s, Quote(c, catalogue)); o.Err? && RefusedFor(catalogue, s.sessions[c.session].selected[k], o.error)
  {
    FirstNotOnOffer(catalogue, s.sessions[c.session].selected, k);
    assert Try(s, Quote(c, catalogue)) == BuildQuote(s, c, catalogue);
  }

  // ---------------------------------------------------------------- confirming

  /** The session, the account check and the queue let a confirmation through. */
  predicate MayConfirm(s: Tables, c: Caller, p: Preflight, blocked: bool) {
    && Live(s, c) && s.sessions[c.session].config == c.config
    && s.clock <= p.checkedAt + 30 && !blocked && |RunnerEffects.Waiting(s)| < 500
  }

  /** What was quoted is what is selected. */
  predicate QuotedAsSelected(x: Session) {
    x.selected != [] && x.quote == Some(QuoteHash(x.config, multiset(x.selected)))
  }

  /** The account has still to do the quest, and it is on offer. */
  predicate Available(p: Preflight, catalogue: map<QuestId, Listing>, line: Line) {
    line.quest in p.pending && OnOffer(catalogue, line)
  }

  lemma {:induction false} AllAvailable(p: Preflight, catalogue: map<QuestId, Listing>, lines: seq<Line>)
    ensures SelectionRefusal(p.pending, catalogue, lines).None? <==> forall k | 0 <= k < |lines| :: Available(p, catalogue, lines[k])
    decreases |lines|
  {
    if lines != [] {
      AllAvailable(p, catalogue, lines[1..]);
      assert forall k | 0 < k < |lines| :: lines[k] == lines[1..][k - 1];
    }
  }

  lemma {:induction false} FirstUnavailable(p: Preflight, catalogue: map<QuestId, Listing>, lines: seq<Line>, k: nat)
    requires k < |lines| && !Available(p, catalogue, lines[k]) && forall j | 0 <= j < k :: Available(p, catalogue, lines[j])
    ensures var e := SelectionRefusal(p.pending, catalogue, lines);
            && e.Some?
            && (if lines[k].quest !in p.pending then e.value == ExternallyCompleted else RefusedFor(catalogue, lines[k], e.value))
    decreases |lines|
  {
    if k > 0 {
      assert Available(p, catalogue, lines[0]);
      FirstUnavailable(p, catalogue, lines[1..], k - 1);
    }
  }

  lemma {:induction false} AdmittedIff(s: Tables, c: Caller, p: Preflight, blocked: bool, catalogue: map<QuestId, Listing>)
    ensures Admitted(s, c, p, blocked, catalogue) <==>
              && MayConfirm(s, c, p, blocked) && QuotedAsSelected(s.sessions[c.session]) && p.account !in s.locks
              && forall k | 0 <= k < |s.sessions[c.session].selected| :: Available(p, catalogue, s.sessions[c.session].selected[k])
  {
    assert RunnerEffects.Waiting(s) == Runner.QueuedJobs(s.jobs);
    if c.session in s.sessions { AllAvailable(p, catalogue, s.sessions[c.session].selected); }
  }

  /** A confirmation goes through iff the session is the caller's, active, not over and under
      the present configuration, the account was checked at most thirty seconds ago, the
      customer is not blocked, fewer than five hundred jobs are queued, the selection is what
      was quoted, the account has no other order, every quest is still to be done and on offer
      at the quoted price and rule, and the wallet covers the prices, all of them positive. */
  lemma {:induction false} ConfirmedIff(s: Tables, c: Caller, p: Preflight, blocked: bool, catalogue: map<QuestId, Listing>, ctx: Context)
    requires Inv(s)
    ensures var o := Try(s, Step.Confirm(c, p, blocked, catalogue, ctx));
            && (o.Ok? <==>
                  && MayConfirm(s, c, p, blocked) && QuotedAsSelected(s.sessions[c.session]) && p.account !in s.locks
                  && var lines := s.sessions[c.session].selected;
                  && LinesTotal(lines) <= WalletOf(s.bank, c.actor).available
                  && forall k | 0 <= k < |lines| :: Available(p, catalogue, lines[k]) && lines[k].price > 0)
            && (o.Ok? ==> CheckoutLaws.Ordered(s, o.value, c, p.account, s.sessions[c.session].selected, catalogue))
  {
    AdmittedIff(s, c, p, blocked, catalogue);
    if Admitted(s, c, p, blocked, catalogue) { ConfirmSucceedsIff(s, c, p, blocked, catalogue, ctx); }
    NeedsAdmission(s, c, p, blocked, catalogue, ctx);
    assert Try(s, Step.Confirm(c, p, blocked, catalogue, ctx)) == ConfirmOrder(s, c, p, blocked, catalogue, ctx);
  }

  lemma NeedsAdmission(s: Tables, c: Caller, p: Preflight, blocked: bool, catalogue: map<QuestId, Listing>, ctx: Context)
    ensures ConfirmOrder(s, c, p, blocked, catalogue, ctx).Ok? ==> Admitted(s, c, p, blocked, catalogue)
  {}

  /** The first guard that fails says why. */
  lemma {:induction false} ConfirmRefusedFor(s: Tables, c: Caller, p: Preflight, blocked: bool, catalogue: map<QuestId, Listing>, ctx: Context)
    requires !MayConfirm(s, c, p, blocked) || !QuotedAsSelected(s.sessions[c.session])
    ensures var o := Try(s, Step.Confirm(c, p, blocked, catalogue, ctx));
            && o.Err?
            && o.error == if c.session !in s.sessions || s.sessions[c.session].state != Active || s.sessions[c.session].expires <= s.clock
                          then SessionExpired
                          else if s.sessions[c.session].actor != c.actor then NotAuthorized
                          else if s.sessions[c.session].config != c.config then QuoteExpired
                          else if p.checkedAt + 30 < s.clock then PreflightExpired
                          else if blocked then OrderBlocked
                          else if |RunnerEffects.Waiting(s)| >= 500 then QueueFull
                          else if s.sessions[c.session].selected == [] then NothingSelected
                          else QuoteExpired
  {
    assert RunnerEffects.Waiting(s) == Runner.QueuedJobs(s.jobs);
    assert Try(s, Step.Confirm(c, p, blocked, catalogue, ctx)) == ConfirmOrder(s, c, p, blocked, catalogue, ctx);
  }

  /** Then the first line that cannot be had, then the account's other order, then the
      wallet. */
  lemma {:induction false} LineRefusedFor(s: Tables, c: Caller, p: Preflight, blocked: bool, catalogue: map<QuestId, Listing>,
                                          ctx: Context, k: nat)
    requires MayConfirm(s, c, p, blocked) && QuotedAsSelected(s.sessions[c.session]) && k < |s.sessions[c.session].selected|
    requires var lines := s.sessions[c.session].selected;
             !Available(p, catalogue, lines[k]) && forall j | 0 <= j < k :: Available(p, catalogue, lines[j])
    ensures var o := Try(s, Step.Confirm(c, p, blocked, catalogue, ctx));
            && o.Err?
            && var line := s.sessions[c.session].selected[k];
            if line.quest !in p.pending then o.error == ExternallyCompleted else RefusedFor(catalogue, line, o.error)
  {
    assert RunnerEffects.Waiting(s) == Runner.QueuedJobs(s.jobs);
    FirstUnavailable(p, catalogue, s.sessions[c.session].selected, k);
    assert Try(s, Step.Confirm(c, p, blocked, catalogue, ctx)) == ConfirmOrder(s, c, p, blocked, catalogue, ctx);
  }

  lemma {:induction false} OrderRefusedFor(s: Tables, c: Caller, p: Preflight, blocked: bool, catalogue: map<QuestId, Listing>,
                                           ctx: Context)
    requires MayConfirm(s, c, p, blocked) && QuotedAsSelected(s.sessions[c.session])
    requires forall k | 0 <= k < |s.sessions[c.session].selected| :: Available(p, catalogue, s.sessions[c.session].selected[k])
    ensures var o := Try(s, Step.Confirm(c, p, blocked, catalogue, ctx));
            && (p.account in s.locks ==> o == Err(AccountActiveOrder))
            && (p.account !in s.locks && WalletOf(s.bank, c.actor).available < LinesTotal(s.sessions[c.session].selected) ==>
                  o == Err(InsufficientBalance))
  {
    assert RunnerEffects.Waiting(s) == Runner.QueuedJobs(s.jobs);
    AllAvailable(p, catalogue, s.sessions[c.session].selected);
    PlacingRefused(s, c, p, blocked, catalogue, ctx);
    assert Try(s, Step.Confirm(c, p, blocked, catalogue, ctx)) == ConfirmOrder(s, c, p, blocked, catalogue, ctx);
  }

  lemma {:induction false} PlacingRefused(s: Tables, c: Caller, p: Preflight, blocked: bool, catalogue: map<QuestId, Listing>,
                                          ctx: Context)
    requires c.session in s.sessions && ValidateConfirmation(s, c, p, blocked, catalogue) == Ok(s.sessions[c.session])
    requires s.sessions[c.session].selected != []
    ensures var o := ConfirmOrder(s, c, p, blocked, catalogue, ctx);
            && (p.account in s.locks ==> o == Err(AccountActiveOrder))
            && (p.account !in s.locks && WalletOf(s.bank, c.actor).available < LinesTotal(s.sessions[c.session].selected) ==>
                  o == Err(InsufficientBalance))
  {
    RequestsTotal(|s.items|, s.sessions[c.session].selected);
  }

  // ---------------------------------------------------------------- the order

  /** One row per line, the first of them queued and the others waiting, each with its price on
      hold for the customer. */
  predicate RowsOfOrder(s: Tables, s': Tables, u: UserId, lines: seq<Line>, catalogue: map<QuestId, Listing>) {
    && |s'.items| == |s.items| + |lines| && s'.items[..|s.items|] == s.items
    && forall k | 0 <= k < |lines| ::
         && lines[k].quest in catalogue
         && s'.items[|s.items| + k] == Item(|s.orders|, lines[k].price, catalogue[lines[k].quest].deadline,
                                            if k == 0 then Queued else Stage.Reserved,
                                            Some(Reservation(u, lines[k].price, Held, 1)), catalogue[lines[k].quest].progress)
  }

  /** One order, one account lock and one job; a customer new to the scheduler enters it; the
      session is confirmed. */
  predicate OrderRows(s: Tables, s': Tables, c: Caller, account: AccountId, deadline: nat)
    requires c.session in s.sessions
  {
    && s'.orders == s.orders + [Order(c.actor, account, false, true)]
    && s'.locks == s.locks[account := |s.orders|]
    && s'.jobs == s.jobs[|s.items| := Job(c.actor, Queued, 1, s.clock, deadline, true, None, 0, 0, [])]
    && s'.scheduler == (if c.actor in s.scheduler then s.scheduler else s.scheduler[c.actor := Turn(None, s.clock)])
    && s'.sessions == s.sessions[c.session := s.sessions[c.session].(state := Confirmed)]
    && s' == s.(bank := s'.bank, items := s'.items, orders := s'.orders, locks := s'.locks, jobs := s'.jobs,
                scheduler := s'.scheduler, sessions := s'.sessions)
  }

  /** The ledger row for one line. */
  predicate HoldRow(e: Entry, line: Line, i: ItemId, ctx: Context, now: nat) {
    Posting(e.kind, e.deltaAvailable, e.deltaReserved, e.reference, e.key)
    == Posting(Kind.Reserve, 0 - line.price, line.price, ItemRef(i), ReserveKey(ctx, i)) && e.created == now
  }

  /** From one ledger to the next, one row per line, in the lines' order. */
  predicate LineRows(es: seq<Entry>, es': seq<Entry>, base: nat, lines: seq<Line>, ctx: Context, now: nat) {
    && |es'| == |es| + |lines| && es'[..|es|] == es
    && forall k | 0 <= k < |lines| :: HoldRow(es'[|es| + k], lines[k], base + k, ctx, now)
  }

  /** The customer's total is on hold, with one ledger row per line; nobody
      else's money is touched. */
  ghost predicate MoneyOnHold(s: Tables, s': Tables, u: UserId, lines: seq<Line>, ctx: Context) {
    var w := WalletOf(s.bank, u);
    && WalletOf(s'.bank, u) == Balance(w.available - LinesTotal(lines), w.reserved + LinesTotal(lines))
    && LineRows(BookOf(s.bank, u).entries, BookOf(s'.bank, u).entries, |s.items|, lines, ctx, s.clock)
    && forall v: UserId | v != u :: WalletOf(s'.bank, v) == WalletOf(s.bank, v) && BookOf(s'.bank, v) == BookOf(s.bank, v)
  }

  /** All that a confirmation writes. */
  lemma {:induction false} OrderIsPlaced(s: Tables, c: Caller, p: Preflight, blocked: bool, catalogue: map<QuestId, Listing>, ctx: Context)
    requires Inv(s) && Try(s, Step.Confirm(c, p, blocked, catalogue, ctx)).Ok?
    ensures c.session in s.sessions && s.sessions[c.session].selected != []
    ensures var s', lines := Apply(s, Step.Confirm(c, p, blocked, catalogue, ctx)), s.sessions[c.session].selected;
            && RowsOfOrder(s, s', c.actor, lines, catalogue)
            && lines[0].quest in catalogue && OrderRows(s, s', c, p.account, catalogue[lines[0].quest].deadline)
            && MoneyOnHold(s, s', c.actor, lines, ctx)
  {
    ConfirmedIff(s, c, p, blocked, catalogue, ctx);
    var s', lines := Apply(s, Step.Confirm(c, p, blocked, catalogue, ctx)), s.sessions[c.session].selected;
    forall k | 0 <= k < |lines| ensures lines[k].quest in catalogue { assert Available(p, catalogue, lines[k]); }
    OrderedLiterally(s, s', c, p.account, lines, catalogue);
    assert Try(s, Step.Confirm(c, p, blocked, catalogue, ctx)) == ConfirmOrder(s, c, p, blocked, catalogue, ctx);
    AllAspects(s);
    HoldRowsWritten(s, s', c, p, blocked, catalogue, ctx);
    TotalOnHold(s, s', c, p.account, lines, catalogue, ctx);
  }

  lemma TotalOnHold(s: Tables, s': Tables, c: Caller, account: AccountId, lines: seq<Line>, catalogue: map<QuestId, Listing>,
                    ctx: Context)
    requires lines != [] && c.session in s.sessions && CheckoutLaws.Ordered(s, s', c, account, lines, catalogue)
    requires LineRows(BookOf(s.bank, c.actor).entries, BookOf(s'.bank, c.actor).entries, |s.items|, lines, ctx, s.clock)
    ensures MoneyOnHold(s, s', c.actor, lines, ctx)
  {
    assert Charged(s.bank, s'.bank, c.actor, LinesTotal(lines), c.actor);
    forall v: UserId | v != c.actor
      ensures WalletOf(s'.bank, v) == WalletOf(s.bank, v) && BookOf(s'.bank, v) == BookOf(s.bank, v)
    {
      assert Charged(s.bank, s'.bank, c.actor, LinesTotal(lines), v);
    }
  }

  lemma OrderedLiterally(s: Tables, s': Tables, c: Caller, account: AccountId, lines: seq<Line>, catalogue: map<QuestId, Listing>)
    requires lines != [] && c.session in s.sessions && CheckoutLaws.Ordered(s, s', c, account, lines, catalogue)
    requires forall k | 0 <= k < |lines| :: lines[k].quest in catalogue
    ensures RowsOfOrder(s, s', c.actor, lines, catalogue) && OrderRows(s, s', c, account, catalogue[lines[0].quest].deadline)
  {
    forall k | 0 <= k < |lines|
      ensures s'.items[|s.items| + k] == OrderedItem(s, c.actor, lines, catalogue, k)
    {}
  }

  // ---------------------------------------------------------------- the ledger rows of an order

  predicate RequestRow(e: Entry, r: Request, ctx: Context, now: nat) {
    Posting(e.kind, e.deltaAvailable, e.deltaReserved, e.reference, e.key)
    == Posting(Kind.Reserve, 0 - r.amount, r.amount, ItemRef(r.item), ReserveKey(ctx, r.item)) && e.created == now
  }

  /** From one ledger to the next, one row per request. */
  predicate HoldRows(es: seq<Entry>, es': seq<Entry>, rs: seq<Request>, ctx: Context, now: nat) {
    && |es'| == |es| + |rs| && es'[..|es|] == es
    && forall k | 0 <= k < |rs| :: RequestRow(es'[|es| + k], rs[k], ctx, now)
  }

  lemma OneHoldRow(s: Tables, u: UserId, r: Request, ctx: Context)
    requires MoneyOk(s) && ReserveOne(s, u, r, ctx).Ok? && r.item !in s.refunds
    ensures var s' := ReserveOne(s, u, r, ctx).value;
            && MoneyOk(s') && s'.clock == s.clock && s'.refunds == s.refunds
            && HoldRows(BookOf(s.bank, u).entries, BookOf(s'.bank, u).entries, [r], ctx, s.clock)
  {
    ReserveOneKeepsMoney(s, u, r, ctx);
  }

  lemma {:induction false} HoldRowsJoin(a: seq<Entry>, b: seq<Entry>, c: seq<Entry>, rs: seq<Request>, ctx: Context, now: nat)
    requires rs != [] && HoldRows(a, b, [rs[0]], ctx, now) && HoldRows(b, c, rs[1..], ctx, now)
    ensures HoldRows(a, c, rs, ctx, now)
  {
    assert c[..|a|] == b[..|a|];
    forall k | 0 <= k < |rs| ensures RequestRow(c[|a| + k], rs[k], ctx, now) {
      if k == 0 {
        assert c[|a|] == b[..|b|][|a|] && RequestRow(b[|a| + 0], [rs[0]][0], ctx, now);
      } else {
        assert RequestRow(c[|b| + (k - 1)], rs[1..][k - 1], ctx, now);
      }
    }
  }

  lemma {:induction false} EachHoldRow(s: Tables, u: UserId, rs: seq<Request>, ctx: Context)
    requires MoneyOk(s) && ReserveEach(s, u, rs, ctx).Ok? && forall k | 0 <= k < |rs| :: rs[k].item !in s.refunds
    ensures HoldRows(BookOf(s.bank, u).entries, BookOf(ReserveEach(s, u, rs, ctx).value.bank, u).entries, rs, ctx, s.clock)
    decreases |rs|
  {
    if rs != [] {
      var s1 := ReserveOne(s, u, rs[0], ctx).value;
      OneHoldRow(s, u, rs[0], ctx);
      assert forall k | 0 <= k < |rs[1..]| :: rs[1..][k] == rs[k + 1];
      EachHoldRow(s1, u, rs[1..], ctx);
      HoldRowsJoin(BookOf(s.bank, u).entries, BookOf(s1.bank, u).entries,
                   BookOf(ReserveEach(s1, u, rs[1..], ctx).value.bank, u).entries, rs, ctx, s.clock);
    }
  }

  lemma {:induction false} HoldRowsWritten(s: Tables, s': Tables, c: Caller, p: Preflight, blocked: bool, catalogue: map<QuestId, Listing>,
                                           ctx: Context)
    requires MoneyOk(s) && RegistryOk(s) && ConfirmOrder(s, c, p, blocked, catalogue, ctx) == Ok(s')
    ensures c.session in s.sessions
    ensures LineRows(BookOf(s.bank, c.actor).entries, BookOf(s'.bank, c.actor).entries, |s.items|, s.sessions[c.session].selected, ctx,
                     s.clock)
  {
    ConfirmedBank(s, c, p, blocked, catalogue, ctx);
    var lines := s.sessions[c.session].selected;
    ReservedRows(s, c.actor, p.account, lines, catalogue, ctx);
    RowsOfLines(BookOf(s.bank, c.actor).entries, BookOf(s'.bank, c.actor).entries, |s.items|, lines, ctx, s.clock);
  }

  /** The bank is what reserving leaves. */
  lemma {:induction false} ConfirmedBank(s: Tables, c: Caller, p: Preflight, blocked: bool, catalogue: map<QuestId, Listing>, ctx: Context)
    requires ConfirmOrder(s, c, p, blocked, catalogue, ctx).Ok?
    ensures c.session in s.sessions
    ensures var lines := s.sessions[c.session].selected;
            var created := CreateOrder(s, c.actor, p.account, lines, catalogue);
            && created.Ok? && ReserveEach(created.value, c.actor, RequestsFor(|s.items|, lines), ctx).Ok?
            && ConfirmOrder(s, c, p, blocked, catalogue, ctx).value.bank
               == ReserveEach(created.value, c.actor, RequestsFor(|s.items|, lines), ctx).value.bank
  {
    ConfirmUnfolds(s, c, p, blocked, catalogue, ctx);
  }

  lemma {:induction false} ReservedRows(s: Tables, u: UserId, account: AccountId, lines: seq<Line>, catalogue: map<QuestId, Listing>,
                                        ctx: Context)
    requires MoneyOk(s) && RegistryOk(s) && CreateOrder(s, u, account, lines, catalogue).Ok?
    requires ReserveEach(CreateOrder(s, u, account, lines, catalogue).value, u, RequestsFor(|s.items|, lines), ctx).Ok?
    ensures var c1, rs := CreateOrder(s, u, account, lines, catalogue).value, RequestsFor(|s.items|, lines);
            HoldRows(BookOf(s.bank, u).entries, BookOf(ReserveEach(c1, u, rs, ctx).value.bank, u).entries, rs, ctx, s.clock)
  {
    var c1 := CreateOrder(s, u, account, lines, catalogue).value;
    CreatedMoney(s, u, account, lines, catalogue);
    NewItemsPriced(s, c1, u, account, lines, catalogue);
    EachHoldRow(c1, u, RequestsFor(|s.items|, lines), ctx);
  }

  lemma {:induction false} RowsOfLines(es: seq<Entry>, es': seq<Entry>, base: nat, lines: seq<Line>, ctx: Context, now: nat)
    requires HoldRows(es, es', RequestsFor(base, lines), ctx, now)
    ensures LineRows(es, es', base, lines, ctx, now)
  {
    forall k | 0 <= k < |lines| ensures HoldRow(es'[|es| + k], lines[k], base + k, ctx, now) {
      assert RequestRow(es'[|es| + k], RequestsFor(base, lines)[k], ctx, now);
    }
  }
}
