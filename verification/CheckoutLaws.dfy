/** Checkout: confirming is all or nothing, charges exactly what was quoted and
    keeps the invariant. */
module CheckoutLaws {
  import opened Common
  import opened Ledger
  import opened Schema
  import opened Wallet
  import opened Money
  import opened Settlement
  import opened WalletLaws
  import opened Runner
  import opened Lockstep
  import opened Payments
  import opened Checkout
  import opened Frames
  import opened RunnerSteps
  import opened MoneySteps

  // ---------------------------------------------------------------- sessions

  lemma SelectGood(s: Tables, c: Caller, lines: seq<Line>)
    requires Inv(s) && UpdateSelection(s, c, lines).Ok?
    ensures Good(s, UpdateSelection(s, c, lines).value)
  {
    SessionStepGood(s, UpdateSelection(s, c, lines).value);
  }

  lemma QuoteGood(s: Tables, c: Caller, catalogue: map<QuestId, Listing>)
    requires Inv(s) && BuildQuote(s, c, catalogue).Ok?
    ensures Good(s, BuildQuote(s, c, catalogue).value)
  {
    SessionStepGood(s, BuildQuote(s, c, catalogue).value);
  }

  lemma ExpireSessionsGood(s: Tables)
    requires Inv(s)
    ensures Good(s, ExpireSessions(s))
  {
    SessionStepGood(s, ExpireSessions(s));
  }

  lemma StartSessionGood(s: Tables, x: SessionId, row: Session)
    requires Inv(s) && CreateSession(s, x, row).Ok?
    ensures Good(s, CreateSession(s, x, row).value)
  {
    SessionStepGood(s, CreateSession(s, x, row).value);
  }

  // ---------------------------------------------------------------- creating the order

  lemma CreatedMoney(s: Tables, u: UserId, account: AccountId, lines: seq<Line>, catalogue: map<QuestId, Listing>)
    requires MoneyOk(s) && CreateOrder(s, u, account, lines, catalogue).Ok?
    ensures MoneyOk(CreateOrder(s, u, account, lines, catalogue).value)
  {
    var s' := CreateOrder(s, u, account, lines, catalogue).value;
    forall v: UserId ensures ReservedSum(s'.items, v) == ReservedSum(s.items, v) { ReservedSumSame(s.items, s'.items, v); }
    assert forall v: UserId, q: Purpose :: Due(s', v, q) <==> Due(s, v, q);
    SameMoneyKeeps(s, s');
  }

  lemma NewOrderActive(s: Tables, u: UserId, account: AccountId, lines: seq<Line>, catalogue: map<QuestId, Listing>)
    requires CreateOrder(s, u, account, lines, catalogue).Ok? && lines != []
    ensures OrderActive(CreateOrder(s, u, account, lines, catalogue).value.items, |s.orders|)
  {
    assert CreateOrder(s, u, account, lines, catalogue).value.items[|s.items|].order == |s.orders|;
  }

  lemma OldOrderStaysActive(s: Tables, s': Tables, o: OrderId)
    requires |s.items| <= |s'.items| && s'.items[..|s.items|] == s.items && OrderActive(s.items, o)
    ensures OrderActive(s'.items, o)
  {
    var i :| 0 <= i < |s.items| && s.items[i].order == o && s.items[i].state !in TerminalItemStates;
    assert s'.items[i] == s.items[i];
  }

  lemma CreatedSettlement(s: Tables, u: UserId, account: AccountId, lines: seq<Line>, catalogue: map<QuestId, Listing>)
    requires SettlementOk(s) && CreateOrder(s, u, account, lines, catalogue).Ok? && lines != []
    ensures var s' := CreateOrder(s, u, account, lines, catalogue).value; SettlementOk(s') && ReservationsKept(s, s')
  {
    var s' := CreateOrder(s, u, account, lines, catalogue).value;
    NewOrderActive(s, u, account, lines, catalogue);
    forall k: nat ensures RowsOk(s', k) {
      assert RowsOk(s, k);
      if k < |s.items| { ItemOkFrame(s, s', k); }
      if k < |s.orders| && OrderActive(s.items, k) { OldOrderStaysActive(s, s', k); }
    }
  }

  // ---------------------------------------------------------------- reserving

  lemma {:induction false} ReserveEachTouches(s: Tables, u: UserId, rs: seq<Request>, ctx: Context, i: ItemId)
    requires ReserveEach(s, u, rs, ctx).Ok? && i < |s.items|
    requires forall k | 0 <= k < |rs| :: rs[k].item != i
    ensures var s' := ReserveEach(s, u, rs, ctx).value; i < |s'.items| && s'.items[i] == s.items[i]
    decreases |rs|
  {
    if rs != [] { ReserveEachTouches(ReserveOne(s, u, rs[0], ctx).value, u, rs[1..], ctx, i); }
  }

  /** The order is created and its items reserved, before the first is queued. */
  ghost predicate OrderPlaced(s: Tables, s': Tables) {
    && MoneyOk(s') && SettlementOk(s') && ReservationsKept(s, s')
    && s' == s.(bank := s'.bank, items := s'.items, orders := s'.orders, locks := s'.locks)
    && |s.items| <= |s'.items| && |s'.orders| == |s.orders| + 1 && s'.orders[..|s.orders|] == s.orders
    && forall i | 0 <= i < |s.items| :: s'.items[i] == s.items[i]
  }

  lemma NewItemsPriced(s: Tables, c1: Tables, u: UserId, account: AccountId, lines: seq<Line>,
                       catalogue: map<QuestId, Listing>)
    requires RegistryOk(s) && CreateOrder(s, u, account, lines, catalogue) == Ok(c1)
    ensures var rs := RequestsFor(|s.items|, lines);
            && (forall k | 0 <= k < |rs| :: rs[k].item !in c1.refunds)
            && (forall k | 0 <= k < |rs| :: Priced(c1, u, rs[k]))
  {
    var rs := RequestsFor(|s.items|, lines);
    forall k | 0 <= k < |rs| ensures rs[k].item !in c1.refunds { assert RegistryAt(s, rs[k].item); }
  }

  lemma PlacedOrder(s: Tables, u: UserId, account: AccountId, lines: seq<Line>, catalogue: map<QuestId, Listing>, ctx: Context)
    requires Inv(s) && lines != [] && CreateOrder(s, u, account, lines, catalogue).Ok?
    requires ReserveItems(CreateOrder(s, u, account, lines, catalogue).value, u, RequestsFor(|s.items|, lines), ctx).Ok?
    ensures var c1 := CreateOrder(s, u, account, lines, catalogue).value;
            OrderPlaced(s, ReserveItems(c1, u, RequestsFor(|s.items|, lines), ctx).value)
  {
    AllAspects(s);
    var c1 := CreateOrder(s, u, account, lines, catalogue).value;
    var rs := RequestsFor(|s.items|, lines);
    CreatedMoney(s, u, account, lines, catalogue);
    CreatedSettlement(s, u, account, lines, catalogue);
    NewItemsPriced(s, c1, u, account, lines, catalogue);
    ReserveEachKeeps(c1, u, rs, ctx);
    forall i | 0 <= i < |s.items| ensures ReserveEach(c1, u, rs, ctx).value.items[i] == s.items[i] {
      ReserveEachTouches(c1, u, rs, ctx, i);
    }
  }

  // ---------------------------------------------------------------- confirming

  function Scheduled(s: Tables, u: UserId): Tables {
    s.(scheduler := if u in s.scheduler then s.scheduler else s.scheduler[u := Turn(None, s.clock)])
  }

  lemma PlacedGood(s: Tables, s': Tables, u: UserId)
    requires Inv(s) && OrderPlaced(s, s') && s'.orders[|s.orders|].user == u
    ensures Good(s, Scheduled(s', u))
  {
    AllAspects(s);
    var s1 := Scheduled(s', u);
    MoneyFrame(s', s1);
    SettlementFrame(s', s1);
    assert forall i | i in s.jobs && i < |s.items| :: s1.items[i] == s.items[i];
    TerminalItemsKeep(s, s1);
    PaymentFrame(s, s1);
    BonusFrame(s, s1);
    forall k: nat ensures RegistryAt(s1, k) {
      assert RegistryAt(s, k);
      if k < |s.orders| { assert s'.orders[k] == s.orders[k]; }
    }
    FromAspects(s1);
    forall k: nat ensures KeptAt(s, s1, k) {}
  }

  /** Queueing the first item does not care whether its user was scheduled before. */
  lemma QueueFirstIsQueue(s: Tables, i: ItemId, u: UserId)
    ensures QueueFirst(s, i, u) == QueueItem(Scheduled(s, u), i, u)
  {}

  lemma ConfirmUnfolds(s: Tables, c: Caller, p: Preflight, blocked: bool, catalogue: map<QuestId, Listing>, ctx: Context)
    requires ConfirmOrder(s, c, p, blocked, catalogue, ctx).Ok?
    ensures c.session in s.sessions && s.sessions[c.session].selected != []
    ensures var lines := s.sessions[c.session].selected;
            var created := CreateOrder(s, c.actor, p.account, lines, catalogue);
            && created.Ok?
            && var reserved := ReserveItems(created.value, c.actor, RequestsFor(|s.items|, lines), ctx);
            && reserved.Ok?
            && var queued := QueueFirst(reserved.value, |s.items|, c.actor);
            && queued.Ok?
            && ConfirmOrder(s, c, p, blocked, catalogue, ctx).value
               == queued.value.(sessions := queued.value.sessions[c.session := s.sessions[c.session].(state := Confirmed)])
  {}

  lemma ConfirmGood(s: Tables, c: Caller, p: Preflight, blocked: bool, catalogue: map<QuestId, Listing>, ctx: Context)
    requires Inv(s) && ConfirmOrder(s, c, p, blocked, catalogue, ctx).Ok?
    ensures Good(s, ConfirmOrder(s, c, p, blocked, catalogue, ctx).value)
  {
    ConfirmUnfolds(s, c, p, blocked, catalogue, ctx);
    var lines, base := s.sessions[c.session].selected, |s.items|;
    var c1 := CreateOrder(s, c.actor, p.account, lines, catalogue).value;
    var c2 := ReserveItems(c1, c.actor, RequestsFor(base, lines), ctx).value;
    PlacedOrder(s, c.actor, p.account, lines, catalogue, ctx);
    OrdersKept(c1, c.actor, RequestsFor(base, lines), ctx);
    PlacedGood(s, c2, c.actor);
    QueueFirstIsQueue(c2, base, c.actor);
    QueueItemGood(Scheduled(c2, c.actor), base, c.actor);
    var c3 := QueueFirst(c2, base, c.actor).value;
    SessionStepGood(c3, ConfirmOrder(s, c, p, blocked, catalogue, ctx).value);
    GoodTransitive(s, Scheduled(c2, c.actor), c3);
    GoodTransitive(s, c3, ConfirmOrder(s, c, p, blocked, catalogue, ctx).value);
  }

  lemma {:induction false} OrdersKept(s: Tables, u: UserId, rs: seq<Request>, ctx: Context)
    requires ReserveEach(s, u, rs, ctx).Ok?
    ensures ReserveEach(s, u, rs, ctx).value.orders == s.orders
    decreases |rs|
  {
    if rs != [] { OrdersKept(ReserveOne(s, u, rs[0], ctx).value, u, rs[1..], ctx); }
  }

  // ---------------------------------------------------------------- the quoted total

  lemma {:induction false} TotalOfConcat(a: seq<Line>, b: seq<Line>)
    ensures LinesTotal(a + b) == LinesTotal(a) + LinesTotal(b)
  {
    if a == [] {
      assert a + b == b;
    } else {
      assert (a + b)[1..] == a[1..] + b;
      TotalOfConcat(a[1..], b);
    }
  }

  lemma {:induction false} WithoutLine(b: seq<Line>, j: nat)
    requires j < |b|
    ensures var rest := b[..j] + b[j + 1..];
            LinesTotal(b) == b[j].price + LinesTotal(rest) && multiset(rest) == multiset(b) - multiset{b[j]}
  {
    assert b == b[..j] + ([b[j]] + b[j + 1..]);
    TotalOfConcat(b[..j], [b[j]] + b[j + 1..]);
    TotalOfConcat(b[..j], b[j + 1..]);
  }

  /** The first line of one listing stands somewhere in the other. */
  lemma {:induction false} FirstElsewhere(a: seq<Line>, b: seq<Line>) returns (j: nat)
    requires a != [] && multiset(a) == multiset(b)
    ensures j < |b| && b[j] == a[0] && multiset(a[1..]) == multiset(b[..j] + b[j + 1..])
  {
    assert a[0] in multiset(a);
    assert a[0] in multiset(b);
    j :| 0 <= j < |b| && b[j] == a[0];
    WithoutLine(b, j);
    assert a == [a[0]] + a[1..];
  }

  /** The total does not depend on the order in which the lines are listed. */
  lemma {:induction false} TotalOfMultiset(a: seq<Line>, b: seq<Line>)
    requires multiset(a) == multiset(b)
    ensures LinesTotal(a) == LinesTotal(b)
  {
    if a == [] {
      assert |multiset(b)| == 0;
    } else {
      var j := FirstElsewhere(a, b);
      WithoutLine(b, j);
      TotalOfMultiset(a[1..], b[..j] + b[j + 1..]);
    }
  }

  lemma {:induction false} RequestsTotal(base: nat, lines: seq<Line>)
    ensures Total(RequestsFor(base, lines)) == LinesTotal(lines)
    decreases |lines|
  {
    if lines != [] {
      assert RequestsFor(base, lines)[1..] == RequestsFor(base + 1, lines[1..]);
      RequestsTotal(base + 1, lines[1..]);
    }
  }

  lemma {:induction false} RequestedLine(base: nat, lines: seq<Line>, i: ItemId)
    ensures Requested(RequestsFor(base, lines), i)
            == if base <= i < base + |lines| then Some(lines[i - base].price) else None
    decreases |lines|
  {
    if lines != [] {
      assert RequestsFor(base, lines)[1..] == RequestsFor(base + 1, lines[1..]);
      RequestedLine(base + 1, lines[1..], i);
    }
  }

  // ---------------------------------------------------------------- exactly when it succeeds

  lemma {:induction false} ReservedAmountsPositive(s: Tables, u: UserId, rs: seq<Request>, ctx: Context, k: nat)
    requires ReserveEach(s, u, rs, ctx).Ok? && k < |rs|
    ensures rs[k].amount > 0
    decreases |rs|
  {
    if k > 0 { ReservedAmountsPositive(ReserveOne(s, u, rs[0], ctx).value, u, rs[1..], ctx, k - 1); }
  }

  lemma NewItemsReservable(s: Tables, c1: Tables, u: UserId, account: AccountId, lines: seq<Line>,
                           catalogue: map<QuestId, Listing>)
    requires RegistryOk(s) && CreateOrder(s, u, account, lines, catalogue) == Ok(c1)
    requires forall k | 0 <= k < |lines| :: lines[k].price > 0
    ensures AllReservable(c1, RequestsFor(|s.items|, lines))
  {
    var rs := RequestsFor(|s.items|, lines);
    forall k: nat | k < |rs| ensures ReservableAt(c1, rs, k) { assert RegistryAt(s, rs[k].item); }
  }

  /** What a confirmed order of these lines looks like, at one item and one user. */
  ghost predicate OrderedAt(s: Tables, s': Tables, u: UserId, lines: seq<Line>, i: ItemId, v: UserId) {
    && |s'.items| == |s.items| + |lines|
    && (i < |s.items| ==> s'.items[i] == s.items[i])
    && (|s.items| <= i < |s'.items| ==>
          && s'.items[i].order == |s.orders| && s'.items[i].price == lines[i - |s.items|].price
          && s'.items[i].state == (if i == |s.items| then Queued else Stage.Reserved)
          && s'.items[i].reservation == Some(Reservation(u, lines[i - |s.items|].price, Held, 1)))
    && (i in s'.jobs <==> i in s.jobs || i == |s.items|)
    && WalletOf(s'.bank, v) == (if v == u then Balance(WalletOf(s.bank, u).available - LinesTotal(lines),
                                                       WalletOf(s.bank, u).reserved + LinesTotal(lines))
                                else WalletOf(s.bank, v))
  }

  /** The guards before the loop pass. */
  predicate Admitted(s: Tables, c: Caller, p: Preflight, blocked: bool, catalogue: map<QuestId, Listing>) {
    ValidateConfirmation(s, c, p, blocked, catalogue).Ok? && p.account !in s.locks
  }

  lemma AdmittedSession(s: Tables, c: Caller, p: Preflight, blocked: bool, catalogue: map<QuestId, Listing>)
    requires Admitted(s, c, p, blocked, catalogue)
    ensures c.session in s.sessions
    ensures ValidateConfirmation(s, c, p, blocked, catalogue).value == s.sessions[c.session]
    ensures s.sessions[c.session].selected != []
  {}

  lemma NoJobYet(s: Tables, i: ItemId)
    requires Inv(s) && i >= |s.items|
    ensures i !in s.jobs
  {
    if i in s.jobs { HasJobRow(s, i); }
  }

  lemma {:induction false} NewItemsReserve(s: Tables, u: UserId, account: AccountId, lines: seq<Line>, catalogue: map<QuestId, Listing>,
                        ctx: Context, i: ItemId, v: UserId)
    requires Inv(s) && CreateOrder(s, u, account, lines, catalogue).Ok?
    requires forall k | 0 <= k < |lines| :: lines[k].price > 0
    requires WalletOf(s.bank, u).available >= LinesTotal(lines)
    ensures var c1 := CreateOrder(s, u, account, lines, catalogue).value;
            var rs := RequestsFor(|s.items|, lines);
            && Total(rs) == LinesTotal(lines)
            && ReservedAt(c1, ReserveEach(c1, u, rs, ctx), u, rs, i, v)
            && Requested(rs, i) == if |s.items| <= i < |s.items| + |lines| then Some(lines[i - |s.items|].price) else None
  {
    AllAspects(s);
    var c1 := CreateOrder(s, u, account, lines, catalogue).value;
    CreatedMoney(s, u, account, lines, catalogue);
    NewItemsReservable(s, c1, u, account, lines, catalogue);
    RequestsTotal(|s.items|, lines);
    TotalCheckSuffices(c1, u, RequestsFor(|s.items|, lines), ctx);
    RequestedLine(|s.items|, lines, i);
  }

  lemma {:induction false} FirstQueued(s: Tables, u: UserId, account: AccountId, lines: seq<Line>, catalogue: map<QuestId, Listing>,
                                       ctx: Context)
    requires Inv(s) && lines != [] && CreateOrder(s, u, account, lines, catalogue).Ok?
    requires forall k | 0 <= k < |lines| :: lines[k].price > 0
    requires WalletOf(s.bank, u).available >= LinesTotal(lines)
    ensures var c1, rs := CreateOrder(s, u, account, lines, catalogue).value, RequestsFor(|s.items|, lines);
            && ReserveItems(c1, u, rs, ctx) == ReserveEach(c1, u, rs, ctx) && ReserveEach(c1, u, rs, ctx).Ok?
            && QueueFirst(ReserveEach(c1, u, rs, ctx).value, |s.items|, u).Ok?
  {
    NewItemsReserve(s, u, account, lines, catalogue, ctx, |s.items|, u);
    NoJobYet(s, |s.items|);
  }

  lemma {:induction false} OrderWritten(s: Tables, u: UserId, account: AccountId, lines: seq<Line>, catalogue: map<QuestId, Listing>,
                     ctx: Context, i: ItemId, v: UserId)
    requires Inv(s) && lines != [] && CreateOrder(s, u, account, lines, catalogue).Ok?
    requires forall k | 0 <= k < |lines| :: lines[k].price > 0
    requires WalletOf(s.bank, u).available >= LinesTotal(lines)
    ensures var reserved := ReserveItems(CreateOrder(s, u, account, lines, catalogue).value, u, RequestsFor(|s.items|, lines), ctx);
            && reserved.Ok?
            && var queued := QueueFirst(reserved.value, |s.items|, u);
            && queued.Ok? && OrderedAt(s, queued.value, u, lines, i, v)
  {
    var c1, rs := CreateOrder(s, u, account, lines, catalogue).value, RequestsFor(|s.items|, lines);
    FirstQueued(s, u, account, lines, catalogue, ctx);
    NewItemsReserve(s, u, account, lines, catalogue, ctx, i, v);
    QueuedRows(s, c1, ReserveEach(c1, u, rs, ctx).value, u, account, lines, catalogue, i, v);
  }

  /** From what is known of the reserved order at one item and one user. */
  lemma {:induction false} QueuedRows(s: Tables, c1: Tables, c2: Tables, u: UserId, account: AccountId, lines: seq<Line>,
                                      catalogue: map<QuestId, Listing>, i: ItemId, v: UserId)
    requires lines != [] && CreateOrder(s, u, account, lines, catalogue) == Ok(c1)
    requires Total(RequestsFor(|s.items|, lines)) == LinesTotal(lines)
    requires ReservedAt(c1, Ok(c2), u, RequestsFor(|s.items|, lines), i, v) && QueueFirst(c2, |s.items|, u).Ok?
    requires Requested(RequestsFor(|s.items|, lines), i)
             == if |s.items| <= i < |s.items| + |lines| then Some(lines[i - |s.items|].price) else None
    ensures OrderedAt(s, QueueFirst(c2, |s.items|, u).value, u, lines, i, v)
  {}

  /** With enough money every later step of an admitted confirmation succeeds. */
  lemma {:induction false} EnoughMoneyOrders(s: Tables, c: Caller, p: Preflight, blocked: bool, catalogue: map<QuestId, Listing>, ctx: Context,
                          i: ItemId, v: UserId)
    requires Inv(s) && Admitted(s, c, p, blocked, catalogue)
    requires forall k | 0 <= k < |s.sessions[c.session].selected| :: s.sessions[c.session].selected[k].price > 0
    requires WalletOf(s.bank, c.actor).available >= LinesTotal(s.sessions[c.session].selected)
    ensures var o := ConfirmOrder(s, c, p, blocked, catalogue, ctx);
            o.Ok? && OrderedAt(s, o.value, c.actor, s.sessions[c.session].selected, i, v)
  {
    AdmittedSession(s, c, p, blocked, catalogue);
    OrderWritten(s, c.actor, p.account, s.sessions[c.session].selected, catalogue, ctx, i, v);
  }

  /** Rows are only added at the end. */
  predicate RowsAdded(now: Book, later: Book) {
    later.archived == now.archived && later.checkpoints == now.checkpoints && now.entries <= later.entries
  }

  /** Reserving writes the customer's wallet and ledger, and two fields of items. */
  ghost predicate ReservingFrame(s: Tables, s': Tables, u: UserId) {
    && s' == s.(bank := s'.bank, items := s'.items) && |s'.items| == |s.items|
    && (forall i | 0 <= i < |s.items| ::
          s'.items[i] == s.items[i].(state := s'.items[i].state, reservation := s'.items[i].reservation))
    && (forall v: UserId | v != u :: BookOf(s'.bank, v) == BookOf(s.bank, v))
    && RowsAdded(BookOf(s.bank, u), BookOf(s'.bank, u))
  }

  lemma ReserveOneFrame(s: Tables, u: UserId, r: Request, ctx: Context)
    requires ReserveOne(s, u, r, ctx).Ok?
    ensures ReservingFrame(s, ReserveOne(s, u, r, ctx).value, u)
  {}

  lemma {:induction false} ReservingTouches(s: Tables, u: UserId, rs: seq<Request>, ctx: Context)
    requires ReserveEach(s, u, rs, ctx).Ok?
    ensures ReservingFrame(s, ReserveEach(s, u, rs, ctx).value, u)
    decreases |rs|
  {
    if rs != [] {
      ReserveOneFrame(s, u, rs[0], ctx);
      ReservingTouches(ReserveOne(s, u, rs[0], ctx).value, u, rs[1..], ctx);
    }
  }

  /** The row of line k of a confirmed order. */
  function OrderedItem(s: Tables, u: UserId, lines: seq<Line>, catalogue: map<QuestId, Listing>, k: nat): Item
    requires k < |lines|
  {
    NewItem(|s.orders|, lines[k], catalogue).(state := if k == 0 then Queued else Stage.Reserved,
                                              reservation := Some(Reservation(u, lines[k].price, Held, 1)))
  }

  function OrderedRows(s: Tables, u: UserId, lines: seq<Line>, catalogue: map<QuestId, Listing>): seq<Item> {
    seq(|lines|, k requires 0 <= k < |lines| => OrderedItem(s, u, lines, catalogue, k))
  }

  /** All tables after a confirmed order, but for the bank. */
  function OrderedTables(s: Tables, c: Caller, account: AccountId, lines: seq<Line>, catalogue: map<QuestId, Listing>, bank: Bank)
    : Tables
    requires lines != [] && c.session in s.sessions
  {
    var first := OrderedItem(s, c.actor, lines, catalogue, 0);
    s.(bank := bank,
       items := s.items + OrderedRows(s, c.actor, lines, catalogue),
       jobs := s.jobs[|s.items| := Job(c.actor, Queued, 1, s.clock, first.deadline, true, None, 0, 0, [])],
       orders := s.orders + [Order(c.actor, account, false, true)],
       locks := s.locks[account := |s.orders|],
       scheduler := if c.actor in s.scheduler then s.scheduler else s.scheduler[c.actor := Turn(None, s.clock)],
       sessions := s.sessions[c.session := s.sessions[c.session].(state := Confirmed)])
  }

  /** The customer's total moves from available to reserved, with rows for it; nobody
      else's wallet or ledger changes. */
  predicate Charged(b: Bank, b': Bank, u: UserId, total: nat, v: UserId) {
    var w, w' := WalletOf(b, v), WalletOf(b', v);
    if v == u then w' == Balance(w.available - total, w.reserved + total) && RowsAdded(BookOf(b, v), BookOf(b', v))
    else w' == w && BookOf(b', v) == BookOf(b, v)
  }

  /** The whole effect of a confirmed order: nothing else changes anywhere. */
  ghost predicate Ordered(s: Tables, s': Tables, c: Caller, account: AccountId, lines: seq<Line>, catalogue: map<QuestId, Listing>)
    requires lines != [] && c.session in s.sessions
  {
    && s' == OrderedTables(s, c, account, lines, catalogue, s'.bank)
    && forall v: UserId :: Charged(s.bank, s'.bank, c.actor, LinesTotal(lines), v)
  }

  /** One row of a confirmed order, from what is known of its state and reservation. */
  lemma OrderedItemRow(s: Tables, c1: Tables, x: Item, u: UserId, account: AccountId, lines: seq<Line>,
                       catalogue: map<QuestId, Listing>, i: ItemId)
    requires CreateOrder(s, u, account, lines, catalogue) == Ok(c1) && |s.items| <= i < |s.items| + |lines|
    requires x == c1.items[i].(state := x.state, reservation := x.reservation)
    requires x.state == if i == |s.items| then Queued else Stage.Reserved
    requires x.reservation == Some(Reservation(u, lines[i - |s.items|].price, Held, 1))
    ensures x == OrderedItem(s, u, lines, catalogue, i - |s.items|)
  {}

  lemma {:induction false} OrderedItemAt(s: Tables, s': Tables, c: Caller, p: Preflight, blocked: bool, catalogue: map<QuestId, Listing>,
                                         ctx: Context, i: ItemId)
    requires ConfirmOrder(s, c, p, blocked, catalogue, ctx) == Ok(s')
    requires c.session in s.sessions && OrderedAt(s, s', c.actor, s.sessions[c.session].selected, i, 0)
    requires |s.items| <= i < |s'.items|
    ensures s'.items[i] == OrderedItem(s, c.actor, s.sessions[c.session].selected, catalogue, i - |s.items|)
  {
    ConfirmUnfolds(s, c, p, blocked, catalogue, ctx);
    var lines := s.sessions[c.session].selected;
    var c1 := CreateOrder(s, c.actor, p.account, lines, catalogue).value;
    var c2 := ReserveItems(c1, c.actor, RequestsFor(|s.items|, lines), ctx).value;
    ReservingTouches(c1, c.actor, RequestsFor(|s.items|, lines), ctx);
    assert c2.items[i] == c1.items[i].(state := c2.items[i].state, reservation := c2.items[i].reservation);
    OrderedItemRow(s, c1, s'.items[i], c.actor, p.account, lines, catalogue, i);
  }

  lemma {:induction false} OrderedItems(s: Tables, s': Tables, c: Caller, p: Preflight, blocked: bool, catalogue: map<QuestId, Listing>,
                                        ctx: Context)
    requires ConfirmOrder(s, c, p, blocked, catalogue, ctx) == Ok(s') && c.session in s.sessions
    requires forall i: ItemId :: OrderedAt(s, s', c.actor, s.sessions[c.session].selected, i, 0)
    ensures s'.items == s.items + OrderedRows(s, c.actor, s.sessions[c.session].selected, catalogue)
  {
    var lines := s.sessions[c.session].selected;
    assert OrderedAt(s, s', c.actor, lines, 0, 0);
    var rows := s.items + OrderedRows(s, c.actor, lines, catalogue);
    forall i: nat | i < |s'.items| ensures s'.items[i] == rows[i] {
      assert OrderedAt(s, s', c.actor, lines, i, 0);
      if i >= |s.items| { OrderedItemAt(s, s', c, p, blocked, catalogue, ctx, i); }
    }
  }

  /** The tables that reserving does not write. */
  lemma {:induction false} OrderedRest(s: Tables, s': Tables, c: Caller, p: Preflight, blocked: bool, catalogue: map<QuestId, Listing>,
                                       ctx: Context)
    requires ConfirmOrder(s, c, p, blocked, catalogue, ctx) == Ok(s')
    requires c.session in s.sessions && s.sessions[c.session].selected != []
    requires s'.items == s.items + OrderedRows(s, c.actor, s.sessions[c.session].selected, catalogue)
    ensures s' == OrderedTables(s, c, p.account, s.sessions[c.session].selected, catalogue, s'.bank)
    ensures RowsAdded(BookOf(s.bank, c.actor), BookOf(s'.bank, c.actor))
    ensures forall v: UserId | v != c.actor :: BookOf(s'.bank, v) == BookOf(s.bank, v)
  {
    ConfirmUnfolds(s, c, p, blocked, catalogue, ctx);
    var lines := s.sessions[c.session].selected;
    var c1 := CreateOrder(s, c.actor, p.account, lines, catalogue).value;
    ReservingTouches(c1, c.actor, RequestsFor(|s.items|, lines), ctx);
    assert s'.items[|s.items|] == OrderedItem(s, c.actor, lines, catalogue, 0);
  }

  /** An admitted confirmation succeeds exactly when every line has a price and the
      available balance covers the total; the guard inside the reserving loop never
      decides. Then exactly the total moves from available to reserved, the order has one
      row per line and one lock, only the first item is queued, and nothing else in any
      table changes. */
  lemma {:induction false} ConfirmSucceedsIff(s: Tables, c: Caller, p: Preflight, blocked: bool, catalogue: map<QuestId, Listing>, ctx: Context)
    requires Inv(s) && Admitted(s, c, p, blocked, catalogue)
    ensures c.session in s.sessions && s.sessions[c.session].selected != []
    ensures var lines := s.sessions[c.session].selected;
            var o := ConfirmOrder(s, c, p, blocked, catalogue, ctx);
            && (o.Ok? <==> WalletOf(s.bank, c.actor).available >= LinesTotal(lines)
                           && forall k | 0 <= k < |lines| :: lines[k].price > 0)
            && (o.Ok? ==> Ordered(s, o.value, c, p.account, lines, catalogue))
  {
    AdmittedSession(s, c, p, blocked, catalogue);
    var lines := s.sessions[c.session].selected;
    if ConfirmOrder(s, c, p, blocked, catalogue, ctx).Ok? { PricesPositive(s, c, p, blocked, catalogue, ctx); }
    if WalletOf(s.bank, c.actor).available >= LinesTotal(lines) && forall k | 0 <= k < |lines| :: lines[k].price > 0 {
      EnoughMoneyOrders(s, c, p, blocked, catalogue, ctx, 0, 0);
      var s' := ConfirmOrder(s, c, p, blocked, catalogue, ctx).value;
      forall i: ItemId ensures OrderedAt(s, s', c.actor, lines, i, 0) {
        EnoughMoneyOrders(s, c, p, blocked, catalogue, ctx, i, 0);
      }
      OrderedItems(s, s', c, p, blocked, catalogue, ctx);
      OrderedRest(s, s', c, p, blocked, catalogue, ctx);
      forall v: UserId ensures Charged(s.bank, s'.bank, c.actor, LinesTotal(lines), v) {
        EnoughMoneyOrders(s, c, p, blocked, catalogue, ctx, 0, v);
      }
    }
  }

  lemma {:induction false} PricesPositive(s: Tables, c: Caller, p: Preflight, blocked: bool, catalogue: map<QuestId, Listing>, ctx: Context)
    requires ConfirmOrder(s, c, p, blocked, catalogue, ctx).Ok?
    ensures c.session in s.sessions
    ensures forall k | 0 <= k < |s.sessions[c.session].selected| :: s.sessions[c.session].selected[k].price > 0
    ensures WalletOf(s.bank, c.actor).available >= LinesTotal(s.sessions[c.session].selected)
  {
    ConfirmUnfolds(s, c, p, blocked, catalogue, ctx);
    var lines := s.sessions[c.session].selected;
    var rs := RequestsFor(|s.items|, lines);
    RequestsTotal(|s.items|, lines);
    var c1 := CreateOrder(s, c.actor, p.account, lines, catalogue).value;
    forall k | 0 <= k < |lines| ensures lines[k].price > 0 {
      ReservedAmountsPositive(c1, c.actor, rs, ctx, k);
      assert rs[k].amount == lines[k].price;
    }
  }

  /** The customer is charged the total of the lines that the quote was made for,
      in whatever order they were listed then. */
  lemma {:induction false} ConfirmChargesQuote(s: Tables, c: Caller, p: Preflight, blocked: bool, catalogue: map<QuestId, Listing>, ctx: Context,
                            quoted: seq<Line>, config: nat)
    requires Inv(s) && ConfirmOrder(s, c, p, blocked, catalogue, ctx).Ok?
    requires s.sessions[c.session].quote == Some(HashOf(quoted, config))
    ensures var w, w' := WalletOf(s.bank, c.actor), WalletOf(ConfirmOrder(s, c, p, blocked, catalogue, ctx).value.bank, c.actor);
            w'.available == w.available - LinesTotal(quoted) && w'.reserved == w.reserved + LinesTotal(quoted)
  {
    ConfirmSucceedsIff(s, c, p, blocked, catalogue, ctx);
    var s' := ConfirmOrder(s, c, p, blocked, catalogue, ctx).value;
    assert Charged(s.bank, s'.bank, c.actor, LinesTotal(s.sessions[c.session].selected), c.actor);
    TotalOfMultiset(s.sessions[c.session].selected, quoted);
  }
}
