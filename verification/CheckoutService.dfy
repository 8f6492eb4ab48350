/** Checkout as it runs: a quote, and a confirmation that writes an order, its items, its
    reservations and its first job, or nothing at all. */
module CheckoutService {
  import opened Common
  import opened Ledger
  import opened Schema
  import opened Wallet
  import opened Runner
  import opened Checkout
  import WalletService
  import RunnerService

  /** `updateSelection` */
  method Select(db: Database, c: Caller, selected: seq<Line>) returns (error: Option<Error>)
    modifies db`sessions
    ensures Committed(old(db.Read()), db.Read(), error, UpdateSelection(old(db.Read()), c, selected))
  {
    var session := AuthorizedSession(db.Read(), c);
    if session.Err? { return Some(session.error); }
    if session.value.config != c.config { return Some(QuoteExpired); }
    db.sessions := db.sessions[c.session := session.value.(selected := selected)];
    error := None;
  }

  /** `buildQuote`: every line is checked against today's offer while the total is summed. */
  method Quote(db: Database, c: Caller, catalogue: map<QuestId, Listing>) returns (error: Option<Error>, total: nat)
    modifies db`sessions
    ensures Committed(old(db.Read()), db.Read(), error, BuildQuote(old(db.Read()), c, catalogue))
    ensures error == None ==> c.session in old(db.sessions) && total == LinesTotal(old(db.sessions)[c.session].selected)
  {
    total := 0;
    var session := AuthorizedSession(db.Read(), c);
    if session.Err? { return Some(session.error), 0; }
    var lines := session.value.selected;
    if lines == [] { return Some(NothingSelected), 0; }
    var k := 0;
    while k < |lines|
      invariant 0 <= k <= |lines| && total + LinesTotal(lines[k..]) == LinesTotal(lines)
      invariant QuoteRefusal(catalogue, lines) == QuoteRefusal(catalogue, lines[k..])
    {
      assert lines[k..][0] == lines[k] && lines[k..][1..] == lines[k + 1..];
      var refusal := OfferRefusal(catalogue, lines[k]);
      if refusal.Some? { return refusal, 0; }
      total := total + lines[k].price;
      k := k + 1;
    }
    db.sessions := db.sessions[c.session := session.value.(quote := Some(HashOf(lines, session.value.config)))];
    error := None;
  }

  /** `createOrder` and `createOrderItems` */
  method PlaceOrder(db: Database, u: UserId, account: AccountId, lines: seq<Line>, catalogue: map<QuestId, Listing>)
    returns (error: Option<Error>)
    modifies db`orders, db`locks, db`items
    ensures Committed(old(db.Read()), db.Read(), error, CreateOrder(old(db.Read()), u, account, lines, catalogue))
  {
    if account in db.locks { return Some(AccountActiveOrder); }
    var o := |db.orders|;
    db.orders := db.orders + [Order(u, account, false, true)];
    db.locks := db.locks[account := o];
    var k := 0;
    while k < |lines|
      invariant 0 <= k <= |lines| && db.Read() == old(db.Read()).(orders := db.orders, locks := db.locks, items := db.items)
      invariant db.orders == old(db.orders) + [Order(u, account, false, true)] && db.locks == old(db.locks)[account := o]
      invariant db.items == old(db.items) + seq(k, j requires 0 <= j < k => NewItem(o, lines[j], catalogue))
    {
      db.items := db.items + [NewItem(o, lines[k], catalogue)];
      k := k + 1;
    }
    error := None;
    assert db.items == CreateOrder(old(db.Read()), u, account, lines, catalogue).value.items;
  }

  /** `queueFirstOrderItem` */
  method QueueFirstItem(db: Database, i: ItemId, u: UserId) returns (error: Option<Error>)
    modifies db`jobs, db`items, db`scheduler
    ensures Committed(old(db.Read()), db.Read(), error, QueueFirst(old(db.Read()), i, u))
  {
    error := RunnerService.Queue(db, i, u);
    if error == None && u !in db.scheduler { db.scheduler := db.scheduler[u := Turn(None, db.clock)]; }
  }

  /** Undoes the writes of a confirmation that failed half-way. */
  method Rollback(db: Database, s: Tables)
    modifies db`orders, db`locks, db`items, db`bank
    ensures db.orders == s.orders && db.locks == s.locks && db.items == s.items && db.bank == s.bank
  {
    db.orders, db.locks, db.items, db.bank := s.orders, s.locks, s.items, s.bank;
  }

  /** Order, reservations and first job of a validated confirmation. */
  ghost function Ordered(s: Tables, u: UserId, account: AccountId, lines: seq<Line>, catalogue: map<QuestId, Listing>,
                         ctx: Context): Outcome<Tables>
  {
    var created := CreateOrder(s, u, account, lines, catalogue);
    if created.Err? then created
    else
      var reserved := ReserveItems(created.value, u, RequestsFor(|s.items|, lines), ctx);
      if reserved.Err? then reserved else QueueFirst(reserved.value, |s.items|, u)
  }

  method WriteOrder(db: Database, u: UserId, account: AccountId, lines: seq<Line>, catalogue: map<QuestId, Listing>,
                    ctx: Context)
    returns (error: Option<Error>)
    modifies db`orders, db`locks, db`items, db`bank, db`jobs, db`scheduler
    ensures Committed(old(db.Read()), db.Read(), error, Ordered(old(db.Read()), u, account, lines, catalogue, ctx))
  {
    var s, base := db.Read(), |db.items|;
    error := PlaceOrder(db, u, account, lines, catalogue);
    if error != None { return; }
    error := WalletService.ReserveBalance(db, u, RequestsFor(base, lines), ctx);
    if error == None { error := QueueFirstItem(db, base, u); }
    if error != None { Rollback(db, s); }
  }

  /** `validateSelectedOptions` */
  method ValidateOptions(pending: set<QuestId>, catalogue: map<QuestId, Listing>, lines: seq<Line>)
    returns (error: Option<Error>)
    ensures error == SelectionRefusal(pending, catalogue, lines)
  {
    var k := 0;
    while k < |lines|
      invariant 0 <= k <= |lines|
      invariant SelectionRefusal(pending, catalogue, lines) == SelectionRefusal(pending, catalogue, lines[k..])
    {
      assert lines[k..][0] == lines[k] && lines[k..][1..] == lines[k + 1..];
      if lines[k].quest !in pending { return Some(ExternallyCompleted); }
      var refusal := OfferRefusal(catalogue, lines[k]);
      if refusal.Some? { return refusal; }
      k := k + 1;
    }
    error := None;
  }

  /** `confirmOrder` */
  method Confirm(db: Database, c: Caller, p: Preflight, blocked: bool, catalogue: map<QuestId, Listing>, ctx: Context)
    returns (error: Option<Error>)
    modifies db`orders, db`locks, db`items, db`bank, db`jobs, db`scheduler, db`sessions
    ensures Committed(old(db.Read()), db.Read(), error, ConfirmOrder(old(db.Read()), c, p, blocked, catalogue, ctx))
  {
    var session := ValidateSession(db.Read(), c, p, blocked);
    if session.Err? { return Some(session.error); }
    error := ValidateOptions(p.pending, catalogue, session.value.selected);
    if error != None { return; }
    error := WriteOrder(db, c.actor, p.account, session.value.selected, catalogue, ctx);
    if error == None { db.sessions := db.sessions[c.session := session.value.(state := SessionState.Confirmed)]; }
  }
}
