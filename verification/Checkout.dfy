/** Quoting a selection and confirming it as an order. */
module Checkout {
  import opened Common
  import opened Ledger
  import opened Schema
  import opened Wallet
  import opened Runner

  const PreflightTtl := 30

  /** The store's offer for a quest as price, rule and admission see it now, and how far the
      account is with it. */
  datatype Listing = Listing(forSale: bool, price: nat, rule: nat, enoughTime: bool, deadline: nat, progress: int)

  /** The account check before confirming: whose account, when, and which quests
      the account still has to do. */
  datatype Preflight = Preflight(account: AccountId, checkedAt: nat, pending: set<QuestId>)

  /** What a confirmation or a quote is asked with. */
  datatype Caller = Caller(session: SessionId, actor: UserId, config: nat)

  function HashOf(lines: seq<Line>, config: nat): QuoteHash {
    QuoteHash(config, multiset(lines))
  }

  function LinesTotal(lines: seq<Line>): nat {
    if lines == [] then 0 else lines[0].price + LinesTotal(lines[1..])
  }

  /** `lockAuthorizedSession` */
  function AuthorizedSession(s: Tables, c: Caller): Outcome<Session> {
    if c.session !in s.sessions then Err(SessionExpired)
    else if s.sessions[c.session].state != Active || s.sessions[c.session].expires <= s.clock then Err(SessionExpired)
    else if s.sessions[c.session].actor != c.actor then Err(NotAuthorized)
    else Ok(s.sessions[c.session])
  }

  function UpdateSelection(s: Tables, c: Caller, selected: seq<Line>): Outcome<Tables> {
    var session := AuthorizedSession(s, c);
    if session.Err? then Err(session.error)
    else if session.value.config != c.config then Err(QuoteExpired)
    else Ok(s.(sessions := s.sessions[c.session := session.value.(selected := selected)]))
  }

  /** Why a line cannot be had at what it says now: not for sale, another price or rule, or
      too little time left. */
  function OfferRefusal(catalogue: map<QuestId, Listing>, line: Line): Option<Error> {
    if line.quest !in catalogue || !catalogue[line.quest].forSale then Some(NotForSale)
    else if catalogue[line.quest].price != line.price || catalogue[line.quest].rule != line.rule then Some(QuoteExpired)
    else if !catalogue[line.quest].enoughTime then Some(InsufficientTime)
    else None
  }

  /** The first line that cannot be had decides. */
  function QuoteRefusal(catalogue: map<QuestId, Listing>, lines: seq<Line>): Option<Error> {
    if lines == [] then None
    else if OfferRefusal(catalogue, lines[0]).Some? then OfferRefusal(catalogue, lines[0])
    else QuoteRefusal(catalogue, lines[1..])
  }

  function BuildQuote(s: Tables, c: Caller, catalogue: map<QuestId, Listing>): Outcome<Tables> {
    var session := AuthorizedSession(s, c);
    if session.Err? then Err(session.error)
    else if session.value.selected == [] then Err(NothingSelected)
    else
      var refusal := QuoteRefusal(catalogue, session.value.selected);
      if refusal.Some? then Err(refusal.value)
      else
        Ok(s.(sessions := s.sessions[c.session :=
                session.value.(quote := Some(HashOf(session.value.selected, session.value.config)))]))
  }

  /** `validateConfirmationSession` */
  function ValidateSession(s: Tables, c: Caller, p: Preflight, blocked: bool): Outcome<Session> {
    var session := AuthorizedSession(s, c);
    if session.Err? then session
    else if session.value.config != c.config then Err(QuoteExpired)
    else if p.checkedAt + PreflightTtl < s.clock then Err(PreflightExpired)
    else if blocked then Err(OrderBlocked)
    else if QueueLength(s.jobs) >= QueueLimit then Err(QueueFull)
    else if session.value.selected == [] then Err(NothingSelected)
    else if session.value.quote != Some(HashOf(session.value.selected, session.value.config)) then Err(QuoteExpired)
    else session
  }

  /** `validateSelectedOptions`: a quest that the account has done elsewhere is refused first. */
  function SelectionRefusal(pending: set<QuestId>, catalogue: map<QuestId, Listing>, lines: seq<Line>): Option<Error> {
    if lines == [] then None
    else if lines[0].quest !in pending then Some(ExternallyCompleted)
    else if OfferRefusal(catalogue, lines[0]).Some? then OfferRefusal(catalogue, lines[0])
    else SelectionRefusal(pending, catalogue, lines[1..])
  }

  function ValidateConfirmation(s: Tables, c: Caller, p: Preflight, blocked: bool, catalogue: map<QuestId, Listing>)
    : Outcome<Session>
  {
    var session := ValidateSession(s, c, p, blocked);
    if session.Err? then session
    else
      var refusal := SelectionRefusal(p.pending, catalogue, session.value.selected);
      if refusal.Some? then Err(refusal.value) else session
  }

  function NewItem(o: OrderId, line: Line, catalogue: map<QuestId, Listing>): Item {
    if line.quest in catalogue
    then Item(o, line.price, catalogue[line.quest].deadline, Selected, None, catalogue[line.quest].progress)
    else Item(o, line.price, 0, Selected, None, 0)
  }

  /** Order, account lock, credential and all items, in one go. */
  function CreateOrder(s: Tables, u: UserId, account: AccountId, lines: seq<Line>, catalogue: map<QuestId, Listing>)
    : Outcome<Tables>
  {
    if account in s.locks then Err(AccountActiveOrder)
    else
      var o := |s.orders|;
      Ok(s.(orders := s.orders + [Order(u, account, false, true)], locks := s.locks[account := o],
            items := s.items + seq(|lines|, k requires 0 <= k < |lines| => NewItem(o, lines[k], catalogue))))
  }

  function RequestsFor(base: nat, lines: seq<Line>): seq<Request> {
    seq(|lines|, k requires 0 <= k < |lines| => Request(base + k, lines[k].price))
  }

  /** The first item gets the order's only job; its user enters the scheduler. */
  function QueueFirst(s: Tables, i: ItemId, u: UserId): Outcome<Tables> {
    var queued := QueueItem(s, i, u);
    if queued.Err? then queued
    else Ok(queued.value.(scheduler := if u in s.scheduler then s.scheduler else s.scheduler[u := Turn(None, s.clock)]))
  }

  function ConfirmOrder(s: Tables, c: Caller, p: Preflight, blocked: bool, catalogue: map<QuestId, Listing>, ctx: Context)
    : Outcome<Tables>
  {
    var session := ValidateConfirmation(s, c, p, blocked, catalogue);
    if session.Err? then Err(session.error)
    else
      var lines, base := session.value.selected, |s.items|;
      var created := CreateOrder(s, c.actor, p.account, lines, catalogue);
      if created.Err? then created
      else
        var reserved := ReserveItems(created.value, c.actor, RequestsFor(base, lines), ctx);
        if reserved.Err? then reserved
        else
          var queued := QueueFirst(reserved.value, base, c.actor);
          if queued.Err? then queued
          else Ok(queued.value.(sessions := queued.value.sessions[c.session := session.value.(state := Confirmed)]))
  }

  predicate SessionOver(s: Tables, x: Session) {
    x.state == Active && x.expires <= s.clock
  }

  function ExpireSessions(s: Tables): Tables {
    s.(sessions := map x | x in s.sessions ::
         if SessionOver(s, s.sessions[x]) then s.sessions[x].(state := SessionEnded) else s.sessions[x])
  }

  function CreateSession(s: Tables, x: SessionId, session: Session): Outcome<Tables> {
    if x in s.sessions || session.state != Active || session.quote.Some? then Err(UniqueViolation)
    else Ok(s.(sessions := s.sessions[x := session]))
  }
}
