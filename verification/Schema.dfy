/** The durable tables: row types, the snapshot of all tables that properties
    speak about, and the database object whose tables the services update. */
module Schema {
  import opened Common
  import opened Ledger

  type OrderId = nat
  type AccountId = nat
  type WorkerId = nat
  type PromotionId = nat
  type SessionId = nat
  type QuestId = nat

  // ---------------------------------------------------------------- state columns

  /** States of order items and of runner jobs. Both columns hold the same names;
      only items use the first two and the last five, only jobs `Completed` and
      `Failed`. */
  datatype Stage =
    | Selected | Reserved
    | Queued | Leased | Running | Verifying | WaitingRateLimit | WaitingRetry | ManualReview | Settling
    | Completed | Failed
    | ReadyToClaim | ExpiredReleased | ExternalCompletedReleased | StoppedReleased | FailedReleased

  const ReleasedStates: set<Stage> :=
    {ExpiredReleased, ExternalCompletedReleased, StoppedReleased, FailedReleased}

  const TerminalItemStates: set<Stage> := {ReadyToClaim} + ReleasedStates

  /** Job states in which a worker holds the lease. */
  const LeaseStates: set<Stage> := {Leased, Running, Verifying, Settling}

  const ClosedJobStates: set<Stage> := {Completed, Failed}

  /** Job states that count against the queue limit. */
  const QueueStates: set<Stage> := {Queued, Leased, Running, WaitingRateLimit, WaitingRetry}

  function ItemTransitions(from: Stage): set<Stage> {
    match from
    case Selected => {Reserved}
    case Reserved => {Queued, ExpiredReleased, ExternalCompletedReleased, StoppedReleased, ManualReview}
    case Queued => {Leased, ExpiredReleased, ExternalCompletedReleased, StoppedReleased, ManualReview}
    case Leased => {Running, Queued, ExpiredReleased, ExternalCompletedReleased, StoppedReleased, ManualReview}
    case Running => {Verifying, WaitingRateLimit, WaitingRetry, FailedReleased, ManualReview}
    case Verifying => {Settling, WaitingRetry, FailedReleased, ManualReview}
    case WaitingRateLimit => {Running, FailedReleased, ManualReview}
    case WaitingRetry => {Queued, Running, FailedReleased, ManualReview}
    case ManualReview =>
      {Queued, Settling, ExpiredReleased, ExternalCompletedReleased, StoppedReleased, FailedReleased}
    case Settling => {ReadyToClaim, FailedReleased, ManualReview}
    case _ => {}
  }

  function JobTransitions(from: Stage): set<Stage> {
    match from
    case Queued => {Leased, Failed}
    case Leased => {Running, Queued, Failed, ManualReview}
    case Running => {WaitingRateLimit, WaitingRetry, Verifying, Failed, ManualReview}
    case WaitingRateLimit => {Queued, Running, Failed, ManualReview}
    case WaitingRetry => {Queued, Running, Failed, ManualReview}
    case Verifying => {Settling, WaitingRetry, Failed, ManualReview}
    case Settling => {Completed, Failed, ManualReview}
    case ManualReview => {Queued, Settling, Failed}
    case _ => {}
  }

  datatype TopupStatus =
    | Received | Validating | PaymentQueued | Processing | Redeemed | Credited | Ambiguous | TopupReview
    | Invalid | Expired | AlreadyRedeemed | RetryWait | TopupFailed | Rejected | Reversed

  function TopupTransitions(from: TopupStatus): set<TopupStatus> {
    match from
    case Received => {Validating}
    case Validating => {PaymentQueued, Invalid, TopupFailed}
    case PaymentQueued => {Processing}
    case Processing => {Redeemed, Ambiguous, Invalid, Expired, AlreadyRedeemed, RetryWait, TopupFailed}
    case RetryWait => {PaymentQueued, TopupFailed}
    case Ambiguous => {TopupReview}
    case TopupReview => {Redeemed, Credited, Rejected, TopupFailed}
    case Redeemed => {Credited, TopupReview}
    case Credited => {Reversed}
    case _ => {}
  }

  // ---------------------------------------------------------------- rows

  /** Owner and expiry are written and cleared together in every lease column. */
  datatype Lease = Lease(owner: WorkerId, expires: nat)

  datatype ReservationState = Held | Captured | Released

  datatype Reservation = Reservation(user: UserId, amount: nat, state: ReservationState, version: nat)

  /** One order item with its reservation, which is unique per item. */
  datatype Item = Item(order: OrderId, price: nat, deadline: nat, state: Stage, reservation: Option<Reservation>, progress: int)

  datatype Order = Order(user: UserId, account: AccountId, completed: bool, credential: bool)

  datatype MutationKind = Enroll | VideoProgress(timestamp: int) | Heartbeat

  datatype MutationStatus = InFlight | Accepted | Uncertain | Verified | MutationFailed

  /** What the quest server reports. */
  datatype Fresh = Fresh(enrolled: bool, completed: bool, progress: int)

  datatype Mutation = Mutation(kind: MutationKind, baseline: int, status: MutationStatus, evidence: Option<Fresh>)

  /** A runner job; `order_item_id` is unique, so the item id names the job. */
  datatype Job = Job(user: UserId, state: Stage, version: nat, availableAt: nat, deadline: nat, compatible: bool,
                     lease: Option<Lease>, token: nat, attempts: nat, mutations: seq<Mutation>)

  /** The ownership a worker presents: the job, its own id and its fencing token. */
  datatype Claim = Claim(job: ItemId, owner: WorkerId, token: nat)

  datatype Turn = Turn(last: Option<nat>, updated: nat)

  datatype Subject =
    | TopupSubject(topup: TopupId)
    | ItemSubject(item: ItemId)
    | OtherSubject(id: nat)
    | FinancialSubject(id: nat)

  datatype ReviewState = Open | Assigned | EvidencePending | DecisionReady

  /** An unresolved review; a resolved one no longer constrains anything. */
  datatype Review = Review(state: ReviewState, version: nat, ownerOnly: bool)

  datatype Dispatch = IntentRecorded | PossiblySent | AttemptVerified | AttemptAmbiguous | AttemptFailed

  datatype Topup = Topup(user: UserId, voucher: nat, status: TopupStatus, amount: Option<nat>, thb: bool, bonus: nat,
                         promotion: Option<PromotionId>, provider: Option<string>,
                         attempts: nat, token: nat, availableAt: nat, lease: Option<Lease>, log: map<nat, Dispatch>)

  datatype Tier = Tier(minimum: nat, basisPoints: nat)

  datatype Promotion = Promotion(maxUses: Option<nat>, dailyCap: Option<nat>, tiers: seq<Tier>)

  datatype Usage = Usage(topup: TopupId, promotion: PromotionId, user: UserId, day: nat, principal: nat, bonus: nat)

  datatype Line = Line(line: nat, quest: QuestId, price: nat, rule: nat)

  datatype SessionState = Active | Confirmed | SessionEnded

  /** Lines are the options of the session that are selected, in display order. */
  datatype Session = Session(state: SessionState, actor: UserId, account: AccountId, config: nat, expires: nat,
                             selected: seq<Line>, quote: Option<QuoteHash>)

  /** `selectionHash`: SHA-256 over the sorted lines, taken as free of collisions. */
  datatype QuoteHash = QuoteHash(config: nat, lines: multiset<Line>)

  datatype Tables = Tables(
    clock: nat,
    bank: Bank,
    items: seq<Item>,
    orders: seq<Order>,
    locks: map<AccountId, OrderId>,
    refunds: map<ItemId, nat>,
    jobs: map<ItemId, Job>,
    scheduler: map<UserId, Turn>,
    reviews: map<Subject, Review>,
    topups: seq<Topup>,
    promotions: map<PromotionId, Promotion>,
    usages: seq<Usage>,
    sessions: map<SessionId, Session>)

  // ---------------------------------------------------------------- database

  class Database {
    var clock: nat
    var bank: Bank
    var items: seq<Item>
    var orders: seq<Order>
    var locks: map<AccountId, OrderId>
    var refunds: map<ItemId, nat>
    var jobs: map<ItemId, Job>
    var scheduler: map<UserId, Turn>
    var reviews: map<Subject, Review>
    var topups: seq<Topup>
    var promotions: map<PromotionId, Promotion>
    var usages: seq<Usage>
    var sessions: map<SessionId, Session>

    function Read(): Tables
      reads this
    {
      Tables(clock, bank, items, orders, locks, refunds, jobs, scheduler, reviews, topups, promotions, usages, sessions)
    }

    method WriteMoney(t: Tables)
      modifies `clock, `bank, `items, `orders, `locks, `refunds
      ensures clock == t.clock && bank == t.bank && items == t.items && orders == t.orders
      ensures locks == t.locks && refunds == t.refunds
    {
      clock, bank, items, orders, locks, refunds := t.clock, t.bank, t.items, t.orders, t.locks, t.refunds;
    }

    method WriteWork(t: Tables)
      modifies `jobs, `scheduler, `reviews, `topups, `promotions, `usages, `sessions
      ensures jobs == t.jobs && scheduler == t.scheduler && reviews == t.reviews && topups == t.topups
      ensures promotions == t.promotions && usages == t.usages && sessions == t.sessions
    {
      jobs, scheduler, reviews, topups := t.jobs, t.scheduler, t.reviews, t.topups;
      promotions, usages, sessions := t.promotions, t.usages, t.sessions;
    }

    /** All tables at once, as other transactions leave them. */
    method Write(t: Tables)
      modifies this
      ensures Read() == t
    {
      WriteMoney(t);
      WriteWork(t);
    }

    constructor Empty()
      ensures Read() == NoRows
    {
      clock, bank, items, orders, locks, refunds := 0, Bank(map[], map[], 0), [], [], map[], map[];
      jobs, scheduler, reviews, topups, promotions, usages, sessions := map[], map[], map[], [], map[], [], map[];
    }
  }

  /** The tables after a transaction that was to have this outcome, and what it told its
      caller: committed, or rolled back with an error. */
  predicate Committed(before: Tables, after: Tables, error: Option<Error>, o: Outcome<Tables>) {
    after == Settled(o, before) && error == ErrorOf(o)
  }

  const NoRows := Tables(0, Bank(map[], map[], 0), [], [], map[], map[], map[], map[], map[], [], map[], [], map[])
}
