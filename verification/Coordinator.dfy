/** The request coordinator: calls of one account run one after the other, in the order
    in which they were made, and the number of calls under way is bounded. */
module Coordinator {
  import opened Common

  type Account = nat
  type CallId = nat

  /** A call waits for the call of its account before it, has its turn, executes, or is
      over; it can be aborted only while it has its turn and does not execute yet. */
  datatype Stage = Waiting(previous: Option<CallId>) | Turn | Executing | Over

  datatype Call = Call(account: Account, stage: Stage)

  /** The coordinator's fields, the calls made so far and the order of executions. */
  datatype Line = Line(maxQueued: nat, queued: int, tails: map<Account, CallId>, calls: seq<Call>, started: seq<CallId>)

  datatype Event = Schedule(account: Account) | Proceed(call: CallId) | Start(call: CallId) | Abort(call: CallId) | Finish(call: CallId)

  predicate Outstanding(c: Call) {
    c.stage != Over
  }

  function WithStage(l: Line, c: CallId, stage: Stage): Line
    requires c < |l.calls|
  {
    l.(calls := l.calls[c := l.calls[c].(stage := stage)])
  }

  /** The `finally` block: one call fewer, and the account's tail goes if it is still
      this call's. */
  function Leave(l: Line, c: CallId): Line
    requires c < |l.calls|
  {
    var a := l.calls[c].account;
    WithStage(l, c, Over).(queued := l.queued - 1,
                           tails := if a in l.tails && l.tails[a] == c then l.tails - {a} else l.tails)
  }

  /** What happens, if it can happen now. */
  function Next(l: Line, e: Event): Line {
    match e
    case Schedule(a) =>
      if l.queued >= l.maxQueued then l
      else
        var previous := if a in l.tails then Some(l.tails[a]) else None;
        l.(queued := l.queued + 1, tails := l.tails[a := |l.calls|], calls := l.calls + [Call(a, Waiting(previous))])
    case Proceed(c) =>
      if c < |l.calls| && l.calls[c].stage.Waiting?
         && (l.calls[c].stage.previous.Some? ==>
               l.calls[c].stage.previous.value < |l.calls| && l.calls[l.calls[c].stage.previous.value].stage == Over)
      then WithStage(l, c, Turn) else l
    case Start(c) => if c < |l.calls| && l.calls[c].stage == Turn then WithStage(l, c, Executing).(started := l.started + [c]) else l
    case Abort(c) => if c < |l.calls| && l.calls[c].stage == Turn then Leave(l, c) else l
    case Finish(c) => if c < |l.calls| && l.calls[c].stage == Executing then Leave(l, c) else l
  }

  function Run(l: Line, es: seq<Event>): Line
    decreases |es|
  {
    if es == [] then l else Run(Next(l, es[0]), es[1..])
  }

  function Fresh(maxQueued: nat): Line {
    Line(maxQueued, 0, map[], [], [])
  }

  // ---------------------------------------------------------------- invariant

  function Count(calls: seq<Call>): nat {
    if |calls| == 0 then 0 else Count(calls[..|calls| - 1]) + (if Outstanding(calls[|calls| - 1]) then 1 else 0)
  }

  /** Two calls of one account, the first made earlier: while the first is not over, the
      second waits, and either for the first or for one between them. */
  predicate InOrder(l: Line, c: CallId, d: CallId) {
    c < d < |l.calls| && l.calls[c].account == l.calls[d].account && Outstanding(l.calls[c]) ==>
      l.calls[d].stage.Waiting? && l.calls[d].stage.previous.Some? && c <= l.calls[d].stage.previous.value < d
  }

  /** A call waits only for an earlier call of its own account. */
  predicate WaitsWell(l: Line, d: CallId) {
    d < |l.calls| && l.calls[d].stage.Waiting? && l.calls[d].stage.previous.Some? ==>
      l.calls[d].stage.previous.value < d && l.calls[l.calls[d].stage.previous.value].account == l.calls[d].account
  }

  /** The tail of an account is its last call, and stands exactly while one of its
      calls is outstanding. */
  predicate TailOk(l: Line, a: Account, c: CallId) {
    && (a in l.tails ==> l.tails[a] < |l.calls| && l.calls[l.tails[a]].account == a && Outstanding(l.calls[l.tails[a]]))
    && (c < |l.calls| && l.calls[c].account == a && Outstanding(l.calls[c]) ==> a in l.tails && c <= l.tails[a])
  }

  /** Executions of one account are started in call order, each once. */
  predicate StartedOk(l: Line, i: nat, j: nat) {
    && (i < |l.started| ==> l.started[i] < |l.calls| && l.calls[l.started[i]].stage in {Executing, Over})
    && ((i < j < |l.started| && l.started[i] < |l.calls| && l.started[j] < |l.calls|
         && l.calls[l.started[i]].account == l.calls[l.started[j]].account) ==> l.started[i] < l.started[j])
  }

  predicate LineAt(l: Line, c: nat, d: nat) {
    InOrder(l, c, d) && WaitsWell(l, c) && TailOk(l, c, d) && StartedOk(l, c, d)
  }

  ghost predicate LineOk(l: Line) {
    && l.queued == Count(l.calls) && l.queued <= l.maxQueued
    && forall c: nat, d: nat :: LineAt(l, c, d)
  }

  // ---------------------------------------------------------------- steps

  lemma {:induction false} CountAppend(calls: seq<Call>, c: Call)
    ensures Count(calls + [c]) == Count(calls) + (if Outstanding(c) then 1 else 0)
  {
    assert (calls + [c])[..|calls|] == calls;
  }

  lemma {:induction false} CountSet(calls: seq<Call>, i: nat, c: Call)
    requires i < |calls|
    ensures Count(calls[i := c])
            == Count(calls) - (if Outstanding(calls[i]) then 1 else 0) + (if Outstanding(c) then 1 else 0)
  {
    var n := |calls| - 1;
    if i == n {
      assert calls[i := c][..n] == calls[..n];
    } else {
      assert calls[i := c][..n] == calls[..n][i := c];
      CountSet(calls[..n], i, c);
    }
  }

  lemma ScheduleKeeps(l: Line, a: Account)
    requires LineOk(l)
    ensures LineOk(Next(l, Schedule(a)))
  {
    if l.queued < l.maxQueued {
      var l' := Next(l, Schedule(a));
      CountAppend(l.calls, l'.calls[|l.calls|]);
      forall c: nat, d: nat ensures LineAt(l', c, d) {
        assert LineAt(l, c, d) && LineAt(l, a, c) && LineAt(l, a, d);
      }
    }
  }

  /** A call gets its turn only when every earlier call of its account is over. */
  lemma ProceedKeepsAt(l: Line, e: Event, c: nat, d: nat)
    requires LineOk(l) && e.Proceed?
    ensures LineAt(Next(l, e), c, d)
  {
    assert LineAt(l, c, d);
    if e.call < |l.calls| && l.calls[e.call].stage.Waiting? && l.calls[e.call].stage.previous.Some? {
      assert LineAt(l, e.call, d) && LineAt(l, c, l.calls[e.call].stage.previous.value);
    }
  }

  lemma StartKeepsAt(l: Line, e: Event, c: nat, d: nat)
    requires LineOk(l) && e.Start?
    ensures LineAt(Next(l, e), c, d)
  {
    assert LineAt(l, c, d);
    if c < |l.started| { assert LineAt(l, e.call, l.started[c]); }
  }

  lemma StageKeeps(l: Line, e: Event)
    requires LineOk(l) && (e.Proceed? || e.Start?)
    ensures LineOk(Next(l, e))
  {
    var l' := Next(l, e);
    if l' != l {
      CountSet(l.calls, e.call, l'.calls[e.call]);
      forall c: nat, d: nat ensures LineAt(l', c, d) {
        if e.Proceed? { ProceedKeepsAt(l, e, c, d); } else { StartKeepsAt(l, e, c, d); }
      }
    }
  }

  lemma LeaveKeepsAt(l: Line, e: Event, c: nat, d: nat)
    requires LineOk(l) && (e.Abort? || e.Finish?)
    ensures LineAt(Next(l, e), c, d)
  {
    assert LineAt(l, c, d) && LineAt(l, d, e.call);
  }

  lemma LeaveKeeps(l: Line, e: Event)
    requires LineOk(l) && (e.Abort? || e.Finish?)
    ensures LineOk(Next(l, e))
  {
    var l' := Next(l, e);
    if l' != l {
      CountSet(l.calls, e.call, l'.calls[e.call]);
      forall c: nat, d: nat ensures LineAt(l', c, d) { LeaveKeepsAt(l, e, c, d); }
    }
  }

  lemma NextKeeps(l: Line, e: Event)
    requires LineOk(l)
    ensures LineOk(Next(l, e))
  {
    match e
    case Schedule(a) => ScheduleKeeps(l, a);
    case Proceed(_) => StageKeeps(l, e);
    case Start(_) => StageKeeps(l, e);
    case _ => LeaveKeeps(l, e);
  }

  lemma {:induction false} RunKeeps(l: Line, es: seq<Event>)
    requires LineOk(l)
    ensures LineOk(Run(l, es))
    decreases |es|
  {
    if es != [] {
      NextKeeps(l, es[0]);
      RunKeeps(Next(l, es[0]), es[1..]);
    }
  }

  lemma FreshOk(maxQueued: nat)
    ensures LineOk(Fresh(maxQueued))
  {
    forall c: nat, d: nat ensures LineAt(Fresh(maxQueued), c, d) {}
  }

  // ---------------------------------------------------------------- consequences

  /** Over any interleaving: two calls of one account never execute at the same time;
      their executions start in call order; an account has a tail exactly while it has
      an outstanding call; and the queue counter is the number of those calls, at most
      the maximum. */
  lemma {:induction false} Serialised(maxQueued: nat, es: seq<Event>)
    ensures var l := Run(Fresh(maxQueued), es);
            && (forall c, d | 0 <= c < |l.calls| && 0 <= d < |l.calls| && l.calls[c].account == l.calls[d].account
                              && l.calls[c].stage == Executing && l.calls[d].stage == Executing :: c == d)
            && (forall i, j | 0 <= i < j < |l.started| && l.started[i] < |l.calls| && l.started[j] < |l.calls|
                              && l.calls[l.started[i]].account == l.calls[l.started[j]].account ::
                  l.started[i] < l.started[j])
            && (forall a: Account :: a in l.tails <==> exists c :: 0 <= c < |l.calls| && l.calls[c].account == a && Outstanding(l.calls[c]))
            && l.queued == Count(l.calls) <= maxQueued
  {
    FreshOk(maxQueued);
    RunKeeps(Fresh(maxQueued), es);
    MaxStays(Fresh(maxQueued), es);
    var l := Run(Fresh(maxQueued), es);
    forall c, d | 0 <= c < |l.calls| && 0 <= d < |l.calls| && l.calls[c].account == l.calls[d].account
                  && l.calls[c].stage == Executing && l.calls[d].stage == Executing
      ensures c == d
    {
      assert LineAt(l, c, d) && LineAt(l, d, c);
    }
    forall i, j | 0 <= i < j < |l.started| && l.started[i] < |l.calls| && l.started[j] < |l.calls|
                  && l.calls[l.started[i]].account == l.calls[l.started[j]].account
      ensures l.started[i] < l.started[j]
    {
      assert LineAt(l, i, j);
    }
    forall a: Account
      ensures a in l.tails <==> exists c :: 0 <= c < |l.calls| && l.calls[c].account == a && Outstanding(l.calls[c])
    {
      assert LineAt(l, a, 0);
      if c :| 0 <= c < |l.calls| && l.calls[c].account == a && Outstanding(l.calls[c]) { assert LineAt(l, a, c); }
    }
  }

  lemma {:induction false} MaxStays(l: Line, es: seq<Event>)
    ensures Run(l, es).maxQueued == l.maxQueued
    decreases |es|
  {
    if es != [] { MaxStays(Next(l, es[0]), es[1..]); }
  }

  /** The oldest outstanding call of an account is never stuck: it has its turn, it
      executes, or what it waits for is over. */
  lemma OldestMoves(l: Line, c: CallId)
    requires LineOk(l) && c < |l.calls| && Outstanding(l.calls[c])
    requires forall b | 0 <= b < c && l.calls[b].account == l.calls[c].account :: !Outstanding(l.calls[b])
    ensures l.calls[c].stage.Waiting? ==> Next(l, Proceed(c)) == WithStage(l, c, Turn)
  {
    assert LineAt(l, c, c);
  }

  // ---------------------------------------------------------------- the object

  class RequestCoordinator {
    const maxQueued: nat
    var queued: int
    var tails: map<Account, CallId>
    var calls: seq<Call>
    var started: seq<CallId>

    constructor (limit: nat)
      ensures maxQueued == limit && State() == Fresh(limit)
    {
      maxQueued, queued, tails, calls, started := limit, 0, map[], [], [];
    }

    function State(): Line
      reads this
    {
      Line(maxQueued, queued, tails, calls, started)
    }

    /** The part of `schedule` before its first suspension. */
    method Enter(a: Account) returns (admitted: bool)
      modifies this
      ensures State() == Next(old(State()), Schedule(a)) && (admitted <==> old(queued) < maxQueued)
    {
      if queued >= maxQueued { return false; }
      var previous := if a in tails then Some(tails[a]) else None;
      tails := tails[a := |calls|];
      queued := queued + 1;
      calls := calls + [Call(a, Waiting(previous))];
      admitted := true;
    }

    /** The previous tail has been released: the call has its turn. */
    method Resume(c: CallId)
      requires c < |calls| && calls[c].stage.Waiting?
      requires calls[c].stage.previous.Some? ==>
                 calls[c].stage.previous.value < |calls| && calls[calls[c].stage.previous.value].stage == Over
      modifies this`calls
      ensures State() == Next(old(State()), Proceed(c))
    {
      calls := calls[c := calls[c].(stage := Turn)];
    }

    method Execute(c: CallId)
      requires c < |calls| && calls[c].stage == Turn
      modifies this`calls, this`started
      ensures State() == Next(old(State()), Start(c))
    {
      calls := calls[c := calls[c].(stage := Executing)];
      started := started + [c];
    }

    /** The `finally` block, after the execution or after an abort before it. */
    method Exit(c: CallId)
      requires c < |calls| && calls[c].stage in {Turn, Executing}
      modifies this`calls, this`queued, this`tails
      ensures State() == Next(old(State()), if old(calls)[c].stage == Turn then Abort(c) else Finish(c))
    {
      var a := calls[c].account;
      calls := calls[c := calls[c].(stage := Over)];
      queued := queued - 1;
      if a in tails && tails[a] == c { tails := tails - {a}; }
    }
  }
}
