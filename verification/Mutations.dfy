/** The mutation checkpoint of one job: every change requested from the quest server is
    recorded before it is sent, sent at most twice and believed only on a fresh read. */
module Mutations {
  import opened Common
  import opened Schema
  import opened Runner

  /** `mutationApplied`: does a fresh read show the effect? */
  predicate Applied(kind: MutationKind, baseline: int, seen: Fresh) {
    if kind == Enroll then seen.enrolled
    else if seen.completed then true
    else if kind.VideoProgress? then seen.progress >= kind.timestamp
    else seen.progress > baseline
  }

  /** A mutation row; `holder` is the fencing token it was prepared under. */
  datatype Row = Row(number: nat, kind: MutationKind, baseline: int, status: MutationStatus, evidence: Option<Fresh>,
                     sends: nat, holder: nat)

  /** How a send ends for the worker. */
  datatype Answer = Done | Unclear | Refused

  /** Where the worker of one acquisition stands in `executeMutation`. */
  datatype Phase =
    | Ready
    | FirstSend(row: nat)
    | FirstMark(row: nat, answer: Answer)
    | FirstRead(row: nat, unclear: bool)
    | FirstJudge(row: nat, unclear: bool, read: Option<Fresh>)
    | SecondSend(row: nat)
    | SecondRead(row: nat)
    | SecondJudge(row: nat, read: Option<Fresh>)
    | Over

  /** The job's token and whether its lease still runs, its mutation rows, and the
      worker of every acquisition so far: a worker whose lease is lost goes on. */
  datatype Protocol = Protocol(token: nat, live: bool, rows: seq<Row>, workers: map<nat, Phase>)

  const Started := Protocol(0, false, [], map[])

  datatype Move =
    | Acquire
    | LoseLease
    | Begin(worker: nat, kind: MutationKind, baseline: int)
    | Send(worker: nat, answer: Answer)
    | Read(worker: nat, seen: Option<Fresh>)
    | Mark(worker: nat)

  // ---------------------------------------------------------------- moves

  predicate Open(r: Row) {
    r.status in Unsettled
  }

  function LastNumber(rows: seq<Row>): nat {
    if rows == [] then 0
    else
      var n, m := LastNumber(rows[..|rows| - 1]), rows[|rows| - 1].number;
      if n < m then m else n
  }

  function At(s: Protocol, t: nat, p: Phase): Protocol {
    s.(workers := s.workers[t := p])
  }

  predicate Owner(s: Protocol, t: nat) {
    s.live && t == s.token
  }

  /** `prepareMutation` */
  function Prepared(s: Protocol, t: nat, kind: MutationKind, baseline: int): Protocol {
    if !Owner(s, t) || exists k | 0 <= k < |s.rows| :: Open(s.rows[k]) then At(s, t, Over)
    else
      At(s.(rows := s.rows + [Row(LastNumber(s.rows) + 1, kind, baseline, InFlight, None, 0, t)]), t, FirstSend(|s.rows|))
  }

  /** Sending is not fenced: the request leaves whoever owns the job now. */
  function Sent(s: Protocol, t: nat, k: nat, next: Phase): Protocol {
    if k >= |s.rows| then s
    else At(s.(rows := s.rows[k := s.rows[k].(sends := s.rows[k].sends + 1)]), t, next)
  }

  /** `markMutation`: fenced, and a refused mark ends the worker. */
  function Marked(s: Protocol, t: nat, k: nat, status: MutationStatus, evidence: Option<Fresh>, next: Phase): Protocol {
    if !Owner(s, t) || k >= |s.rows| then At(s, t, Over)
    else At(s.(rows := s.rows[k := s.rows[k].(status := status, evidence := evidence)]), t, next)
  }

  /** The mark that the worker's phase calls for. */
  function MarkOf(s: Protocol, t: nat, p: Phase): Protocol {
    match p
    case FirstMark(k, answer) =>
      (match answer
       case Done => Marked(s, t, k, Accepted, None, FirstRead(k, false))
       case Unclear => Marked(s, t, k, Uncertain, None, FirstRead(k, true))
       case Refused => Marked(s, t, k, MutationFailed, None, Over))
    case FirstJudge(k, unclear, read) =>
      if k >= |s.rows| then s
      else if read.None? then Marked(s, t, k, Uncertain, None, Over)
      else if Applied(s.rows[k].kind, s.rows[k].baseline, read.value) then Marked(s, t, k, Verified, read, Ready)
      else Marked(s, t, k, if unclear then Uncertain else MutationFailed, None, SecondSend(k))
    case SecondJudge(k, read) =>
      if k >= |s.rows| then s
      else if read.None? then Marked(s, t, k, Uncertain, None, Over)
      else if Applied(s.rows[k].kind, s.rows[k].baseline, read.value) then Marked(s, t, k, Verified, read, Ready)
      else At(s, t, Over)
    case _ => s
  }

  function Do(s: Protocol, m: Move): Protocol {
    match m
    case Acquire => Protocol(s.token + 1, true, s.rows, s.workers[s.token + 1 := Ready])
    case LoseLease => s.(live := false)
    case Begin(t, kind, baseline) => if t in s.workers && s.workers[t] == Ready then Prepared(s, t, kind, baseline) else s
    case Send(t, answer) =>
      if t !in s.workers then s
      else
        (match s.workers[t]
         case FirstSend(k) => Sent(s, t, k, FirstMark(k, answer))
         case SecondSend(k) => Sent(s, t, k, if answer == Done then SecondRead(k) else SecondJudge(k, None))
         case _ => s)
    case Read(t, seen) =>
      if t !in s.workers then s
      else
        (match s.workers[t]
         case FirstRead(k, unclear) => At(s, t, FirstJudge(k, unclear, seen))
         case SecondRead(k) => At(s, t, SecondJudge(k, seen))
         case _ => s)
    case Mark(t) => if t in s.workers then MarkOf(s, t, s.workers[t]) else s
  }

  function DoAll(s: Protocol, ms: seq<Move>): Protocol
    decreases |ms|
  {
    if ms == [] then s else DoAll(Do(s, ms[0]), ms[1..])
  }

  // ---------------------------------------------------------------- invariant

  /** Only the last row may be unsettled; rows are numbered from one; no row was sent
      more than twice; a verified row carries a read that shows its effect. */
  predicate RowOk(s: Protocol, k: nat) {
    k < |s.rows| ==>
      var r := s.rows[k];
      && r.number == k + 1 && r.sends <= 2 && 0 < r.holder <= s.token
      && (Open(r) ==> k == |s.rows| - 1)
      && (r.status == Verified ==> r.evidence.Some? && Applied(r.kind, r.baseline, r.evidence.value))
  }

  /** A worker in the middle of a mutation works on a row of its own, which is the last
      one as long as nobody acquired the job after it, and has sent it as often as its
      phase says. */
  predicate WorkerOk(s: Protocol, t: nat) {
    t in s.workers ==>
      && 0 < t <= s.token
      && (!s.workers[t].Ready? && !s.workers[t].Over? ==>
            var k := s.workers[t].row;
            && k < |s.rows| && s.rows[k].holder == t && (t == s.token ==> k == |s.rows| - 1)
            && s.rows[k].sends == SendsIn(s.workers[t]))
  }

  function SendsIn(p: Phase): nat {
    match p
    case FirstSend(_) => 0
    case SecondRead(_) => 2
    case SecondJudge(_, _) => 2
    case _ => 1
  }

  ghost predicate ProtocolOk(s: Protocol) {
    forall n: nat :: RowOk(s, n) && WorkerOk(s, n)
  }

  lemma {:induction false} NumbersInOrder(rows: seq<Row>)
    requires forall k | 0 <= k < |rows| :: rows[k].number == k + 1
    ensures LastNumber(rows) == |rows|
  {
    if rows != [] { NumbersInOrder(rows[..|rows| - 1]); }
  }

  lemma BeginKeeps(s: Protocol, t: nat, kind: MutationKind, baseline: int)
    requires ProtocolOk(s) && t in s.workers
    ensures ProtocolOk(Prepared(s, t, kind, baseline))
  {
    forall k | 0 <= k < |s.rows| ensures s.rows[k].number == k + 1 { assert RowOk(s, k); }
    NumbersInOrder(s.rows);
    forall n: nat ensures RowOk(Prepared(s, t, kind, baseline), n) && WorkerOk(Prepared(s, t, kind, baseline), n) {
      assert RowOk(s, n) && WorkerOk(s, n) && WorkerOk(s, t);
    }
  }

  lemma MarkedKeeps(s: Protocol, t: nat, k: nat, status: MutationStatus, evidence: Option<Fresh>, next: Phase)
    requires ProtocolOk(s) && t in s.workers && !s.workers[t].Ready? && !s.workers[t].Over? && s.workers[t].row == k
    requires status == Verified ==>
               k < |s.rows| && evidence.Some? && Applied(s.rows[k].kind, s.rows[k].baseline, evidence.value)
    requires next.Ready? || next.Over? || (next.row == k && SendsIn(next) == SendsIn(s.workers[t]))
    ensures ProtocolOk(Marked(s, t, k, status, evidence, next))
  {
    var s' := Marked(s, t, k, status, evidence, next);
    assert WorkerOk(s, t);
    forall n: nat ensures RowOk(s', n) && WorkerOk(s', n) { assert RowOk(s, n) && WorkerOk(s, n); }
  }

  lemma SentKeeps(s: Protocol, t: nat, k: nat, next: Phase)
    requires ProtocolOk(s) && t in s.workers && !s.workers[t].Ready? && !s.workers[t].Over? && s.workers[t].row == k
    requires !next.Ready? && !next.Over? && next.row == k && SendsIn(next) == SendsIn(s.workers[t]) + 1 <= 2
    ensures ProtocolOk(Sent(s, t, k, next))
  {
    var s' := Sent(s, t, k, next);
    assert WorkerOk(s, t);
    forall n: nat ensures RowOk(s', n) && WorkerOk(s', n) { assert RowOk(s, n) && WorkerOk(s, n); }
  }

  lemma PhaseKeeps(s: Protocol, t: nat, next: Phase)
    requires ProtocolOk(s) && t in s.workers
    requires next.Over? || (!next.Ready? && !s.workers[t].Ready? && !s.workers[t].Over?
                            && next.row == s.workers[t].row && SendsIn(next) == SendsIn(s.workers[t]))
    ensures ProtocolOk(At(s, t, next))
  {
    forall n: nat ensures RowOk(At(s, t, next), n) && WorkerOk(At(s, t, next), n) { assert RowOk(s, n) && WorkerOk(s, n); }
  }

  lemma MarkKeeps(s: Protocol, t: nat)
    requires ProtocolOk(s) && t in s.workers
    ensures ProtocolOk(MarkOf(s, t, s.workers[t]))
  {
    assert WorkerOk(s, t);
    match s.workers[t] {
      case FirstMark(k, answer) =>
        match answer {
          case Done => MarkedKeeps(s, t, k, Accepted, None, FirstRead(k, false));
          case Unclear => MarkedKeeps(s, t, k, Uncertain, None, FirstRead(k, true));
          case Refused => MarkedKeeps(s, t, k, MutationFailed, None, Over);
        }
      case FirstJudge(k, unclear, read) =>
        if read.None? { MarkedKeeps(s, t, k, Uncertain, None, Over); }
        else if Applied(s.rows[k].kind, s.rows[k].baseline, read.value) { MarkedKeeps(s, t, k, Verified, read, Ready); }
        else { MarkedKeeps(s, t, k, if unclear then Uncertain else MutationFailed, None, SecondSend(k)); }
      case SecondJudge(k, read) =>
        if read.None? { MarkedKeeps(s, t, k, Uncertain, None, Over); }
        else if Applied(s.rows[k].kind, s.rows[k].baseline, read.value) { MarkedKeeps(s, t, k, Verified, read, Ready); }
        else { PhaseKeeps(s, t, Over); }
      case _ =>
    }
  }

  lemma MoveKeeps(s: Protocol, m: Move)
    requires ProtocolOk(s)
    ensures ProtocolOk(Do(s, m))
  {
    match m
    case Begin(t, kind, baseline) => if t in s.workers && s.workers[t] == Ready { BeginKeeps(s, t, kind, baseline); }
    case Send(t, answer) =>
      if t in s.workers {
        if s.workers[t].FirstSend? { SentKeeps(s, t, s.workers[t].row, FirstMark(s.workers[t].row, answer)); }
        if s.workers[t].SecondSend? {
          var k := s.workers[t].row;
          SentKeeps(s, t, k, if answer == Done then SecondRead(k) else SecondJudge(k, None));
        }
      }
    case Read(t, seen) =>
      if t in s.workers {
        if s.workers[t].FirstRead? { PhaseKeeps(s, t, FirstJudge(s.workers[t].row, s.workers[t].unclear, seen)); }
        if s.workers[t].SecondRead? { PhaseKeeps(s, t, SecondJudge(s.workers[t].row, seen)); }
      }
    case Mark(t) => if t in s.workers { MarkKeeps(s, t); }
    case _ =>
      forall n: nat ensures RowOk(Do(s, m), n) && WorkerOk(Do(s, m), n) { assert RowOk(s, n) && WorkerOk(s, n); }
  }

  /** The checkpoint invariant in every reachable state, whatever workers of whatever
      acquisitions do in whatever order. */
  lemma {:induction false} MovesKeep(s: Protocol, ms: seq<Move>)
    requires ProtocolOk(s)
    ensures ProtocolOk(DoAll(s, ms))
    decreases |ms|
  {
    if ms != [] {
      MoveKeeps(s, ms[0]);
      MovesKeep(Do(s, ms[0]), ms[1..]);
    }
  }

  // ---------------------------------------------------------------- consequences

  /** What the checkpoint promises about the rows of a job. */
  ghost predicate Promises(rows: seq<Row>) {
    && (forall j, k | 0 <= j < |rows| && 0 <= k < |rows|
                      && rows[j].status in {InFlight, Accepted, Uncertain} && rows[k].status in {InFlight, Accepted, Uncertain} :: j == k)
    && (forall k | 0 <= k < |rows| :: rows[k].number == k + 1 && rows[k].sends <= 2)
    && (forall k | 0 <= k < |rows| && rows[k].status == Verified ::
          rows[k].evidence.Some? && HasEffect(rows[k].kind, rows[k].baseline, rows[k].evidence.value))
  }

  /** A fresh read proves the change: the quest is enrolled in; or it is completed, or its
      progress has reached the posted timestamp, or has grown past what it was before the
      heartbeat. */
  predicate HasEffect(kind: MutationKind, baseline: int, seen: Fresh) {
    match kind
    case Enroll => seen.enrolled
    case VideoProgress(timestamp) => seen.completed || timestamp <= seen.progress
    case Heartbeat => seen.completed || baseline < seen.progress
  }

  /** At most one mutation is in flight, accepted or uncertain, they are numbered one to
      n, each was sent at most twice, and a verified one was seen on a fresh read. */
  lemma {:induction false} CheckpointPromises(ms: seq<Move>)
    ensures Promises(DoAll(Started, ms).rows)
  {
    MovesKeep(Started, ms);
    var s := DoAll(Started, ms);
    forall k: nat | k < |s.rows|
      ensures s.rows[k].number == k + 1 && s.rows[k].sends <= 2 && (Open(s.rows[k]) ==> k == |s.rows| - 1)
      ensures s.rows[k].status == Verified ==>
                s.rows[k].evidence.Some? && Applied(s.rows[k].kind, s.rows[k].baseline, s.rows[k].evidence.value)
    {
      assert RowOk(s, k);
    }
  }

  /** A mutation is prepared exactly when the present owner asks and none is unsettled. */
  lemma PreparedIff(s: Protocol, t: nat, kind: MutationKind, baseline: int)
    requires t in s.workers && s.workers[t] == Ready
    ensures |Do(s, Begin(t, kind, baseline)).rows| > |s.rows| <==>
              s.live && t == s.token && forall k | 0 <= k < |s.rows| :: s.rows[k].status !in {InFlight, Accepted, Uncertain}
  {}

  /** An unsettled mutation left behind by an earlier acquisition. */
  predicate Stranded(s: Protocol, k: nat) {
    k < |s.rows| && s.rows[k].status in {InFlight, Accepted, Uncertain} && s.rows[k].holder < s.token
  }

  lemma StrandedStays(s: Protocol, m: Move, k: nat)
    requires ProtocolOk(s) && Stranded(s, k)
    ensures var s' := Do(s, m); |s'.rows| == |s.rows| && Stranded(s', k)
  {
    assert RowOk(s, k);
    if m.Mark? && m.worker in s.workers { assert WorkerOk(s, m.worker); }
    if m.Send? && m.worker in s.workers { assert WorkerOk(s, m.worker); }
  }

  /** Such a mutation is never settled: its own worker is fenced out and nobody else
      marks it, so no later acquisition, not even after a review sent the job back to
      the queue, can prepare another mutation. */
  lemma {:induction false} StrandedForever(s: Protocol, ms: seq<Move>, k: nat)
    requires ProtocolOk(s) && Stranded(s, k)
    ensures |DoAll(s, ms).rows| == |s.rows| && Stranded(DoAll(s, ms), k)
    decreases |ms|
  {
    if ms != [] {
      MoveKeeps(s, ms[0]);
      StrandedStays(s, ms[0], k);
      StrandedForever(Do(s, ms[0]), ms[1..], k);
    }
  }

  /** It takes one crash after one mutation was prepared. */
  lemma {:induction false} StrandedReachable() returns (ms: seq<Move>)
    ensures Stranded(DoAll(Started, ms), 0)
  {
    var begin := Begin(1, Enroll, 0);
    ms := [Acquire, begin, LoseLease, Acquire];
    var s1 := Do(Started, Acquire);
    var s3 := Do(Do(s1, begin), LoseLease);
    assert ms[1..] == [begin, LoseLease, Acquire] && [begin, LoseLease, Acquire][1..] == [LoseLease, Acquire];
    assert [LoseLease, Acquire][1..] == [Acquire] && [Acquire][1..] == [];
    assert DoAll(Started, ms) == DoAll(s1, [begin, LoseLease, Acquire]);
    assert DoAll(s1, [begin, LoseLease, Acquire]) == DoAll(Do(s1, begin), [LoseLease, Acquire]);
    assert DoAll(Do(s1, begin), [LoseLease, Acquire]) == DoAll(s3, [Acquire]);
    assert DoAll(s3, [Acquire]) == Do(s3, Acquire);
  }
}
