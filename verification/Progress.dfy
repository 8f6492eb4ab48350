/** The video and desktop progress loops, against a server that answers as it likes. */
module Progress {
  import opened Common
  import opened Schema
  import opened Runner
  import opened Mutations

  /** What a fresh read of the quest reports, in whole seconds. */
  datatype Report = Report(progress: int, completed: bool)

  /** Everything the world decides about one mutation and the read after it: whether it
      may be prepared, how its sends and its reads end, how many of its marks still
      find the lease, and the refreshed quest, none when reading it fails. */
  datatype Trip = Trip(prepared: bool, first: Answer, firstRead: Option<Fresh>, second: Answer, secondRead: Option<Fresh>,
                       granted: nat, refreshed: Option<Report>)

  datatype End = Finished(last: Report) | Stalled | WaitedTooLong | Failed | Aborted

  // ---------------------------------------------------------------- one mutation

  lemma {:induction false} DoAllAppend(s: Protocol, ms: seq<Move>, m: Move)
    ensures DoAll(s, ms + [m]) == Do(DoAll(s, ms), m)
    decreases |ms|
  {
    if ms == [] {
      assert [] + [m] == [m] && [m][1..] == [];
    } else {
      assert (ms + [m])[1..] == ms[1..] + [m];
      DoAllAppend(Do(s, ms[0]), ms[1..], m);
    }
  }

  /** Worker t may prepare a mutation in this state of its job. */
  ghost predicate MayPrepare(p: Protocol, t: nat) {
    t in p.workers && p.workers[t] == Ready && Owner(p, t) && forall k | 0 <= k < |p.rows| :: !Mutations.Open(p.rows[k])
  }

  /** The mutation's row after `executeMutation`: sent that often, verified if and only
      if the caller got a fresh read; then the worker may go on, otherwise it is done. */
  ghost predicate Executed(p: Protocol, s: Protocol, t: nat, verified: Option<Fresh>, sends: nat) {
    && |s.rows| == |p.rows| + 1 && s.rows[..|p.rows|] == p.rows && s.rows[|p.rows|].sends == sends
    && (verified.Some? <==> s.rows[|p.rows|].status == Verified)
    && t in s.workers && s.workers[t] == (if verified.Some? then Ready else Over)
    && (verified.Some? ==> MayPrepare(s, t))
  }

  /** The protocol in the middle of that: the new row's sends and status, the phase. */
  ghost predicate Midway(p: Protocol, ms: seq<Move>, t: nat, kind: MutationKind, baseline: int, phase: Phase, sends: nat,
                         status: MutationStatus)
  {
    var s := DoAll(p, ms);
    && s.live && s.token == t && t in s.workers && s.workers[t] == phase
    && |s.rows| == |p.rows| + 1 && s.rows[..|p.rows|] == p.rows
    && s.rows[|p.rows|].kind == kind && s.rows[|p.rows|].baseline == baseline
    && s.rows[|p.rows|].sends == sends && s.rows[|p.rows|].status == status
  }

  lemma Begins(p: Protocol, t: nat, kind: MutationKind, baseline: int)
    requires MayPrepare(p, t)
    ensures Midway(p, [Begin(t, kind, baseline)], t, kind, baseline, FirstSend(|p.rows|), 0, InFlight)
  {
    DoAllAppend(p, [], Begin(t, kind, baseline));
    assert [] + [Begin(t, kind, baseline)] == [Begin(t, kind, baseline)];
  }

  lemma Sends(p: Protocol, ms: seq<Move>, t: nat, kind: MutationKind, baseline: int, phase: Phase, sends: nat,
              status: MutationStatus, answer: Answer)
    requires Midway(p, ms, t, kind, baseline, phase, sends, status)
    requires phase == FirstSend(|p.rows|) || phase == SecondSend(|p.rows|)
    ensures var next := if phase.FirstSend? then FirstMark(|p.rows|, answer)
                        else if answer == Done then SecondRead(|p.rows|) else SecondJudge(|p.rows|, None);
            Midway(p, ms + [Send(t, answer)], t, kind, baseline, next, sends + 1, status)
  {
    DoAllAppend(p, ms, Send(t, answer));
  }

  lemma Reads(p: Protocol, ms: seq<Move>, t: nat, kind: MutationKind, baseline: int, phase: Phase, sends: nat,
              status: MutationStatus, seen: Option<Fresh>)
    requires Midway(p, ms, t, kind, baseline, phase, sends, status)
    requires (phase.FirstRead? && phase.row == |p.rows|) || phase == SecondRead(|p.rows|)
    ensures var next := if phase.FirstRead? then FirstJudge(|p.rows|, phase.unclear, seen) else SecondJudge(|p.rows|, seen);
            Midway(p, ms + [Read(t, seen)], t, kind, baseline, next, sends, status)
  {
    DoAllAppend(p, ms, Read(t, seen));
  }

  /** A mark that finds the lease, when it leads to another phase of the same mutation. */
  lemma MarksOn(p: Protocol, ms: seq<Move>, t: nat, kind: MutationKind, baseline: int, phase: Phase, sends: nat,
                status: MutationStatus) returns (next: MutationStatus)
    requires Midway(p, ms, t, kind, baseline, phase, sends, status)
    requires (phase.FirstMark? && phase.row == |p.rows| && phase.answer != Refused)
             || (phase.FirstJudge? && phase.row == |p.rows| && phase.read.Some? && !Applied(kind, baseline, phase.read.value))
    ensures next != Verified
    ensures var to := if phase.FirstMark? then FirstRead(|p.rows|, phase.answer == Unclear) else SecondSend(|p.rows|);
            Midway(p, ms + [Move.Mark(t)], t, kind, baseline, to, sends, next)
  {
    DoAllAppend(p, ms, Move.Mark(t));
    next := if phase.FirstMark? then (if phase.answer == Done then Accepted else Uncertain)
            else if phase.unclear then Uncertain else MutationStatus.MutationFailed;
  }

  /** A fresh read shows the effect. */
  predicate Shows(kind: MutationKind, baseline: int, read: Option<Fresh>) {
    read.Some? && Applied(kind, baseline, read.value)
  }

  /** The last mark of a mutation, with the lease still there. */
  lemma {:induction false} MarksLast(p: Protocol, ms: seq<Move>, t: nat, kind: MutationKind, baseline: int, phase: Phase, sends: nat,
                  status: MutationStatus)
    requires MayPrepare(p, t) && Midway(p, ms, t, kind, baseline, phase, sends, status) && status != Verified
    requires phase == FirstMark(|p.rows|, Refused)
             || (phase.FirstJudge? && phase.row == |p.rows| && (phase.read.None? || Shows(kind, baseline, phase.read)))
             || (phase.SecondJudge? && phase.row == |p.rows|)
    ensures var seen := if phase.FirstMark? then None else if Shows(kind, baseline, phase.read) then phase.read else None;
            Executed(p, DoAll(p, ms + [Move.Mark(t)]), t, seen, sends)
  {
    DoAllAppend(p, ms, Move.Mark(t));
  }

  /** A mark after the lease was lost is refused and ends the worker. */
  lemma {:induction false} MarksTooLate(p: Protocol, ms: seq<Move>, t: nat, kind: MutationKind, baseline: int, phase: Phase, sends: nat,
                     status: MutationStatus)
    requires Midway(p, ms, t, kind, baseline, phase, sends, status) && status != Verified
    requires (phase.FirstMark? || phase.FirstJudge? || phase.SecondJudge?) && phase.row == |p.rows|
    ensures Executed(p, DoAll(p, ms + [LoseLease] + [Move.Mark(t)]), t, None, sends)
  {
    DoAllAppend(p, ms, LoseLease);
    DoAllAppend(p, ms + [LoseLease], Move.Mark(t));
  }

  /** `executeMutation`: what it does is a run of the checkpoint protocol by its worker. */
  method ExecuteMutation(kind: MutationKind, baseline: int, trip: Trip, ghost p: Protocol, ghost t: nat)
    returns (verified: Option<Fresh>, sends: nat, ghost moves: seq<Move>)
    requires MayPrepare(p, t)
    ensures sends <= 2 && (trip.prepared <==> sends >= 1)
    ensures verified.Some? ==> trip.prepared && Applied(kind, baseline, verified.value)
    ensures trip.prepared ==> Executed(p, DoAll(p, moves), t, verified, sends)
  {
    verified, sends, moves := None, 0, [];
    if !trip.prepared { return; }
    ghost var k, status := |p.rows|, InFlight;
    moves := [Begin(t, kind, baseline)];
    Begins(p, t, kind, baseline);
    sends := 1;
    Sends(p, moves, t, kind, baseline, FirstSend(k), 0, status, trip.first);
    moves := moves + [Send(t, trip.first)];
    if trip.granted == 0 {
      MarksTooLate(p, moves, t, kind, baseline, FirstMark(k, trip.first), sends, status);
      moves := moves + [LoseLease] + [Move.Mark(t)];
      return;
    }
    if trip.first == Refused {
      MarksLast(p, moves, t, kind, baseline, FirstMark(k, Refused), sends, status);
      moves := moves + [Move.Mark(t)];
      return;
    }
    status := MarksOn(p, moves, t, kind, baseline, FirstMark(k, trip.first), sends, status);
    moves := moves + [Move.Mark(t)];
    verified, sends, moves := ReadBack(kind, baseline, trip, p, t, moves, status);
  }

  /** The rest of it, from the first read on. */
  method ReadBack(kind: MutationKind, baseline: int, trip: Trip, ghost p: Protocol, ghost t: nat, ghost ms: seq<Move>,
                  ghost was: MutationStatus)
    returns (verified: Option<Fresh>, sends: nat, ghost moves: seq<Move>)
    requires MayPrepare(p, t) && was != Verified && trip.granted >= 1
    requires Midway(p, ms, t, kind, baseline, FirstRead(|p.rows|, trip.first == Unclear), 1, was)
    ensures 1 <= sends <= 2 && (verified.Some? ==> Applied(kind, baseline, verified.value))
    ensures Executed(p, DoAll(p, moves), t, verified, sends)
  {
    verified, sends, moves := None, 1, ms;
    ghost var k, status := |p.rows|, was;
    Reads(p, moves, t, kind, baseline, FirstRead(k, trip.first == Unclear), sends, status, trip.firstRead);
    moves := moves + [Read(t, trip.firstRead)];
    ghost var judge := FirstJudge(k, trip.first == Unclear, trip.firstRead);
    if trip.granted < 2 {
      MarksTooLate(p, moves, t, kind, baseline, judge, sends, status);
      moves := moves + [LoseLease] + [Move.Mark(t)];
      return;
    }
    if trip.firstRead.None? || Applied(kind, baseline, trip.firstRead.value) {
      verified := trip.firstRead;
      MarksLast(p, moves, t, kind, baseline, judge, sends, status);
      moves := moves + [Move.Mark(t)];
      return;
    }
    status := MarksOn(p, moves, t, kind, baseline, judge, sends, status);
    moves := moves + [Move.Mark(t)];
    verified, sends, moves := Retry(kind, baseline, trip, p, t, moves, status);
  }

  /** `controlledRetry` */
  method Retry(kind: MutationKind, baseline: int, trip: Trip, ghost p: Protocol, ghost t: nat, ghost ms: seq<Move>,
               ghost was: MutationStatus)
    returns (verified: Option<Fresh>, sends: nat, ghost moves: seq<Move>)
    requires MayPrepare(p, t) && was != Verified && trip.granted >= 2
    requires Midway(p, ms, t, kind, baseline, SecondSend(|p.rows|), 1, was)
    ensures sends == 2 && (verified.Some? ==> Applied(kind, baseline, verified.value))
    ensures Executed(p, DoAll(p, moves), t, verified, sends)
  {
    verified, sends, moves := None, 2, ms;
    ghost var k := |p.rows|;
    Sends(p, moves, t, kind, baseline, SecondSend(k), 1, was, trip.second);
    moves := moves + [Send(t, trip.second)];
    var read := None;
    if trip.second == Done {
      read := trip.secondRead;
      Reads(p, moves, t, kind, baseline, SecondRead(k), sends, was, read);
      moves := moves + [Read(t, read)];
    }
    if trip.granted < 3 {
      MarksTooLate(p, moves, t, kind, baseline, SecondJudge(k, read), sends, was);
      moves := moves + [LoseLease] + [Move.Mark(t)];
      return;
    }
    if Shows(kind, baseline, read) { verified := read; }
    MarksLast(p, moves, t, kind, baseline, SecondJudge(k, read), sends, was);
    moves := moves + [Move.Mark(t)];
  }

  // ---------------------------------------------------------------- video

  const StepSeconds := 10
  const MaxWaits := 120
  const MaxUnchangedVideo := 8

  /** The latest timestamp the elapsed time allows, none of it known without an
      enrolment time. */
  function Allowance(current: int, enrolledAt: Option<int>, now: int): int {
    if enrolledAt.Some? then (now - enrolledAt.value) / 1000 + StepSeconds else current + 1
  }

  function Min(a: int, b: int): int {
    if a <= b then a else b
  }

  function NextVideoTimestamp(current: int, target: int, enrolledAt: Option<int>, now: int): int {
    Min(target, Min(current + StepSeconds, Allowance(current, enrolledAt, now)))
  }

  /** One post: what was posted, the progress known and the time then. */
  datatype Post = Post(timestamp: int, current: int, now: int)

  predicate PostOk(x: Post, start: int, target: int, enrolledAt: Option<int>) {
    var elapsed := if enrolledAt.Some? then (x.now - enrolledAt.value) / 1000 + 10 else x.current + 1;
    && start <= x.current < x.timestamp
    && x.timestamp <= target && x.timestamp <= x.current + 10 && x.timestamp <= elapsed
    && (x.timestamp == target || x.timestamp == x.current + 10 || x.timestamp == elapsed)
  }

  function Span(start: int, target: int): nat {
    if start < target then target - start else 0
  }

  /** The world of a loop: one trip per mutation, the clock at each turn, and the turns
      at which the caller has aborted. */
  datatype World = World(trips: nat -> Trip, clock: nat -> int, aborted: nat -> bool)

  /** `execute` of the video executor. However the server answers, it ends; it posts at
      most eight times per missing second, sends at most twice per post, and each post
      stays within the target, the step and the elapsed time. */
  method Video(quest: Report, target: int, enrolledAt: Option<int>, world: World, ghost job: Protocol, ghost t: nat)
    returns (end: End, reached: int, posts: seq<Post>, sends: nat, turns: nat)
    requires MayPrepare(job, t)
    ensures |posts| <= 8 * Span(quest.progress, target) && sends <= 2 * |posts|
    ensures turns <= 120 * (|posts| + 1)
    ensures end.Stalled? ==> |posts| >= 8
    ensures end.WaitedTooLong? ==> turns >= 120
    ensures forall k | 0 <= k < |posts| :: PostOk(posts[k], quest.progress, target, enrolledAt)
    ensures end.Finished? ==> end.last.completed || reached >= target
  {
    var last, baseline := quest, quest.progress;
    var stuck, waits := 0, 0;
    ghost var p := job;
    reached, posts, sends, turns := quest.progress, [], 0, 0;
    while !last.completed && reached < target
      invariant quest.progress <= reached && 0 <= stuck < MaxUnchangedVideo && 0 <= waits < MaxWaits
      invariant !last.completed && reached < target ==> |posts| <= 8 * (reached - quest.progress) + stuck
      invariant |posts| <= 8 * Span(quest.progress, target) && sends <= 2 * |posts|
      invariant turns <= 120 * |posts| + waits && waits <= turns && stuck <= |posts|
      invariant forall k | 0 <= k < |posts| :: PostOk(posts[k], quest.progress, target, enrolledAt)
      invariant MayPrepare(p, t)
      decreases !last.completed, target - reached, MaxUnchangedVideo - stuck, MaxWaits - waits
    {
      if world.aborted(turns) { return Aborted, reached, posts, sends, turns; }
      var now := world.clock(turns);
      turns := turns + 1;
      var timestamp := NextVideoTimestamp(reached, target, enrolledAt, now);
      if timestamp <= reached {
        waits := waits + 1;
        if waits >= MaxWaits { return WaitedTooLong, reached, posts, sends, turns; }
      } else {
        waits := 0;
        var trip := world.trips(|posts|);
        var verified, used;
        ghost var moves;
        verified, used, moves := ExecuteMutation(VideoProgress(timestamp), baseline, trip, p, t);
        posts, sends := posts + [Post(timestamp, reached, now)], sends + used;
        if verified.None? || trip.refreshed.None? { return End.Failed, reached, posts, sends, turns; }
        baseline, p := verified.value.progress, DoAll(p, moves);
        last := trip.refreshed.value;
        stuck := if last.progress > reached || last.completed then 0 else stuck + 1;
        if stuck >= MaxUnchangedVideo { return Stalled, reached, posts, sends, turns; }
        reached := if reached < last.progress then last.progress else reached;
      }
    }
    end := Finished(last);
  }

  // ---------------------------------------------------------------- desktop

  const MaxUnchangedDesktop := 5

  /** One heartbeat: the closing one is terminal, and a payload is sent from the first
      unanswered one on when the quest has an application. */
  datatype Beat = Beat(terminal: bool, payload: bool)

  /** `execute` of the desktop executor: at most five heartbeats per missing second and
      one terminal one, which is the last; the payload is never taken back. */
  method Desktop(quest: Report, target: int, hasApplication: bool, world: World, ghost job: Protocol, ghost t: nat)
    returns (end: End, reached: int, beats: seq<Beat>, sends: nat)
    requires MayPrepare(job, t)
    ensures |beats| <= 5 * Span(quest.progress, target) + 1 && sends <= 2 * |beats|
    ensures end.Stalled? ==> |beats| >= 5
    ensures forall k | 0 <= k < |beats| - 1 :: !beats[k].terminal && (beats[k].payload ==> beats[k + 1].payload)
    ensures beats != [] && quest.progress < target && !quest.completed ==> !beats[0].payload
    ensures !hasApplication ==> forall k | 0 <= k < |beats| :: !beats[k].payload
    ensures end.Finished? && !end.last.completed ==> reached >= target && beats != [] && beats[|beats| - 1].terminal
  {
    var last, baseline := quest, quest.progress;
    var stuck, payload := 0, false;
    ghost var p := job;
    reached, beats, sends := quest.progress, [], 0;
    while !last.completed && reached < target
      invariant quest.progress <= reached && 0 <= stuck < MaxUnchangedDesktop
      invariant !last.completed && reached < target ==> |beats| <= 5 * (reached - quest.progress) + stuck
      invariant |beats| <= 5 * Span(quest.progress, target) && sends <= 2 * |beats| && stuck <= |beats|
      invariant forall k | 0 <= k < |beats| :: !beats[k].terminal && (beats[k].payload ==> payload)
      invariant forall k | 0 <= k < |beats| - 1 :: beats[k].payload ==> beats[k + 1].payload
      invariant (beats == [] ==> !payload) && (beats != [] ==> !beats[0].payload) && (payload ==> hasApplication)
      invariant MayPrepare(p, t)
      decreases !last.completed, target - reached, MaxUnchangedDesktop - stuck
    {
      if world.aborted(|beats|) { return Aborted, reached, beats, sends; }
      var trip := world.trips(|beats|);
      var verified, used;
      ghost var moves;
      verified, used, moves := ExecuteMutation(Heartbeat, baseline, trip, p, t);
      beats, sends := beats + [Beat(false, payload)], sends + used;
      if verified.None? || trip.refreshed.None? { return End.Failed, reached, beats, sends; }
      baseline, p := verified.value.progress, DoAll(p, moves);
      last := trip.refreshed.value;
      if last.progress > reached || last.completed {
        stuck := 0;
      } else {
        stuck := stuck + 1;
        payload := payload || hasApplication;
      }
      if stuck >= MaxUnchangedDesktop { return Stalled, reached, beats, sends; }
      reached := if reached < last.progress then last.progress else reached;
    }
    if !last.completed {
      var trip := world.trips(|beats|);
      var verified, used;
      ghost var moves;
      verified, used, moves := ExecuteMutation(Heartbeat, baseline, trip, p, t);
      beats, sends := beats + [Beat(true, payload)], sends + used;
      if verified.None? || trip.refreshed.None? { return End.Failed, reached, beats, sends; }
      last := trip.refreshed.value;
    }
    end := Finished(last);
  }
}
