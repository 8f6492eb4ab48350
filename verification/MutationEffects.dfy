/** What each move of a mutation leaves of its row, with statuses written out. */
module MutationEffects {
  import opened Common
  import opened Schema
  import opened Mutations

  /** The worker holds the job's present claim. */
  predicate Holder(s: Protocol, t: nat) {
    s.live && t == s.token
  }

  /** Row k gets this status and this evidence, and the worker goes on there; nothing else
      changes. */
  predicate RowMarked(s: Protocol, s': Protocol, t: nat, k: nat, status: MutationStatus, evidence: Option<Fresh>, next: Phase) {
    && k < |s.rows|
    && s'.rows == s.rows[k := Row(s.rows[k].number, s.rows[k].kind, s.rows[k].baseline, status, evidence, s.rows[k].sends,
                                  s.rows[k].holder)]
    && s'.workers == s.workers[t := next] && s'.token == s.token && s'.live == s.live
  }

  /** A new row is in flight, not sent yet, and its worker's next move is to send it. */
  lemma {:induction false} MutationBegun(s: Protocol, t: nat, kind: MutationKind, baseline: int)
    requires t in s.workers && s.workers[t] == Ready
    ensures var s' := Do(s, Begin(t, kind, baseline));
            if Holder(s, t) && forall k | 0 <= k < |s.rows| :: s.rows[k].status !in {InFlight, Accepted, Uncertain}
            then
              && |s'.rows| == |s.rows| + 1 && s'.rows[..|s.rows|] == s.rows
              && s'.rows[|s.rows|] == Row(LastNumber(s.rows) + 1, kind, baseline, InFlight, None, 0, t)
              && s'.workers == s.workers[t := FirstSend(|s.rows|)]
            else s'.rows == s.rows && s'.workers == s.workers[t := Over]
  {}

  /** A send counts whoever holds the job; after the first the answer is marked, after the
      second the effect is read, unless the second was not answered either. */
  lemma SendCounts(s: Protocol, t: nat, k: nat, answer: Answer)
    requires t in s.workers && k < |s.rows| && (s.workers[t] == FirstSend(k) || s.workers[t] == SecondSend(k))
    ensures var s' := Do(s, Send(t, answer));
            && s'.rows == s.rows[k := s.rows[k].(sends := s.rows[k].sends + 1)]
            && s'.workers == s.workers[t := if s.workers[t].FirstSend? then FirstMark(k, answer)
                                            else match answer case Done => SecondRead(k) case _ => SecondJudge(k, None)]
  {}

  /** The answer to the first send: accepted, or perhaps applied, or refused for good. */
  lemma FirstAnswerMarked(s: Protocol, t: nat, k: nat, answer: Answer)
    requires t in s.workers && s.workers[t] == FirstMark(k, answer) && Holder(s, t) && k < |s.rows|
    ensures var s' := Do(s, Mark(t));
            match answer
            case Done => RowMarked(s, s', t, k, Accepted, None, FirstRead(k, false))
            case Unclear => RowMarked(s, s', t, k, Uncertain, None, FirstRead(k, true))
            case Refused => RowMarked(s, s', t, k, MutationFailed, None, Over)
  {}

  /** The first read: without one nobody knows; one that shows the effect verifies it; one that
      does not leads to one more send. */
  lemma FirstReadJudged(s: Protocol, t: nat, k: nat, unclear: bool, read: Option<Fresh>)
    requires t in s.workers && s.workers[t] == FirstJudge(k, unclear, read) && Holder(s, t) && k < |s.rows|
    ensures var s' := Do(s, Mark(t));
            match read
            case None => RowMarked(s, s', t, k, Uncertain, None, Over)
            case Some(seen) =>
              if HasEffect(s.rows[k].kind, s.rows[k].baseline, seen) then RowMarked(s, s', t, k, Verified, Some(seen), Ready)
              else RowMarked(s, s', t, k, if unclear then Uncertain else MutationFailed, None, SecondSend(k))
  {}

  /** The second read decides, and without the effect the worker gives up. */
  lemma SecondReadJudged(s: Protocol, t: nat, k: nat, read: Option<Fresh>)
    requires t in s.workers && s.workers[t] == SecondJudge(k, read) && Holder(s, t) && k < |s.rows|
    ensures var s' := Do(s, Mark(t));
            match read
            case None => RowMarked(s, s', t, k, Uncertain, None, Over)
            case Some(seen) =>
              if HasEffect(s.rows[k].kind, s.rows[k].baseline, seen) then RowMarked(s, s', t, k, Verified, Some(seen), Ready)
              else s' == s.(workers := s.workers[t := Over])
  {}

  /** A worker without the present claim marks nothing. */
  lemma LateMarkRefused(s: Protocol, t: nat)
    requires !Holder(s, t)
    ensures Do(s, Mark(t)).rows == s.rows
  {}
}
