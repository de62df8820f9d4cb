/**
 * `wait_for_batch_completion` of client/client.py as a function over a finite
 * script of rounds, each answering one batch status request.
 */
module Batches {
  import opened Wrappers
  import opened Failures
  import opened Backoff
  import opened Breaker
  import opened Events
  import opened JobOps
  import opened Orchestrator

  /** A job is finished once the status reported for it is completed or error. */
  predicate Terminal(statuses: map<string, string>, id: string)
  {
    id in statuses && (statuses[id] == Completed || statuses[id] == ErrorStatus)
  }

  /** The ids still outstanding after one round: the job list's copy with every finished id removed. */
  function Unresolved(ids: seq<string>, statuses: map<string, string>): (r: seq<string>)
    ensures |r| <= |ids|
    decreases |ids|
  {
    if ids == [] then []
    else
      var r0 := Unresolved(ids[..|ids| - 1], statuses);
      var id := ids[|ids| - 1];
      if Terminal(statuses, id) then r0 else r0 + [id]
  }

  /** An id stays outstanding exactly when it was and did not finish. */
  lemma {:induction false} UnresolvedMembers(ids: seq<string>, statuses: map<string, string>)
    ensures forall id :: id in Unresolved(ids, statuses) <==> id in ids && !Terminal(statuses, id)
    decreases |ids|
  {
    if ids != [] {
      var init, id := ids[..|ids| - 1], ids[|ids| - 1];
      UnresolvedMembers(init, statuses);
      SplitLast(ids);
      assert forall x :: x in ids <==> x in init || x == id;
    }
  }

  /** When every id has finished, none stays outstanding. */
  lemma {:induction false} UnresolvedNone(ids: seq<string>, statuses: map<string, string>)
    requires forall id :: id in ids ==> Terminal(statuses, id)
    ensures Unresolved(ids, statuses) == []
    decreases |ids|
  {
    if ids != [] {
      assert ids[|ids| - 1] in ids;
      assert forall id :: id in ids[..|ids| - 1] ==> id in ids;
      UnresolvedNone(ids[..|ids| - 1], statuses);
    }
  }

  /** The final statuses after one round: every finished id is recorded with the status reported for it. */
  function Resolve(ids: seq<string>, statuses: map<string, string>, final: map<string, string>): map<string, string>
    decreases |ids|
  {
    if ids == [] then final
    else
      var r0 := Resolve(ids[..|ids| - 1], statuses, final);
      var id := ids[|ids| - 1];
      if Terminal(statuses, id) then r0[id := statuses[id]] else r0
  }

  /** Exactly the finished ids are added to the final statuses. */
  lemma {:induction false} ResolveKeys(ids: seq<string>, statuses: map<string, string>, final: map<string, string>)
    ensures Resolve(ids, statuses, final).Keys == final.Keys + (set id | id in ids && Terminal(statuses, id))
    decreases |ids|
  {
    if ids != [] {
      var init, id := ids[..|ids| - 1], ids[|ids| - 1];
      ResolveKeys(init, statuses, final);
      SplitLast(ids);
      assert forall x :: x in ids <==> x in init || x == id;
    }
  }

  /** Each finished id is recorded with its reported status; every other entry stays. */
  lemma {:induction false} ResolveValues(ids: seq<string>, statuses: map<string, string>, final: map<string, string>)
    ensures var r := Resolve(ids, statuses, final);
      && (forall id :: id in ids && Terminal(statuses, id) ==> id in r && r[id] == statuses[id])
      && (forall id :: id in final && !(id in ids && Terminal(statuses, id)) ==> id in r && r[id] == final[id])
    decreases |ids|
  {
    if ids != [] {
      var init, id := ids[..|ids| - 1], ids[|ids| - 1];
      ResolveValues(init, statuses, final);
      SplitLast(ids);
      assert forall x :: x in ids <==> x in init || x == id;
    }
  }

  /** The ids named in the timeout event: those of the list not yet in the final statuses. */
  function NotSettled(ids: seq<string>, final: map<string, string>): (r: seq<string>)
    ensures |r| <= |ids|
    ensures forall id :: id in r <==> id in ids && id !in final
  {
    if ids == [] then []
    else if ids[0] in final then NotSettled(ids[1..], final)
    else [ids[0]] + NotSettled(ids[1..], final)
  }

  /** One round of the batch loop: the replies to its status requests, one per outstanding id, and a draw. */
  datatype Round = Round(replies: seq<Outcome>, draw: Draw)

  /** The job list (which the loop empties as jobs finish), the final statuses, the breaker and the clock. */
  datatype BatchState = BatchState(breaker: BreakerState, now: real, outstanding: seq<string>, final: map<string, string>)

  datatype BatchEnd = AllResolved(statuses: map<string, string>) | BatchFailed(error: Failure) | BatchScriptEnded

  datatype BatchRun = BatchRun(end: BatchEnd, state: BatchState, events: seq<Event>, sent: seq<Request>)

  function BatchStart(s: BreakerState, now: real, ids: seq<string>): BatchState
  {
    BatchState(s, now, ids, map[])
  }

  function BatchTimeoutEvent(start: real, s: BatchState): Event
  {
    var remaining := NotSettled(s.outstanding, s.final);
    Event(Timeout, Many(remaining), Progress(s.now - start, |s.final.Keys|, |remaining|))
  }

  /** No outstanding id has a final status yet, and every final status is completed or error. */
  predicate BatchInv(s: BatchState)
  {
    && (forall id :: id in s.outstanding ==> id !in s.final)
    && (forall id :: id in s.final ==> s.final[id] == Completed || s.final[id] == ErrorStatus)
  }

  /** The ids the batch is still about: the outstanding ones and the settled ones. */
  function Tracked(s: BatchState): set<string>
  {
    (set id | id in s.outstanding) + s.final.Keys
  }

  /** What a round keeps: the tracked ids, the settled statuses, and a list that does not grow. */
  predicate Keeps(s: BatchState, t: BatchState)
  {
    && Tracked(t) == Tracked(s)
    && |t.outstanding| <= |s.outstanding|
    && (forall id :: id in s.final ==> id in t.final && t.final[id] == s.final[id])
  }

  lemma KeepsTrans(s: BatchState, t: BatchState, u: BatchState)
    requires Keeps(s, t) && Keeps(t, u)
    ensures Keeps(s, u)
  {
  }

  /** The inner `for` loop: settle every finished id of the list and take it out. */
  function Settle(s: BatchState, statuses: map<string, string>): (t: BatchState)
    requires BatchInv(s)
    ensures Keeps(s, t) && BatchInv(t)
    ensures t.breaker == s.breaker && t.now == s.now
    ensures forall id :: id in t.outstanding <==> id in s.outstanding && !Terminal(statuses, id)
    ensures forall id :: id in s.outstanding && Terminal(statuses, id) ==> id in t.final && t.final[id] == statuses[id]
  {
    var t := BatchState(s.breaker, s.now, Unresolved(s.outstanding, statuses), Resolve(s.outstanding, statuses, s.final));
    UnresolvedMembers(s.outstanding, statuses);
    ResolveKeys(s.outstanding, statuses, s.final);
    ResolveValues(s.outstanding, statuses, s.final);
    assert Tracked(t) == Tracked(s) by {
      forall id | id in Tracked(s) ensures id in Tracked(t) {
        if id in s.outstanding && !Terminal(statuses, id) {
          assert id in t.outstanding;
        }
      }
    }
    t
  }

  /** The events of `get_batch_status` contain no `TIMEOUT`. */
  lemma BatchEventsQuiet(es: seq<Event>)
    requires es != [] && OnlyFailureEvents(es[..|es| - 1]) && es[|es| - 1].kind == BatchOperation
    ensures Count(es, Timeout) == 0
  {
    SplitLast(es);
    CountAbsent(es[..|es| - 1], Timeout);
    CountAppend(es[..|es| - 1], [es[|es| - 1]], Timeout);
    CountOne(es[|es| - 1], Timeout);
  }

  /** One round either leaves the loop running from a new state or ends the run. */
  datatype BatchStep = Next(state: BatchState, events: seq<Event>, sent: seq<Request>) | Halt(run: BatchRun)

  function BatchStateOf(step: BatchStep): BatchState
  {
    if step.Next? then step.state else step.run.state
  }

  function BatchEventsOf(step: BatchStep): seq<Event>
  {
    if step.Next? then step.events else step.run.events
  }

  function BatchSentOf(step: BatchStep): seq<Request>
  {
    if step.Next? then step.sent else step.run.sent
  }

  /** One round after the deadline check: fetch the list's statuses, settle, and sleep if jobs remain. */
  function BatchRoundStep(pc: PollingConfig, bc: BreakerConfig, s: BatchState, r: Round): (step: BatchStep)
    requires Inv(bc, s.breaker) && BatchInv(s) && |r.replies| == |s.outstanding|
    ensures Inv(bc, BatchStateOf(step).breaker)
    ensures Keeps(s, BatchStateOf(step)) && BatchInv(BatchStateOf(step))
    ensures Sane(pc) ==> BatchStateOf(step).now >= s.now
    ensures Count(BatchEventsOf(step), Timeout) == 0
    ensures step.Halt? ==> step.run.end == BatchFailed(NegativeSleep)
    ensures Sane(pc) ==> step.Next?
    ensures var op, t := GetBatchStatus(bc, s.breaker, s.now, s.outstanding, r.replies), BatchStateOf(step);
      && BatchEventsOf(step) == op.events && BatchSentOf(step) == op.sent && t.breaker == op.breaker
      && t.outstanding == Unresolved(s.outstanding, op.result.value)
      && (forall id :: id in t.outstanding <==> id in s.outstanding && !Terminal(op.result.value, id))
      && (forall id :: id in s.outstanding && Terminal(op.result.value, id) ==>
            id in t.final && t.final[id] == op.result.value[id])
      && (forall id :: id in s.final ==> id in t.final && t.final[id] == s.final[id])
      && (t.outstanding == [] ==> step.Next? && t.now == s.now)
      && (t.outstanding != [] ==>
            var next := NextInterval(pc, pc.initialInterval, r.draw);
            && (next < 0.0 ==> step.Halt? && t.now == s.now)
            && (0.0 <= next ==> step.Next? && t.now == s.now + next))
  {
    var op := GetBatchStatus(bc, s.breaker, s.now, s.outstanding, r.replies);
    BatchEventsQuiet(op.events);
    var s1 := Settle(s.(breaker := op.breaker), op.result.value);
    if s1.outstanding == [] then Next(s1, op.events, op.sent)
    else
      var next := NextInterval(pc, pc.initialInterval, r.draw);
      NextIntervalNonNegative(pc, pc.initialInterval, r.draw);
      if next < 0.0 then Halt(BatchRun(BatchFailed(NegativeSleep), s1, op.events, op.sent))
      else Next(s1.(now := s.now + next), op.events, op.sent)
  }

  function BatchThen(ev: seq<Event>, sent: seq<Request>, rest: BatchRun): BatchRun
  {
    BatchRun(rest.end, rest.state, ev + rest.events, sent + rest.sent)
  }

  lemma BatchThenThen(ev: seq<Event>, sent: seq<Request>, ev2: seq<Event>, sent2: seq<Request>, rest: BatchRun)
    ensures BatchThen(ev, sent, BatchThen(ev2, sent2, rest)) == BatchThen(ev + ev2, sent + sent2, rest)
  {
    AppendAssoc(ev, ev2, rest.events);
    AppendAssoc(sent, sent2, rest.sent);
  }

  /** One iteration of the batch loop: its exit test, the deadline check, the end of the script or one round. */
  function BatchWaitRound(pc: PollingConfig, bc: BreakerConfig, start: real, s: BatchState, rounds: seq<Round>): (step: BatchStep)
    requires Inv(bc, s.breaker) && BatchInv(s)
    ensures Inv(bc, BatchStateOf(step).breaker) && BatchInv(BatchStateOf(step))
    ensures step.Next? ==> rounds != []
  {
    if s.outstanding == [] then Halt(BatchRun(AllResolved(s.final), s, [], []))
    else if s.now - start > pc.timeout then Halt(BatchRun(BatchFailed(Deadline), s, [BatchTimeoutEvent(start, s)], []))
    else if rounds == [] || |rounds[0].replies| != |s.outstanding| then Halt(BatchRun(BatchScriptEnded, s, [], []))
    else BatchRoundStep(pc, bc, s, rounds[0])
  }

  /** The run over `rounds[i..]` is one iteration followed, if it continues, by the run over the rest. */
  lemma BatchWaitNext(pc: PollingConfig, bc: BreakerConfig, start: real, s: BatchState, rounds: seq<Round>, i: nat)
    requires Inv(bc, s.breaker) && BatchInv(s) && i <= |rounds|
    ensures var step := BatchWaitRound(pc, bc, start, s, rounds[i..]);
      BatchWait(pc, bc, start, s, rounds[i..])
        == if step.Halt? then step.run else BatchThen(step.events, step.sent, BatchWait(pc, bc, start, step.state, rounds[i + 1..]))
  {
    if i < |rounds| {
      assert rounds[i..][1..] == rounds[i + 1..];
    }
  }

  /** The ids left by the inner loop over the first `j + 1` ids of its copy: those left by the first `j`, and maybe one more. */
  lemma UnresolvedNext(ids: seq<string>, statuses: map<string, string>, j: nat)
    requires j < |ids|
    ensures Unresolved(ids[..j + 1], statuses)
      == Unresolved(ids[..j], statuses) + (if Terminal(statuses, ids[j]) then [] else [ids[j]])
  {
    assert ids[..j + 1][..j] == ids[..j];
  }

  /** The statuses recorded by the inner loop over the first `j + 1` ids: those of the first `j`, and maybe one more. */
  lemma ResolveNext(ids: seq<string>, statuses: map<string, string>, final: map<string, string>, j: nat)
    requires j < |ids|
    ensures Resolve(ids[..j + 1], statuses, final)
      == var r := Resolve(ids[..j], statuses, final); if Terminal(statuses, ids[j]) then r[ids[j] := statuses[ids[j]]] else r
  {
    assert ids[..j + 1][..j] == ids[..j];
  }

  /**
   * `wait_for_batch_completion(ids)` from state `s`. While jobs remain it
   * checks the deadline, fetches every remaining status in one batch, settles
   * the finished jobs, and sleeps for a jittered initial interval if any remain.
   * A round whose script does not answer every outstanding id ends the run like
   * an exhausted script.
   */
  function BatchWait(pc: PollingConfig, bc: BreakerConfig, start: real, s: BatchState, rounds: seq<Round>): (run: BatchRun)
    requires Inv(bc, s.breaker) && BatchInv(s)
    ensures Inv(bc, run.state.breaker)
    decreases |rounds|
  {
    if s.outstanding == [] then
      BatchRun(AllResolved(s.final), s, [], [])
    else if s.now - start > pc.timeout then
      BatchRun(BatchFailed(Deadline), s, [BatchTimeoutEvent(start, s)], [])
    else if rounds == [] || |rounds[0].replies| != |s.outstanding| then
      BatchRun(BatchScriptEnded, s, [], [])
    else
      match BatchRoundStep(pc, bc, s, rounds[0])
      case Halt(run) => run
      case Next(s', ev, sent) => BatchThen(ev, sent, BatchWait(pc, bc, start, s', rounds[1..]))
  }

  /**
   * A round before the deadline whose answer makes every outstanding id final
   * ends the run: it returns the final statuses, which record each of those
   * ids with its reported status, after the round's own events.
   */
  lemma BatchFinalRoundReturns(pc: PollingConfig, bc: BreakerConfig, start: real, s: BatchState, rounds: seq<Round>)
    requires Inv(bc, s.breaker) && BatchInv(s) && s.outstanding != [] && s.now - start <= pc.timeout
    requires rounds != [] && |rounds[0].replies| == |s.outstanding|
    requires var op := GetBatchStatus(bc, s.breaker, s.now, s.outstanding, rounds[0].replies);
      forall id :: id in s.outstanding ==> Terminal(op.result.value, id)
    ensures var op := GetBatchStatus(bc, s.breaker, s.now, s.outstanding, rounds[0].replies);
      var run := BatchWait(pc, bc, start, s, rounds);
      && run.end.AllResolved? && run.state.outstanding == [] && run.events == op.events
      && (forall id :: id in s.outstanding ==> id in run.end.statuses && run.end.statuses[id] == op.result.value[id])
      && (forall id :: id in s.final ==> id in run.end.statuses && run.end.statuses[id] == s.final[id])
  {
    var step := BatchRoundStep(pc, bc, s, rounds[0]);
    var op := GetBatchStatus(bc, s.breaker, s.now, s.outstanding, rounds[0].replies);
    UnresolvedNone(s.outstanding, op.result.value);
    assert step.Next?;
    assert BatchWait(pc, bc, start, step.state, rounds[1..]) == BatchRun(AllResolved(step.state.final), step.state, [], []);
    assert step.events + [] == step.events;
  }

  /**
   * A batch run keeps the invariant, never forgets or invents an id, never lets
   * the list grow and never overwrites a settled status; when it returns, the
   * list is empty and the returned map is the final statuses.
   */
  lemma {:induction false} BatchWaitKeeps(pc: PollingConfig, bc: BreakerConfig, start: real, s: BatchState, rounds: seq<Round>)
    requires Inv(bc, s.breaker) && BatchInv(s)
    ensures var run := BatchWait(pc, bc, start, s, rounds);
      && Keeps(s, run.state) && BatchInv(run.state)
      && (run.end.AllResolved? ==> run.state.outstanding == [] && run.end.statuses == run.state.final)
    decreases |rounds|
  {
    if s.outstanding != [] && s.now - start <= pc.timeout && rounds != [] && |rounds[0].replies| == |s.outstanding| {
      var step := BatchRoundStep(pc, bc, s, rounds[0]);
      if step.Next? {
        var rest := BatchWait(pc, bc, start, step.state, rounds[1..]);
        assert BatchWait(pc, bc, start, s, rounds) == BatchThen(step.events, step.sent, rest);
        BatchWaitKeeps(pc, bc, start, step.state, rounds[1..]);
        KeepsTrans(s, step.state, rest.state);
      }
    }
  }

  /** A batch that returns has settled every id it was given, each as completed or error. */
  lemma BatchResolvedAll(pc: PollingConfig, bc: BreakerConfig, start: real, s: BreakerState, ids: seq<string>, rounds: seq<Round>)
    requires Inv(bc, s)
    ensures var run := BatchWait(pc, bc, start, BatchStart(s, start, ids), rounds);
      run.end.AllResolved? ==>
        && run.end.statuses.Keys == (set id | id in ids)
        && forall id :: id in run.end.statuses ==> run.end.statuses[id] == Completed || run.end.statuses[id] == ErrorStatus
  {
    BatchWaitKeeps(pc, bc, start, BatchStart(s, start, ids), rounds);
  }

  lemma {:induction false} NotSettledAll(ids: seq<string>, final: map<string, string>)
    requires forall id :: id in ids ==> id !in final
    ensures NotSettled(ids, final) == ids
    decreases |ids|
  {
    if ids != [] {
      NotSettledAll(ids[1..], final);
    }
  }

  /** A batch run reports `TIMEOUT` exactly once when the deadline ends it, and never otherwise. */
  lemma {:induction false} BatchTimeoutCount(pc: PollingConfig, bc: BreakerConfig, start: real, s: BatchState, rounds: seq<Round>)
    requires Inv(bc, s.breaker) && BatchInv(s)
    ensures var run := BatchWait(pc, bc, start, s, rounds);
      Count(run.events, Timeout) == (if run.end == BatchFailed(Deadline) then 1 else 0)
    decreases |rounds|
  {
    if s.outstanding == [] {
    } else if s.now - start > pc.timeout {
      CountOne(BatchTimeoutEvent(start, s), Timeout);
    } else if rounds != [] && |rounds[0].replies| == |s.outstanding| {
      var step := BatchRoundStep(pc, bc, s, rounds[0]);
      if step.Next? {
        var rest := BatchWait(pc, bc, start, step.state, rounds[1..]);
        BatchTimeoutCount(pc, bc, start, step.state, rounds[1..]);
        CountAppend(step.events, rest.events, Timeout);
      }
    }
  }

  /**
   * A batch run that the deadline ends reports `TIMEOUT` last, naming exactly
   * the ids left in the list: the filter against the final statuses removes
   * nothing, since a job leaves the list in the round it is settled.
   */
  lemma {:induction false} BatchTimeoutLast(pc: PollingConfig, bc: BreakerConfig, start: real, s: BatchState, rounds: seq<Round>)
    requires Inv(bc, s.breaker) && BatchInv(s)
    ensures var run := BatchWait(pc, bc, start, s, rounds);
      run.end == BatchFailed(Deadline) ==>
        run.events != [] && run.events[|run.events| - 1] == BatchTimeoutEvent(start, run.state)
        && BatchTimeoutEvent(start, run.state).job == Many(run.state.outstanding)
    decreases |rounds|
  {
    if s.outstanding == [] {
    } else if s.now - start > pc.timeout {
      NotSettledAll(s.outstanding, s.final);
    } else if rounds != [] && |rounds[0].replies| == |s.outstanding| {
      var step := BatchRoundStep(pc, bc, s, rounds[0]);
      if step.Next? {
        var rest := BatchWait(pc, bc, start, step.state, rounds[1..]);
        BatchTimeoutLast(pc, bc, start, step.state, rounds[1..]);
        if rest.end == BatchFailed(Deadline) {
          LastOfAppend(step.events, rest.events);
        }
      }
    }
  }
}
