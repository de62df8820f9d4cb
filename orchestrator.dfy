/**
 * The completion orchestrator: `wait_for_completion` of client/client.py as a
 * function over a finite script of poll replies. The script is the termination
 * measure; running out of it ends the run with `ScriptEnded`, standing for a
 * loop that is still polling (the source's loop otherwise ends by its
 * deadline, a terminal status, or an error it raises).
 */
module Orchestrator {
  import opened Wrappers
  import opened Failures
  import opened Backoff
  import opened Breaker
  import opened Events
  import opened JobOps

  /** `MAX_RETRIES`: the retry budget of one wait. */
  const MaxRetries := 3

  const Pending := "pending"
  const Completed := "completed"
  const ErrorStatus := "error"

  /** One poll: the reply of its status request and the draw for the interval that follows it. */
  datatype Poll = Poll(reply: Outcome, draw: Draw)

  /** The loop variables of `wait_for_completion`, with the breaker and the clock. */
  datatype WaitState = WaitState(breaker: BreakerState, now: real, interval: real, last: Option<string>, retries: nat)

  datatype WaitEnd = Returned(status: string) | Failed(error: Failure) | ScriptEnded

  datatype WaitRun = WaitRun(end: WaitEnd, state: WaitState, events: seq<Event>, sent: seq<Request>)

  /** The state the loop starts from. */
  function WaitStart(pc: PollingConfig, s: BreakerState, now: real): WaitState
  {
    WaitState(s, now, pc.initialInterval, None, 0)
  }

  /** A step's events and requests, followed by the rest of the run. */
  function Then(ev: seq<Event>, sent: seq<Request>, rest: WaitRun): WaitRun
  {
    WaitRun(rest.end, rest.state, ev + rest.events, sent + rest.sent)
  }

  /** `TIMEOUT`, with the time elapsed since the start. */
  function TimeoutEvent(job: string, start: real, s: WaitState): Event
  {
    Event(Timeout, One(job), Elapsed(s.now - start))
  }

  function ChangedEvent(job: string, s: WaitState, status: string): Event
  {
    Event(StatusChanged, One(job), Transition(s.last, status, s.retries + 1))
  }

  function MinInt(a: int, b: int): int
  {
    if a <= b then a else b
  }

  /**
   * The `STATUS_CHANGED` events of `es` form a chain of real changes: each
   * starts from the status last observed and names a different one; the chain
   * starts at `last` and ends at `final`.
   */
  predicate ChainFrom(es: seq<Event>, last: Option<string>, final: Option<string>)
    decreases |es|
  {
    if es == [] then last == final
    else if es[0].kind == StatusChanged then
      && es[0].detail.Transition? && es[0].detail.previous == last && last != Some(es[0].detail.current)
      && ChainFrom(es[1..], Some(es[0].detail.current), final)
    else ChainFrom(es[1..], last, final)
  }

  lemma {:induction false} ChainAppend(a: seq<Event>, b: seq<Event>, l: Option<string>, m: Option<string>, f: Option<string>)
    requires ChainFrom(a, l, m) && ChainFrom(b, m, f)
    ensures ChainFrom(a + b, l, f)
    decreases |a|
  {
    if a == [] {
      assert a + b == b;
    } else {
      assert (a + b)[1..] == a[1..] + b;
      if a[0].kind == StatusChanged {
        ChainAppend(a[1..], b, Some(a[0].detail.current), m, f);
      } else {
        ChainAppend(a[1..], b, l, m, f);
      }
    }
  }

  lemma {:induction false} ChainQuiet(es: seq<Event>, l: Option<string>)
    requires Without(es, StatusChanged)
    ensures ChainFrom(es, l, l)
    decreases |es|
  {
    if es != [] {
      assert Without(es[1..], StatusChanged);
      ChainQuiet(es[1..], l);
    }
  }

  /** One poll either leaves the loop running from a new state or ends the run. */
  datatype Step = Continue(state: WaitState, events: seq<Event>, sent: seq<Request>) | Stop(run: WaitRun)

  function StateOf(step: Step): WaitState
  {
    if step.Continue? then step.state else step.run.state
  }

  function EventsOf(step: Step): seq<Event>
  {
    if step.Continue? then step.events else step.run.events
  }

  function SentOf(step: Step): seq<Request>
  {
    if step.Continue? then step.sent else step.run.sent
  }

  /** The retry count moves by one per `RETRY_ATTEMPTED`, and passes the budget only when the run aborts. */
  predicate RetryAccount(s: WaitState, t: WaitState, es: seq<Event>, aborted: bool)
  {
    && s.retries <= t.retries <= MaxRetries + 1
    && Count(es, RetryAttempted) == MinInt(t.retries, MaxRetries) - s.retries
    && (t.retries == MaxRetries + 1 <==> aborted)
  }

  predicate ExhaustedRun(run: WaitRun)
  {
    run.end.Failed? && run.end.error.MaxRetriesExceeded?
  }

  /** The facts every step keeps, used by the lemmas about whole runs. */
  predicate StepFacts(pc: PollingConfig, s: WaitState, step: Step)
  {
    var t, es := StateOf(step), EventsOf(step);
    && Without(es, Timeout)
    && t.now >= s.now
    && ChainFrom(es, s.last, t.last)
    && (s.retries <= MaxRetries ==> RetryAccount(s, t, es, step.Stop? && ExhaustedRun(step.run)))
    && (Sane(pc) && 0.0 <= s.interval ==> 0.0 <= t.interval)
    && (step.Continue? ==> Without(es, JobCompleted) && (t.retries <= MaxRetries || s.retries > MaxRetries))
    && (step.Stop? ==>
          && step.run.end != Failed(Deadline) && !step.run.end.ScriptEnded?
          && (Sane(pc) && 0.0 <= s.interval ==> step.run.end != Failed(NegativeSleep))
          && Count(es, JobCompleted) == (if step.run.end.Returned? then 1 else 0)
          && (step.run.end.Returned? ==>
                step.run.end.status == Completed && es != [] && es[|es| - 1].kind == JobCompleted))
  }

  /** The events `get_status` itself dispatches. */
  predicate PollEvents(es: seq<Event>)
  {
    Without(es, JobCompleted) && Without(es, Timeout) && Without(es, RetryAttempted) && Without(es, StatusChanged)
  }

  lemma FailureEventsArePollEvents(es: seq<Event>)
    requires OnlyFailureEvents(es)
    ensures PollEvents(es)
  {
  }

  /** Appending events that report no change of status keeps the chain where it ended. */
  lemma QuietTail(ev: seq<Event>, tail: seq<Event>, l: Option<string>, m: Option<string>)
    requires ChainFrom(ev, l, m) && Without(tail, StatusChanged)
    ensures ChainFrom(ev + tail, l, m)
  {
    ChainQuiet(tail, m);
    ChainAppend(ev, tail, l, m, m);
  }

  /** Ending a quiet run of events with a tail that changes no status and retries nothing. */
  lemma QuietStop(ev: seq<Event>, tail: seq<Event>, l: Option<string>, m: Option<string>)
    requires ChainFrom(ev, l, m) && Without(ev, JobCompleted) && Without(ev, Timeout) && Without(ev, RetryAttempted)
    requires Without(tail, StatusChanged) && Without(tail, Timeout) && Without(tail, RetryAttempted)
    ensures ChainFrom(ev + tail, l, m) && Without(ev + tail, Timeout)
    ensures Count(ev + tail, RetryAttempted) == 0 && Count(ev + tail, JobCompleted) == Count(tail, JobCompleted)
    ensures Count(ev + tail, StatusChanged) == Count(ev, StatusChanged)
  {
    CountAbsent(tail, StatusChanged);
    CountAppend(ev, tail, StatusChanged);
    QuietTail(ev, tail, l, m);
    CountAbsent(ev + tail, RetryAttempted);
    CountAbsent(ev, JobCompleted);
    CountAppend(ev, tail, JobCompleted);
  }

  /** `JOB_COMPLETED`, dispatched just before the wait returns. */
  function CompletedEvent(job: string): Event
  {
    Event(JobCompleted, One(job), Final(Completed))
  }

  /** `JOB_FAILED`, then the generic handler's `ERROR_OCCURRED` for the error it raises. */
  function FailedEvents(job: string): seq<Event>
  {
    [Event(JobFailed, One(job), Final(ErrorStatus)), ErrorEvent(job, JobErrorStatus)]
  }

  /**
   * The sleep that ends a step which keeps polling: the next interval is grown
   * from the current one with `draw`; a negative one stops the run with the
   * events `failEv`, any other one is slept, advancing the clock by it.
   */
  predicate Slept(pc: PollingConfig, s: WaitState, s2: WaitState, draw: Draw,
                  ev: seq<Event>, failEv: seq<Event>, sent: seq<Request>, step: Step)
  {
    var next := NextInterval(pc, s.interval, draw);
    && (next < 0.0 ==> step == Stop(WaitRun(Failed(NegativeSleep), s2.(interval := next), failEv, sent)))
    && (0.0 <= next ==> step == Continue(s2.(interval := next, now := s.now + next), ev, sent))
  }

  /** A successful poll: report a change of status, then settle on it. */
  function OnStatus(pc: PollingConfig, job: string, s: WaitState, status: string, draw: Draw,
                    before: seq<Event>, sent: seq<Request>): (step: Step)
    requires PollEvents(before)
    ensures StepFacts(pc, s, step)
    ensures StateOf(step).breaker == s.breaker && StateOf(step).retries == s.retries
    ensures StateOf(step).last == Some(status)
    ensures s.last != Some(status) ==>
      |EventsOf(step)| > |before| && EventsOf(step)[|before|] == ChangedEvent(job, s, status)
    ensures Count(EventsOf(step), StatusChanged) == if s.last != Some(status) then 1 else 0
    ensures var ev, s2 := Noted(job, s, status, before), s.(last := Some(status));
      && (status == Completed ==> step == Stop(WaitRun(Returned(Completed), s2, ev + [CompletedEvent(job)], sent)))
      && (status == ErrorStatus ==> step == Stop(WaitRun(Failed(JobErrorStatus), s2, ev + FailedEvents(job), sent)))
      && (status != Completed && status != ErrorStatus ==>
            Slept(pc, s, s2, draw, ev, ev + [ErrorEvent(job, NegativeSleep)], sent, step))
  {
    Settle(pc, job, s, s.(last := Some(status)), draw, Noted(job, s, status, before), sent)
  }

  /** The events of a successful poll so far: those of `get_status`, then `STATUS_CHANGED` if the status is new. */
  function Noted(job: string, s: WaitState, status: string, before: seq<Event>): (ev: seq<Event>)
    requires PollEvents(before)
    ensures Without(ev, JobCompleted) && Without(ev, Timeout) && Without(ev, RetryAttempted)
    ensures ChainFrom(ev, s.last, Some(status))
    ensures ev == before + (if s.last != Some(status) then [ChangedEvent(job, s, status)] else [])
    ensures Count(ev, StatusChanged) == if s.last != Some(status) then 1 else 0
  {
    var note := if s.last != Some(status) then [ChangedEvent(job, s, status)] else [];
    CountAbsent(before, StatusChanged);
    CountAppend(before, note, StatusChanged);
    CountOne(ChangedEvent(job, s, status), StatusChanged);
    ChainQuiet(before, s.last);
    assert ChainFrom(note, s.last, Some(status)) by {
      assert [ChangedEvent(job, s, status)][1..] == [];
    }
    ChainAppend(before, note, s.last, s.last, Some(status));
    before + note
  }

  /** The rest of a successful poll: stop on a terminal status, otherwise grow the interval and sleep. */
  function Settle(pc: PollingConfig, job: string, s: WaitState, s2: WaitState, draw: Draw,
                  ev: seq<Event>, sent: seq<Request>): (step: Step)
    requires s2 == s.(last := s2.last) && s2.last.Some?
    requires Without(ev, JobCompleted) && Without(ev, Timeout) && Without(ev, RetryAttempted)
    requires ChainFrom(ev, s.last, s2.last)
    ensures StepFacts(pc, s, step)
    ensures StateOf(step).breaker == s.breaker && StateOf(step).retries == s.retries
    ensures StateOf(step).last == s2.last
    ensures |ev| <= |EventsOf(step)| && EventsOf(step)[..|ev|] == ev
    ensures Count(EventsOf(step), StatusChanged) == Count(ev, StatusChanged)
    ensures s2.last == Some(Completed) ==> step == Stop(WaitRun(Returned(Completed), s2, ev + [CompletedEvent(job)], sent))
    ensures s2.last == Some(ErrorStatus) ==> step == Stop(WaitRun(Failed(JobErrorStatus), s2, ev + FailedEvents(job), sent))
    ensures s2.last != Some(Completed) && s2.last != Some(ErrorStatus) ==>
      Slept(pc, s, s2, draw, ev, ev + [ErrorEvent(job, NegativeSleep)], sent, step)
  {
    var status := s2.last.value;
    if status == ErrorStatus then
      var tail := FailedEvents(job);
      QuietStop(ev, tail, s.last, s2.last);
      CountAbsent(tail, JobCompleted);
      Stop(WaitRun(Failed(JobErrorStatus), s2, ev + tail, sent))
    else if status == Completed then
      var tail := [CompletedEvent(job)];
      QuietStop(ev, tail, s.last, s2.last);
      CountOne(tail[0], JobCompleted);
      Stop(WaitRun(Returned(status), s2, ev + tail, sent))
    else
      Pause(pc, job, s, s2, draw, ev, sent)
  }

  /** A status that is not terminal: grow the interval and sleep for it. */
  function Pause(pc: PollingConfig, job: string, s: WaitState, s2: WaitState, draw: Draw,
                 ev: seq<Event>, sent: seq<Request>): (step: Step)
    requires s2 == s.(last := s2.last) && s2.last.Some?
    requires Without(ev, JobCompleted) && Without(ev, Timeout) && Without(ev, RetryAttempted)
    requires ChainFrom(ev, s.last, s2.last)
    ensures StepFacts(pc, s, step)
    ensures StateOf(step).breaker == s.breaker && StateOf(step).retries == s.retries
    ensures StateOf(step).last == s2.last
    ensures |ev| <= |EventsOf(step)| && EventsOf(step)[..|ev|] == ev
    ensures Count(EventsOf(step), StatusChanged) == Count(ev, StatusChanged)
    ensures Slept(pc, s, s2, draw, ev, ev + [ErrorEvent(job, NegativeSleep)], sent, step)
  {
    var next := NextInterval(pc, s.interval, draw);
    NextIntervalNonNegative(pc, s.interval, draw);
    CountAbsent(ev, RetryAttempted);
    if next < 0.0 then
      var tail := [ErrorEvent(job, NegativeSleep)];
      QuietStop(ev, tail, s.last, s2.last);
      CountAbsent(tail, JobCompleted);
      Stop(WaitRun(Failed(NegativeSleep), s2.(interval := next), ev + tail, sent))
    else
      Continue(s2.(interval := next, now := s.now + next), ev, sent)
  }

  /** A retryable failure: spend one unit of the budget, report the retry with the old interval, sleep. */
  function OnRetryable(pc: PollingConfig, job: string, s: WaitState, cause: Exc, draw: Draw,
                       before: seq<Event>, sent: seq<Request>): (step: Step)
    requires PollEvents(before)
    ensures StepFacts(pc, s, step)
    ensures StateOf(step).breaker == s.breaker && StateOf(step).retries == s.retries + 1
    ensures StateOf(step).last == s.last
    ensures s.retries + 1 > MaxRetries ==>
      step == Stop(WaitRun(Failed(MaxRetriesExceeded(cause)), s.(retries := s.retries + 1), before, sent))
    ensures s.retries + 1 <= MaxRetries ==>
      var ev := Retried(job, s, before);
      Slept(pc, s, s.(retries := s.retries + 1), draw, ev, ev, sent, step)
  {
    var n := s.retries + 1;
    ChainQuiet(before, s.last);
    CountAbsent(before, RetryAttempted);
    CountAbsent(before, JobCompleted);
    if n > MaxRetries then
      Stop(WaitRun(Failed(MaxRetriesExceeded(cause)), s.(retries := n), before, sent))
    else
      RetryPause(pc, s, s.(retries := n), draw, Retried(job, s, before), sent)
  }

  /** The events of a retryable failure that is within the budget: those of `get_status`, then `RETRY_ATTEMPTED`. */
  function Retried(job: string, s: WaitState, before: seq<Event>): (ev: seq<Event>)
    requires PollEvents(before)
    ensures Without(ev, JobCompleted) && Without(ev, Timeout) && Count(ev, RetryAttempted) == 1
    ensures ChainFrom(ev, s.last, s.last)
    ensures ev == before + [Event(RetryAttempted, One(job), Retry(s.retries + 1, s.interval))]
  {
    var retry := Event(RetryAttempted, One(job), Retry(s.retries + 1, s.interval));
    ChainQuiet(before, s.last);
    CountAbsent(before, RetryAttempted);
    ChainQuiet([retry], s.last);
    ChainAppend(before, [retry], s.last, s.last, s.last);
    CountAppend(before, [retry], RetryAttempted);
    CountOne(retry, RetryAttempted);
    before + [retry]
  }

  /** After a retry is reported: grow the interval and sleep for it. */
  function RetryPause(pc: PollingConfig, s: WaitState, s2: WaitState, draw: Draw,
                      ev: seq<Event>, sent: seq<Request>): (step: Step)
    requires s2 == s.(retries := s.retries + 1) && s2.retries <= MaxRetries
    requires Without(ev, JobCompleted) && Without(ev, Timeout) && Count(ev, RetryAttempted) == 1
    requires ChainFrom(ev, s.last, s.last)
    ensures StepFacts(pc, s, step)
    ensures StateOf(step).breaker == s.breaker && StateOf(step).retries == s2.retries
    ensures StateOf(step).last == s.last
    ensures Slept(pc, s, s2, draw, ev, ev, sent, step)
  {
    CountAbsent(ev, JobCompleted);
    var next := NextInterval(pc, s.interval, draw);
    NextIntervalNonNegative(pc, s.interval, draw);
    if next < 0.0 then
      // raised inside the RetryableError handler: no generic report
      Stop(WaitRun(Failed(NegativeSleep), s2.(interval := next), ev, sent))
    else
      Continue(s2.(interval := next, now := s.now + next), ev, sent)
  }

  /** One iteration of `wait_for_completion` after the deadline check: poll, then dispatch on the outcome. */
  function WaitStep(pc: PollingConfig, bc: BreakerConfig, job: string, s: WaitState, p: Poll): (step: Step)
    requires Inv(bc, s.breaker)
    ensures Inv(bc, StateOf(step).breaker)
    ensures StepFacts(pc, s, step)
  {
    var op := GetStatus(bc, s.breaker, s.now, job, p.reply);
    var s1 := s.(breaker := op.breaker);
    FailureEventsArePollEvents(op.events);
    match op.result
    case Ok(status) => OnStatus(pc, job, s1, status, p.draw, op.events, op.sent)
    case Err(f) =>
      if f.Retryable? then OnRetryable(pc, job, s1, f.cause, p.draw, op.events, op.sent)
      else OnFatal(pc, job, s1, f, op.events, op.sent)
  }

  /** Any other failure of a poll: the generic handler reports it and the wait raises it. */
  function OnFatal(pc: PollingConfig, job: string, s: WaitState, f: Failure,
                   before: seq<Event>, sent: seq<Request>): (step: Step)
    requires PollEvents(before) && (f.Raised? || f == BreakerRejected)
    ensures StepFacts(pc, s, step) && StateOf(step) == s
    ensures step.Stop? && step.run.end == Failed(f) && EventsOf(step) == before + [ErrorEvent(job, f)]
  {
    var es := before + [ErrorEvent(job, f)];
    assert PollEvents(es);
    ChainQuiet(es, s.last);
    CountAbsent(es, RetryAttempted);
    CountAbsent(es, JobCompleted);
    Stop(WaitRun(Failed(f), s, es, sent))
  }

  /**
   * A poll whose status request succeeds: "completed" returns after
   * `JOB_COMPLETED`, "error" fails after `JOB_FAILED` and its `ERROR_OCCURRED`,
   * and any other status grows the interval and sleeps for it.
   */
  lemma WaitStepStatus(pc: PollingConfig, bc: BreakerConfig, job: string, s: WaitState, p: Poll)
    requires Inv(bc, s.breaker)
    ensures var op, step := GetStatus(bc, s.breaker, s.now, job, p.reply), WaitStep(pc, bc, job, s, p);
      && StateOf(step).breaker == op.breaker && |op.events| <= |EventsOf(step)| && EventsOf(step)[..|op.events|] == op.events
      && (op.result == Ok(Completed) ==>
            step.Stop? && step.run.end == Returned(Completed)
            && step.run.events != [] && step.run.events[|step.run.events| - 1] == CompletedEvent(job))
      && (op.result == Ok(ErrorStatus) ==>
            step.Stop? && step.run.end == Failed(JobErrorStatus) && |step.run.events| >= 2
            && step.run.events[|step.run.events| - 2..] == FailedEvents(job))
      && (op.result.Ok? && op.result.value != Completed && op.result.value != ErrorStatus ==>
            StateOf(step).interval == NextInterval(pc, s.interval, p.draw)
            && StateOf(step).last == Some(op.result.value)
            && (step.Continue? <==> 0.0 <= StateOf(step).interval)
            && (step.Continue? ==> step.state.now == s.now + step.state.interval)
            && (step.Stop? ==> step.run.end == Failed(NegativeSleep)))
  {
    var op := GetStatus(bc, s.breaker, s.now, job, p.reply);
    FailureEventsArePollEvents(op.events);
  }

  /**
   * A poll whose status request fails: a retryable failure spends one unit of
   * the budget and, past it, stops with "max retries" and no further event;
   * within it, it grows the interval and sleeps. Any other failure is reported
   * once more and ends the wait.
   */
  lemma WaitStepFailure(pc: PollingConfig, bc: BreakerConfig, job: string, s: WaitState, p: Poll)
    requires Inv(bc, s.breaker)
    ensures var op, step := GetStatus(bc, s.breaker, s.now, job, p.reply), WaitStep(pc, bc, job, s, p);
      && (op.result.Err? && op.result.error.Retryable? ==>
            && StateOf(step).retries == s.retries + 1 && StateOf(step).last == s.last
            && (s.retries >= MaxRetries ==>
                  step.Stop? && step.run.end == Failed(MaxRetriesExceeded(op.result.error.cause)) && step.run.events == op.events)
            && (s.retries < MaxRetries ==>
                  StateOf(step).interval == NextInterval(pc, s.interval, p.draw)
                  && (step.Continue? <==> 0.0 <= StateOf(step).interval)
                  && (step.Continue? ==> step.state.now == s.now + step.state.interval)
                  && (step.Stop? ==> step.run.end == Failed(NegativeSleep))))
      && (op.result.Err? && !op.result.error.Retryable? ==>
            step.Stop? && step.run.end == Failed(op.result.error) && step.run.events == op.events + [ErrorEvent(job, op.result.error)])
  {
    var op := GetStatus(bc, s.breaker, s.now, job, p.reply);
    FailureEventsArePollEvents(op.events);
  }

  /** A step's events and requests, then a run, is one run. */
  lemma ThenThen(ev: seq<Event>, sent: seq<Request>, ev2: seq<Event>, sent2: seq<Request>, rest: WaitRun)
    ensures Then(ev, sent, Then(ev2, sent2, rest)) == Then(ev + ev2, sent + sent2, rest)
  {
    AppendAssoc(ev, ev2, rest.events);
    AppendAssoc(sent, sent2, rest.sent);
  }

  /** One iteration of `wait_for_completion`: the deadline check, then the end of the script or one poll. */
  function WaitRound(pc: PollingConfig, bc: BreakerConfig, job: string, start: real, s: WaitState, polls: seq<Poll>): (step: Step)
    requires Inv(bc, s.breaker)
    ensures Inv(bc, StateOf(step).breaker)
    ensures step.Continue? ==> polls != []
  {
    if s.now - start > pc.timeout then Stop(WaitRun(Failed(Deadline), s, [TimeoutEvent(job, start, s)], []))
    else if polls == [] then Stop(WaitRun(ScriptEnded, s, [], []))
    else WaitStep(pc, bc, job, s, polls[0])
  }

  /** The run over `polls[i..]` is one round followed, if the round continues, by the run over the rest. */
  lemma WaitNext(pc: PollingConfig, bc: BreakerConfig, job: string, start: real, s: WaitState, polls: seq<Poll>, i: nat)
    requires Inv(bc, s.breaker) && i <= |polls|
    ensures var step := WaitRound(pc, bc, job, start, s, polls[i..]);
      Wait(pc, bc, job, start, s, polls[i..])
        == if step.Stop? then step.run else Then(step.events, step.sent, Wait(pc, bc, job, start, step.state, polls[i + 1..]))
  {
    if i < |polls| {
      assert polls[i..][1..] == polls[i + 1..];
    }
  }

  /**
   * `wait_for_completion(job)` from state `s`, with the loop started at `start`.
   * The deadline is checked before every poll; a non-terminal status grows the
   * interval and sleeps; a retryable failure spends one unit of the budget,
   * which a later success does not restore.
   */
  function Wait(pc: PollingConfig, bc: BreakerConfig, job: string, start: real, s: WaitState, polls: seq<Poll>): (run: WaitRun)
    requires Inv(bc, s.breaker)
    ensures Inv(bc, run.state.breaker)
    decreases |polls|
  {
    if s.now - start > pc.timeout then
      WaitRun(Failed(Deadline), s, [TimeoutEvent(job, start, s)], [])
    else if polls == [] then
      WaitRun(ScriptEnded, s, [], [])
    else
      match WaitStep(pc, bc, job, s, polls[0])
      case Stop(run) => run
      case Continue(s', ev, sent) => Then(ev, sent, Wait(pc, bc, job, start, s', polls[1..]))
  }

  /** What a run reports about `JOB_COMPLETED`: once, last and with the completed status if it returns, and never otherwise. */
  predicate CompletedFacts(run: WaitRun)
  {
    && Count(run.events, JobCompleted) == (if run.end.Returned? then 1 else 0)
    && (run.end.Returned? ==>
          run.end.status == Completed && run.events != [] && run.events[|run.events| - 1].kind == JobCompleted)
  }

  /** Events without `JOB_COMPLETED` in front of a run keep its `JOB_COMPLETED` facts. */
  lemma CompletedThen(ev: seq<Event>, sent: seq<Request>, rest: WaitRun)
    requires Without(ev, JobCompleted) && CompletedFacts(rest)
    ensures CompletedFacts(Then(ev, sent, rest))
  {
    CountAbsent(ev, JobCompleted);
    CountAppend(ev, rest.events, JobCompleted);
    if rest.end.Returned? {
      LastOfAppend(ev, rest.events);
    }
  }

  /**
   * A run reports `JOB_COMPLETED` exactly when it returns, and then as its last
   * event and with the completed status.
   */
  lemma {:induction false} WaitCompletedEvents(pc: PollingConfig, bc: BreakerConfig, job: string, start: real, s: WaitState, polls: seq<Poll>)
    requires Inv(bc, s.breaker)
    ensures CompletedFacts(Wait(pc, bc, job, start, s, polls))
    decreases |polls|
  {
    if s.now - start > pc.timeout {
      CountOne(TimeoutEvent(job, start, s), JobCompleted);
    } else if polls != [] {
      var step := WaitStep(pc, bc, job, s, polls[0]);
      assert StepFacts(pc, s, step);
      if step.Continue? {
        var rest := Wait(pc, bc, job, start, step.state, polls[1..]);
        WaitCompletedEvents(pc, bc, job, start, step.state, polls[1..]);
        CompletedThen(step.events, step.sent, rest);
      }
    }
  }

  /** What a run reports about `TIMEOUT`: once, last, if the deadline ends it, and never otherwise. */
  predicate TimeoutFacts(job: string, start: real, run: WaitRun)
  {
    && Count(run.events, Timeout) == (if run.end == Failed(Deadline) then 1 else 0)
    && (run.end == Failed(Deadline) ==> run.events != [] && run.events[|run.events| - 1] == TimeoutEvent(job, start, run.state))
  }

  /** Events without `TIMEOUT` in front of a run keep its `TIMEOUT` facts. */
  lemma TimeoutThen(job: string, start: real, ev: seq<Event>, sent: seq<Request>, rest: WaitRun)
    requires Without(ev, Timeout) && TimeoutFacts(job, start, rest)
    ensures TimeoutFacts(job, start, Then(ev, sent, rest))
  {
    CountAbsent(ev, Timeout);
    CountAppend(ev, rest.events, Timeout);
    if rest.end == Failed(Deadline) {
      LastOfAppend(ev, rest.events);
    }
  }

  /** A run reports `TIMEOUT` exactly when the deadline ends it, and then as its last event. */
  lemma {:induction false} WaitTimeoutEvents(pc: PollingConfig, bc: BreakerConfig, job: string, start: real, s: WaitState, polls: seq<Poll>)
    requires Inv(bc, s.breaker)
    ensures TimeoutFacts(job, start, Wait(pc, bc, job, start, s, polls))
    decreases |polls|
  {
    var run := Wait(pc, bc, job, start, s, polls);
    if s.now - start > pc.timeout {
      assert run.events == [TimeoutEvent(job, start, s)];
      CountOne(TimeoutEvent(job, start, s), Timeout);
    } else if polls != [] {
      var step := WaitStep(pc, bc, job, s, polls[0]);
      assert StepFacts(pc, s, step);
      if step.Stop? {
        assert run == step.run;
        CountAbsent(step.run.events, Timeout);
      } else {
        var rest := Wait(pc, bc, job, start, step.state, polls[1..]);
        assert run == Then(step.events, step.sent, rest);
        WaitTimeoutEvents(pc, bc, job, start, step.state, polls[1..]);
        TimeoutThen(job, start, step.events, step.sent, rest);
      }
    }
  }

  /**
   * The retry budget: from a count within it, a run reports at most the rest of
   * the budget as `RETRY_ATTEMPTED`, never lowers the count, and aborts with
   * "max retries" exactly when the count passes the budget, after reporting all of it.
   */
  lemma {:induction false} WaitRetryBudget(pc: PollingConfig, bc: BreakerConfig, job: string, start: real, s: WaitState, polls: seq<Poll>)
    requires Inv(bc, s.breaker) && s.retries <= MaxRetries
    ensures var run := Wait(pc, bc, job, start, s, polls);
      && s.retries <= run.state.retries <= MaxRetries + 1
      && Count(run.events, RetryAttempted) == MinInt(run.state.retries, MaxRetries) - s.retries
      && (ExhaustedRun(run) <==> run.state.retries == MaxRetries + 1)
    decreases |polls|
  {
    if s.now - start > pc.timeout {
      assert Wait(pc, bc, job, start, s, polls).events[1..] == [];
    } else if polls != [] {
      var step := WaitStep(pc, bc, job, s, polls[0]);
      if step.Continue? {
        var rest := Wait(pc, bc, job, start, step.state, polls[1..]);
        WaitRetryBudget(pc, bc, job, start, step.state, polls[1..]);
        CountAppend(step.events, rest.events, RetryAttempted);
      }
    }
  }

  /** Every `STATUS_CHANGED` of a run reports a real change from the status observed before it. */
  lemma {:induction false} WaitStatusChain(pc: PollingConfig, bc: BreakerConfig, job: string, start: real, s: WaitState, polls: seq<Poll>)
    requires Inv(bc, s.breaker)
    ensures var run := Wait(pc, bc, job, start, s, polls);
      ChainFrom(run.events, s.last, run.state.last)
    decreases |polls|
  {
    if s.now - start > pc.timeout {
      ChainQuiet([TimeoutEvent(job, start, s)], s.last);
    } else if polls != [] {
      var step := WaitStep(pc, bc, job, s, polls[0]);
      if step.Continue? {
        var rest := Wait(pc, bc, job, start, step.state, polls[1..]);
        WaitStatusChain(pc, bc, job, start, step.state, polls[1..]);
        ChainAppend(step.events, rest.events, s.last, step.state.last, rest.state.last);
      }
    }
  }

  /**
   * The clock never runs backwards, and with a sane configuration no sleep is
   * ever asked for a negative interval.
   */
  lemma {:induction false} WaitClock(pc: PollingConfig, bc: BreakerConfig, job: string, start: real, s: WaitState, polls: seq<Poll>)
    requires Inv(bc, s.breaker)
    ensures var run := Wait(pc, bc, job, start, s, polls);
      && run.state.now >= s.now
      && (Sane(pc) && 0.0 <= s.interval ==> run.end != Failed(NegativeSleep))
    decreases |polls|
  {
    if s.now - start <= pc.timeout && polls != [] {
      var step := WaitStep(pc, bc, job, s, polls[0]);
      if step.Continue? {
        WaitClock(pc, bc, job, start, step.state, polls[1..]);
      }
    }
  }

  /**
   * A poll before the deadline that answers "completed" ends the wait: it
   * returns that status, with `JOB_COMPLETED` as its last event.
   */
  lemma WaitCompletedPollReturns(pc: PollingConfig, bc: BreakerConfig, job: string, start: real, s: WaitState, polls: seq<Poll>)
    requires Inv(bc, s.breaker) && s.now - start <= pc.timeout && polls != []
    requires GetStatus(bc, s.breaker, s.now, job, polls[0].reply).result == Ok(Completed)
    ensures var run := Wait(pc, bc, job, start, s, polls);
      run.end == Returned(Completed) && run.events != [] && run.events[|run.events| - 1] == CompletedEvent(job)
  {
    WaitStepStatus(pc, bc, job, s, polls[0]);
  }

  /**
   * A poll before the deadline that answers "error" ends the wait with that
   * failure, its last events `JOB_FAILED` and then `ERROR_OCCURRED`.
   */
  lemma WaitErrorPollFails(pc: PollingConfig, bc: BreakerConfig, job: string, start: real, s: WaitState, polls: seq<Poll>)
    requires Inv(bc, s.breaker) && s.now - start <= pc.timeout && polls != []
    requires GetStatus(bc, s.breaker, s.now, job, polls[0].reply).result == Ok(ErrorStatus)
    ensures var run := Wait(pc, bc, job, start, s, polls);
      run.end == Failed(JobErrorStatus) && |run.events| >= 2 && run.events[|run.events| - 2..] == FailedEvents(job)
  {
    WaitStepStatus(pc, bc, job, s, polls[0]);
  }

  /**
   * The first successful poll of a wait reports `STATUS_CHANGED`: nothing has
   * been observed yet, so the status is new; it follows the events of `get_status`.
   */
  lemma WaitFirstPollChanges(pc: PollingConfig, bc: BreakerConfig, job: string, start: real, s: WaitState, polls: seq<Poll>)
    requires Inv(bc, s.breaker) && s.last == None && s.now - start <= pc.timeout && polls != []
    requires GetStatus(bc, s.breaker, s.now, job, polls[0].reply).result.Ok?
    ensures var op := GetStatus(bc, s.breaker, s.now, job, polls[0].reply);
      var run := Wait(pc, bc, job, start, s, polls);
      |op.events| < |run.events|
      && run.events[|op.events|] == ChangedEvent(job, s.(breaker := op.breaker), op.result.value)
  {
    var op := GetStatus(bc, s.breaker, s.now, job, polls[0].reply);
    var s1 := s.(breaker := op.breaker);
    FailureEventsArePollEvents(op.events);
    var step := OnStatus(pc, job, s1, op.result.value, polls[0].draw, op.events, op.sent);
    assert WaitStep(pc, bc, job, s, polls[0]) == step;
    if step.Continue? {
      var rest := Wait(pc, bc, job, start, step.state, polls[1..]);
      assert (step.events + rest.events)[|op.events|] == step.events[|op.events|];
    }
  }
}
