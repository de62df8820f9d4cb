/**
 * The client object of client/client.py: `TranslationClient` with its event
 * bus, its circuit breaker and a clock, each method proved to follow the
 * functions of JobOps, Orchestrator and Batches. Transport replies and jitter
 * draws are parameters (one per request, one per sleep).
 */
module Client {
  import opened Wrappers
  import opened Failures
  import opened Backoff
  import opened Breaker
  import opened Events
  import opened JobOps
  import opened Orchestrator
  import opened Batches

  /** The wall clock; only sleeping moves it. */
  class Clock {
    var now: real

    constructor (start: real)
      ensures now == start
    {
      now := start;
    }

    /** `time.sleep(d)`: raises for a negative duration, otherwise waits `d`. */
    method Sleep(d: real) returns (ok: bool)
      modifies this
      ensures ok <==> 0.0 <= d
      ensures now == if ok then old(now) + d else old(now)
    {
      if d < 0.0 {
        return false;
      }
      now := now + d;
      return true;
    }
  }

  /** The caller's list of job ids, which `wait_for_batch_completion` empties in place. */
  class JobList {
    var ids: seq<string>

    constructor (ids: seq<string>)
      ensures this.ids == ids
    {
      this.ids := ids;
    }

    /** `list.remove(x)` for an x that is present. */
    method Remove(x: string)
      requires x in ids
      modifies this
      ensures ids == RemoveFirst(old(ids), x)
    {
      var i := IndexOf(ids, x);
      ids := ids[..i] + ids[i + 1..];
    }
  }

  /** Removing an id that occurs nowhere before position |a| takes it out at that position. */
  lemma RemoveAt(a: seq<string>, x: string, b: seq<string>)
    requires x !in a
    ensures RemoveFirst(a + [x] + b, x) == a + b
  {
    var s := a + [x] + b;
    assert s[|a|] == x;
    var i := IndexOf(s, x);
    assert s[..|a|] == a;
    assert s[..i] == a && s[i + 1..] == b;
  }

  /** The list during the inner loop of `wait_for_batch_completion`, one id further on. */
  lemma RemoveNext(copy: seq<string>, statuses: map<string, string>, j: nat)
    requires j < |copy|
    ensures var id, done := copy[j], Unresolved(copy[..j], statuses);
      && id in done + copy[j..]
      && Unresolved(copy[..j + 1], statuses) + copy[j + 1..]
           == if Terminal(statuses, id) then RemoveFirst(done + copy[j..], id) else done + copy[j..]
  {
    var id, done, rest := copy[j], Unresolved(copy[..j], statuses), copy[j + 1..];
    UnresolvedNext(copy, statuses, j);
    var joined := done + [id] + rest;
    assert done + copy[j..] == joined by {
      assert copy[j..] == [id] + rest;
      AppendAssoc(done, [id], rest);
    }
    assert joined[|done|] == id;
    if Terminal(statuses, id) {
      UnresolvedMembers(copy[..j], statuses);
      RemoveAt(done, id, rest);
    }
  }

  class TranslationClient {
    const config: PollingConfig
    const handler: EventHandler
    const breaker: CircuitBreaker
    const clock: Clock
    /** The requests sent so far, in order. */
    var sent: seq<Request>

    ghost predicate Valid()
      reads this, handler, breaker
    {
      handler.Valid() && breaker.Valid()
    }

    /** A new client: a fresh bus with no listeners and a closed breaker with the default settings. */
    constructor (config: PollingConfig, raises: (Callback, Event) -> bool, clock: Clock)
      ensures Valid() && this.config == config && this.clock == clock && sent == []
      ensures fresh(handler) && fresh(breaker)
      ensures handler.history == [] && handler.calls == [] && handler.raises == raises
      ensures forall t: EventType :: handler.listeners[t] == []
      ensures breaker.config == DefaultBreaker && breaker.State() == Fresh
    {
      this.config := config;
      this.clock := clock;
      handler := new EventHandler(raises);
      breaker := new CircuitBreaker(DefaultBreaker);
      sent := [];
    }

    /** `on`: subscribe, and return the client itself for chaining. */
    method On(t: EventType, cb: Callback) returns (self: TranslationClient)
      requires Valid()
      modifies handler
      ensures Valid() && self == this
      ensures handler.listeners == old(handler.listeners)[t := old(handler.listeners)[t] + [cb]]
      ensures handler.history == old(handler.history) && handler.calls == old(handler.calls)
    {
      handler.Subscribe(t, cb);
      return this;
    }

    /** `off`: unsubscribe, and return the client itself for chaining. */
    method Off(t: EventType, cb: Callback) returns (self: TranslationClient)
      requires Valid()
      modifies handler
      ensures Valid() && self == this
      ensures handler.listeners == old(handler.listeners)[t := RemoveFirst(old(handler.listeners)[t], cb)]
      ensures handler.history == old(handler.history) && handler.calls == old(handler.calls)
    {
      handler.Unsubscribe(t, cb);
      return this;
    }

    /** Dispatch one more event on the bus, extending what has been published since `h0`, `c0`. */
    method Publish(e: Event, ghost h0: seq<Event>, ghost c0: seq<Invocation>, ghost es: seq<Event>)
      requires handler.Valid() && handler.Published(h0, c0, es)
      modifies handler
      ensures handler.Valid() && handler.listeners == old(handler.listeners)
      ensures handler.Published(h0, c0, es + [e])
    {
      handler.Dispatch(e);
      handler.PublishedSnoc(h0, c0, es, e);
    }

    /** `create_job`, following `JobOps.CreateJob` on the breaker, the bus and the requests sent. */
    method CreateJob(reply: Outcome) returns (r: Result<string, Failure>)
      requires Valid()
      modifies this, handler, breaker
      ensures Valid() && handler.listeners == old(handler.listeners)
      ensures var op := JobOps.CreateJob(breaker.config, old(breaker.State()), clock.now, reply);
        && r == op.result && breaker.State() == op.breaker && sent == old(sent) + op.sent
        && handler.Published(old(handler.history), old(handler.calls), op.events)
    {
      ghost var h0, c0 := handler.history, handler.calls;
      var permitted := breaker.CanExecute(clock.now);
      if !permitted {
        Publish(RejectedEvent(""), h0, c0, []);
        return Err(BreakerRejected);
      }
      sent := sent + [PostJob];
      match Received(reply)
      case Ok(id) =>
        breaker.RecordSuccess();
        Publish(Event(JobCreated, One(id), NoDetail), h0, c0, []);
        r := Ok(id);
      case Err(e) =>
        breaker.RecordFailure(clock.now);
        Publish(ErrorEvent("", Raised(e)), h0, c0, []);
        r := Err(Raised(e));
    }

    /** The outer `except RequestException` of `get_status`. */
    method CatchRequest(job: string, e: Exc, ghost h0: seq<Event>, ghost c0: seq<Invocation>, ghost es: seq<Event>)
      returns (r: Result<string, Failure>)
      requires Valid() && handler.Published(h0, c0, es)
      modifies handler, breaker
      ensures Valid() && handler.listeners == old(handler.listeners)
      ensures var op := Caught(breaker.config, old(breaker.State()), clock.now, job, e, es, []);
        && r == op.result && breaker.State() == op.breaker
        && handler.Published(h0, c0, op.events)
    {
      Publish(ErrorEvent(job, Raised(e)), h0, c0, es);
      breaker.RecordFailure(clock.now);
      if ShouldRetry(e) {
        r := Err(Retryable(e));
      } else {
        r := Err(Raised(e));
      }
    }

    /** `get_status`, following `JobOps.GetStatus`. */
    method GetStatus(job: string, reply: Outcome) returns (r: Result<string, Failure>)
      requires Valid()
      modifies this, handler, breaker
      ensures Valid() && handler.listeners == old(handler.listeners)
      ensures var op := JobOps.GetStatus(breaker.config, old(breaker.State()), clock.now, job, reply);
        && r == op.result && breaker.State() == op.breaker && sent == old(sent) + op.sent
        && handler.Published(old(handler.history), old(handler.calls), op.events)
    {
      ghost var h0, c0 := handler.history, handler.calls;
      var permitted := breaker.CanExecute(clock.now);
      if !permitted {
        Publish(RejectedEvent(job), h0, c0, []);
        return Err(BreakerRejected);
      }
      r := Respond(job, reply);
    }

    /** The request of `get_status` once the breaker admits it, following `JobOps.Respond`. */
    method Respond(job: string, reply: Outcome) returns (r: Result<string, Failure>)
      requires Valid()
      modifies this, handler, breaker
      ensures Valid() && handler.listeners == old(handler.listeners)
      ensures var op := JobOps.Respond(breaker.config, old(breaker.State()), clock.now, job, reply);
        && r == op.result && breaker.State() == op.breaker && sent == old(sent) + op.sent
        && handler.Published(old(handler.history), old(handler.calls), op.events)
    {
      ghost var h0, c0 := handler.history, handler.calls;
      sent := sent + [GetStatusOf(job)];
      match reply
      case Threw(e) =>
        if IsRequestException(e) {
          r := CatchRequest(job, e, h0, c0, []);
        } else {
          r := Err(Raised(e));
        }
      case Answered(resp) =>
        if IsHttpErrorCode(resp.code) {
          // the inner handler reports and counts the HTTP error, then re-raises it
          var e := HttpError(resp.code);
          Publish(ErrorEvent(job, Raised(e)), h0, c0, []);
          breaker.RecordFailure(clock.now);
          r := CatchRequest(job, e, h0, c0, [ErrorEvent(job, Raised(e))]);
        } else {
          breaker.RecordSuccess();
          match resp.body
          case Field(v) =>
            r := Ok(v);
          case Undecodable(e) =>
            if IsRequestException(e) {
              r := CatchRequest(job, e, h0, c0, []);
            } else {
              r := Err(Raised(e));
            }
        }
    }

    /** The lists gathered, the breaker, the bus and the requests sent agree with tally `t`, from `h0`, `c0`, `s0`. */
    ghost predicate Created(t: CreateTally, h0: seq<Event>, c0: seq<Invocation>, s0: seq<Request>,
                            ids: seq<string>, errors: seq<Failure>)
      reads this, handler, breaker
    {
      && ids == t.ids && errors == t.errors && breaker.State() == t.breaker && sent == s0 + t.sent
      && handler.Published(h0, c0, t.events)
    }

    /** One iteration of the loop of `create_batch_jobs`: call `create_job`, keep the id or the error. */
    method CreateAttempt(reply: Outcome, ids: seq<string>, errors: seq<Failure>, ghost t: CreateTally,
                         ghost h0: seq<Event>, ghost c0: seq<Invocation>, ghost s0: seq<Request>)
      returns (ids': seq<string>, errors': seq<Failure>)
      requires Valid() && Created(t, h0, c0, s0, ids, errors)
      modifies this, handler, breaker
      ensures Valid() && handler.listeners == old(handler.listeners)
      ensures Created(CreateStep(breaker.config, clock.now, t, reply), h0, c0, s0, ids', errors')
    {
      var r := CreateJob(reply);
      ghost var op := JobOps.CreateJob(breaker.config, t.breaker, clock.now, reply);
      handler.PublishedAppend(h0, c0, t.events, op.events);
      AppendAssoc(s0, t.sent, op.sent);
      ids' := ids + (if r.Ok? then [r.value] else []);
      errors' := errors + (if r.Err? then [r.error] else []);
    }

    /** The loop of `create_batch_jobs`: one `create_job` per reply, in order. */
    method CreateAll(count: int, replies: seq<Outcome>) returns (ids: seq<string>, errors: seq<Failure>)
      requires Valid() && |replies| == (if count < 0 then 0 else count)
      modifies this, handler, breaker
      ensures Valid() && handler.listeners == old(handler.listeners)
      ensures Created(CreateEach(breaker.config, old(breaker.State()), clock.now, replies),
                      old(handler.history), old(handler.calls), old(sent), ids, errors)
    {
      ghost var h0, c0, s0, b0 := handler.history, handler.calls, sent, breaker.State();
      ghost var t := CreateEach(breaker.config, b0, clock.now, []);
      ids := [];
      errors := [];
      var i := 0;
      while i < count
        invariant 0 <= i <= |replies|
        invariant Valid() && handler.listeners == old(handler.listeners)
        invariant t == CreateEach(breaker.config, b0, clock.now, replies[..i])
        invariant Created(t, h0, c0, s0, ids, errors)
      {
        ids, errors := CreateAttempt(replies[i], ids, errors, t, h0, c0, s0);
        CreateEachNext(breaker.config, b0, clock.now, replies, i);
        t := CreateStep(breaker.config, clock.now, t, replies[i]);
        i := i + 1;
      }
      assert replies[..i] == replies;
    }

    /** `create_batch_jobs(count)`: `count` calls of `create_job`, then one summary event. */
    method CreateBatchJobs(count: int, replies: seq<Outcome>) returns (ids: seq<string>)
      requires Valid() && |replies| == (if count < 0 then 0 else count)
      modifies this, handler, breaker
      ensures Valid() && handler.listeners == old(handler.listeners)
      ensures var op := JobOps.CreateBatchJobs(breaker.config, old(breaker.State()), clock.now, replies);
        && Ok(ids) == op.result && breaker.State() == op.breaker && sent == old(sent) + op.sent
        && handler.Published(old(handler.history), old(handler.calls), op.events)
    {
      ghost var h0, c0 := handler.history, handler.calls;
      ghost var t := CreateEach(breaker.config, breaker.State(), clock.now, replies);
      var errors;
      ids, errors := CreateAll(count, replies);
      Publish(Event(BatchOperation, Many(ids), CreateSummary(|ids|, |errors|, errors)), h0, c0, t.events);
    }

    /** The map and list gathered, the breaker, the bus and the requests sent agree with tally `t`. */
    ghost predicate Checked(t: StatusTally, h0: seq<Event>, c0: seq<Invocation>, s0: seq<Request>,
                            statuses: map<string, string>, errors: seq<(string, Failure)>)
      reads this, handler, breaker
    {
      && statuses == t.statuses && errors == t.errors && breaker.State() == t.breaker && sent == s0 + t.sent
      && handler.Published(h0, c0, t.events)
    }

    /** One iteration of the loop of `get_batch_status`: call `get_status`, record the status or "error". */
    method StatusAttempt(id: string, reply: Outcome, statuses: map<string, string>, errors: seq<(string, Failure)>,
                         ghost t: StatusTally, ghost h0: seq<Event>, ghost c0: seq<Invocation>, ghost s0: seq<Request>)
      returns (statuses': map<string, string>, errors': seq<(string, Failure)>)
      requires Valid() && Checked(t, h0, c0, s0, statuses, errors)
      modifies this, handler, breaker
      ensures Valid() && handler.listeners == old(handler.listeners)
      ensures Checked(StatusStep(breaker.config, clock.now, t, id, reply), h0, c0, s0, statuses', errors')
    {
      var r := GetStatus(id, reply);
      ghost var op := JobOps.GetStatus(breaker.config, t.breaker, clock.now, id, reply);
      handler.PublishedAppend(h0, c0, t.events, op.events);
      AppendAssoc(s0, t.sent, op.sent);
      statuses' := statuses[id := if r.Ok? then r.value else "error"];
      errors' := errors + (if r.Err? then [(id, r.error)] else []);
    }

    /** The loop of `get_batch_status`: one `get_status` per id, in order. */
    method StatusAll(ids: seq<string>, replies: seq<Outcome>) returns (statuses: map<string, string>, errors: seq<(string, Failure)>)
      requires Valid() && |replies| == |ids|
      modifies this, handler, breaker
      ensures Valid() && handler.listeners == old(handler.listeners)
      ensures Checked(StatusEach(breaker.config, old(breaker.State()), clock.now, ids, replies),
                      old(handler.history), old(handler.calls), old(sent), statuses, errors)
    {
      ghost var h0, c0, s0, b0, now := handler.history, handler.calls, sent, breaker.State(), clock.now;
      ghost var t := StatusEach(breaker.config, b0, now, [], []);
      statuses := map[];
      errors := [];
      var i := 0;
      while i < |ids|
        invariant 0 <= i <= |ids| && now == clock.now
        invariant Valid() && handler.listeners == old(handler.listeners)
        invariant t == StatusEach(breaker.config, b0, now, ids[..i], replies[..i])
        invariant Checked(t, h0, c0, s0, statuses, errors)
      {
        statuses, errors := StatusAttempt(ids[i], replies[i], statuses, errors, t, h0, c0, s0);
        StatusEachNext(breaker.config, b0, now, ids, replies, i);
        t := StatusStep(breaker.config, now, t, ids[i], replies[i]);
        i := i + 1;
      }
      assert ids[..i] == ids && replies[..i] == replies;
    }

    /** `get_batch_status(ids)`: one `get_status` per id, failures recorded as "error", then one summary event. */
    method GetBatchStatus(ids: seq<string>, replies: seq<Outcome>) returns (statuses: map<string, string>)
      requires Valid() && |replies| == |ids|
      modifies this, handler, breaker
      ensures Valid() && handler.listeners == old(handler.listeners)
      ensures var op := JobOps.GetBatchStatus(breaker.config, old(breaker.State()), clock.now, ids, replies);
        && Ok(statuses) == op.result && breaker.State() == op.breaker && sent == old(sent) + op.sent
        && handler.Published(old(handler.history), old(handler.calls), op.events)
    {
      ghost var h0, c0 := handler.history, handler.calls;
      ghost var t := StatusEach(breaker.config, breaker.State(), clock.now, ids, replies);
      var errors;
      statuses, errors := StatusAll(ids, replies);
      Publish(Event(BatchOperation, Many(ids), StatusSummary(statuses, |errors|, errors)), h0, c0, t.events);
    }

    /** The loop state of `wait_for_completion`: the breaker and the clock, with the loop variables. */
    ghost function Here(interval: real, last: Option<string>, retries: nat): WaitState
      reads breaker, clock
    {
      WaitState(breaker.State(), clock.now, interval, last, retries)
    }

    /**
     * The loop variables, the objects, the bus and the requests sent agree with
     * `step` from `h0`, `c0`, `s0`; `done` holds the end of the run if it stopped.
     */
    ghost predicate Follows(step: Step, done: Option<WaitEnd>, interval: real, last: Option<string>, retries: nat,
                            h0: seq<Event>, c0: seq<Invocation>, s0: seq<Request>)
      reads this, handler, breaker, clock
    {
      && Here(interval, last, retries) == StateOf(step)
      && sent == s0 + SentOf(step)
      && handler.Published(h0, c0, EventsOf(step))
      && done == (if step.Stop? then Some(step.run.end) else None)
    }

    /** A status that is not terminal: grow the interval and sleep for it, following `Orchestrator.Pause`. */
    method Doze(job: string, draw: Draw, interval: real, ghost s: WaitState, ghost s2: WaitState,
                ghost ev: seq<Event>, ghost sn: seq<Request>,
                ghost h0: seq<Event>, ghost c0: seq<Invocation>, ghost s0: seq<Request>)
      returns (done: Option<WaitEnd>, interval': real)
      requires Valid() && s2 == s.(last := s2.last) && s2.last.Some?
      requires Without(ev, JobCompleted) && Without(ev, Timeout) && Without(ev, RetryAttempted)
      requires ChainFrom(ev, s.last, s2.last)
      requires Here(interval, s2.last, s2.retries) == s2 && sent == s0 + sn && handler.Published(h0, c0, ev)
      modifies handler, clock
      ensures Valid() && handler.listeners == old(handler.listeners)
      ensures Follows(Pause(config, job, s, s2, draw, ev, sn), done, interval', s2.last, s2.retries, h0, c0, s0)
    {
      interval' := NextInterval(config, interval, draw);
      var ok := clock.Sleep(interval');
      if ok {
        done := None;
      } else {
        Publish(ErrorEvent(job, NegativeSleep), h0, c0, ev);
        done := Some(Failed(NegativeSleep));
      }
    }

    /** The rest of a successful poll, following `Orchestrator.Settle`: stop on a terminal status, otherwise doze. */
    method Finish(job: string, status: string, draw: Draw, interval: real, ghost s: WaitState, ghost s2: WaitState,
                  ghost ev: seq<Event>, ghost sn: seq<Request>,
                  ghost h0: seq<Event>, ghost c0: seq<Invocation>, ghost s0: seq<Request>)
      returns (done: Option<WaitEnd>, interval': real)
      requires Valid() && s2 == s.(last := Some(status))
      requires Without(ev, JobCompleted) && Without(ev, Timeout) && Without(ev, RetryAttempted)
      requires ChainFrom(ev, s.last, s2.last)
      requires Here(interval, s2.last, s2.retries) == s2 && sent == s0 + sn && handler.Published(h0, c0, ev)
      modifies handler, clock
      ensures Valid() && handler.listeners == old(handler.listeners)
      ensures Follows(Orchestrator.Settle(config, job, s, s2, draw, ev, sn), done, interval', s2.last, s2.retries, h0, c0, s0)
    {
      if status == ErrorStatus {
        var failed := Event(JobFailed, One(job), Final(ErrorStatus));
        Publish(failed, h0, c0, ev);
        Publish(ErrorEvent(job, JobErrorStatus), h0, c0, ev + [failed]);
        assert ev + [failed] + [ErrorEvent(job, JobErrorStatus)] == ev + [failed, ErrorEvent(job, JobErrorStatus)];
        done, interval' := Some(Failed(JobErrorStatus)), interval;
      } else if status == Completed {
        Publish(Event(JobCompleted, One(job), Final(Completed)), h0, c0, ev);
        done, interval' := Some(Returned(status)), interval;
      } else {
        done, interval' := Doze(job, draw, interval, s, s2, ev, sn, h0, c0, s0);
      }
    }

    /** A successful poll, following `Orchestrator.OnStatus`: report a new status, then settle on it. */
    method Observe(job: string, status: string, draw: Draw, interval: real, last: Option<string>, retries: nat,
                   ghost before: seq<Event>, ghost sn: seq<Request>,
                   ghost h0: seq<Event>, ghost c0: seq<Invocation>, ghost s0: seq<Request>)
      returns (done: Option<WaitEnd>, interval': real, last': Option<string>)
      requires Valid() && PollEvents(before) && sent == s0 + sn && handler.Published(h0, c0, before)
      modifies handler, clock
      ensures Valid() && handler.listeners == old(handler.listeners)
      ensures Follows(OnStatus(config, job, old(Here(interval, last, retries)), status, draw, before, sn),
                      done, interval', last', retries, h0, c0, s0)
    {
      ghost var s := Here(interval, last, retries);
      ghost var ev := Noted(job, s, status, before);
      if last != Some(status) {
        Publish(Event(StatusChanged, One(job), Transition(last, status, retries + 1)), h0, c0, before);
      } else {
        assert ev == before;
      }
      last' := Some(status);
      done, interval' := Finish(job, status, draw, interval, s, s.(last := Some(status)), ev, sn, h0, c0, s0);
    }

    /** A retryable failure, following `Orchestrator.OnRetryable`: spend one unit of the budget, report, sleep. */
    method RetryLater(job: string, cause: Exc, draw: Draw, interval: real, retries: nat, ghost s: WaitState,
                      ghost before: seq<Event>, ghost sn: seq<Request>,
                      ghost h0: seq<Event>, ghost c0: seq<Invocation>, ghost s0: seq<Request>)
      returns (done: Option<WaitEnd>, interval': real, retries': nat)
      requires Valid() && PollEvents(before) && Here(interval, s.last, retries) == s
      requires sent == s0 + sn && handler.Published(h0, c0, before)
      modifies handler, clock
      ensures Valid() && handler.listeners == old(handler.listeners)
      ensures Follows(OnRetryable(config, job, s, cause, draw, before, sn), done, interval', s.last, retries', h0, c0, s0)
    {
      ghost var step := OnRetryable(config, job, s, cause, draw, before, sn);
      retries' := retries + 1;
      if retries' > MaxRetries {
        assert step == Stop(WaitRun(Failed(MaxRetriesExceeded(cause)), s.(retries := retries'), before, sn));
        return Some(Failed(MaxRetriesExceeded(cause))), interval, retries';
      }
      ghost var ev := Retried(job, s, before);
      assert step == RetryPause(config, s, s.(retries := retries'), draw, ev, sn);
      var retry := Event(RetryAttempted, One(job), Retry(retries', interval));
      assert ev == before + [retry];
      Publish(retry, h0, c0, before);
      done, interval' := RetryDoze(draw, interval, s, s.(retries := retries'), ev, sn, h0, c0, s0);
    }

    /** The sleep after a reported retry, following `Orchestrator.RetryPause`. */
    method RetryDoze(draw: Draw, interval: real, ghost s: WaitState, ghost s2: WaitState,
                     ghost ev: seq<Event>, ghost sn: seq<Request>,
                     ghost h0: seq<Event>, ghost c0: seq<Invocation>, ghost s0: seq<Request>)
      returns (done: Option<WaitEnd>, interval': real)
      requires Valid() && s2 == s.(retries := s.retries + 1) && s2.retries <= MaxRetries
      requires Without(ev, JobCompleted) && Without(ev, Timeout) && Count(ev, RetryAttempted) == 1
      requires ChainFrom(ev, s.last, s.last)
      requires Here(interval, s.last, s2.retries) == s2 && sent == s0 + sn && handler.Published(h0, c0, ev)
      modifies clock
      ensures Valid() && handler.listeners == old(handler.listeners)
      ensures Follows(RetryPause(config, s, s2, draw, ev, sn), done, interval', s.last, s2.retries, h0, c0, s0)
    {
      interval' := NextInterval(config, interval, draw);
      var ok := clock.Sleep(interval');
      done := if ok then None else Some(Failed(NegativeSleep));
    }

    /** One iteration of `wait_for_completion` after the deadline check, following `Orchestrator.WaitStep`. */
    method PollOnce(job: string, p: Poll, interval: real, last: Option<string>, retries: nat)
      returns (done: Option<WaitEnd>, interval': real, last': Option<string>, retries': nat)
      requires Valid()
      modifies this, handler, breaker, clock
      ensures Valid() && handler.listeners == old(handler.listeners)
      ensures Follows(WaitStep(config, breaker.config, job, old(Here(interval, last, retries)), p),
                      done, interval', last', retries', old(handler.history), old(handler.calls), old(sent))
    {
      ghost var h0, c0, s0 := handler.history, handler.calls, sent;
      ghost var s := Here(interval, last, retries);
      var r := GetStatus(job, p.reply);
      ghost var op := JobOps.GetStatus(breaker.config, s.breaker, s.now, job, p.reply);
      FailureEventsArePollEvents(op.events);
      interval', last', retries' := interval, last, retries;
      match r
      case Ok(status) =>
        done, interval', last' := Observe(job, status, p.draw, interval, last, retries, op.events, op.sent, h0, c0, s0);
      case Err(f) =>
        if f.Retryable? {
          done, interval', retries' := RetryLater(job, f.cause, p.draw, interval, retries, s.(breaker := op.breaker),
                                             op.events, op.sent, h0, c0, s0);
        } else {
          Publish(ErrorEvent(job, f), h0, c0, op.events);
          done := Some(Failed(f));
        }
    }

    /** One round of the loop of `wait_for_completion`, following `Orchestrator.WaitRound` over `polls[i..]`. */
    method Round(job: string, start: real, polls: seq<Poll>, i: nat, interval: real, last: Option<string>, retries: nat)
      returns (done: Option<WaitEnd>, interval': real, last': Option<string>, retries': nat)
      requires Valid() && i <= |polls|
      modifies this, handler, breaker, clock
      ensures Valid() && handler.listeners == old(handler.listeners)
      ensures Follows(WaitRound(config, breaker.config, job, start, old(Here(interval, last, retries)), polls[i..]),
                      done, interval', last', retries', old(handler.history), old(handler.calls), old(sent))
    {
      ghost var h0, c0 := handler.history, handler.calls;
      if clock.now - start > config.timeout {
        var timeout := Event(Timeout, One(job), Elapsed(clock.now - start));
        assert timeout == TimeoutEvent(job, start, Here(interval, last, retries));
        Publish(timeout, h0, c0, []);
        assert sent + [] == sent;
        return Some(Failed(Deadline)), interval, last, retries;
      }
      if i == |polls| {
        assert sent + [] == sent && handler.history + [] == handler.history;
        return Some(ScriptEnded), interval, last, retries;
      }
      assert polls[i..][0] == polls[i];
      done, interval', last', retries' := PollOnce(job, polls[i], interval, last, retries);
    }

    /**
     * `wait_for_completion(job)`, following `Orchestrator.Wait` from a fresh
     * loop state: the deadline is checked before every poll.
     */
    method WaitForCompletion(job: string, polls: seq<Poll>) returns (end: WaitEnd)
      requires Valid()
      modifies this, handler, breaker, clock
      ensures Valid() && handler.listeners == old(handler.listeners)
      ensures var run := Wait(config, breaker.config, job, old(clock.now),
                              WaitStart(config, old(breaker.State()), old(clock.now)), polls);
        && end == run.end && breaker.State() == run.state.breaker && clock.now == run.state.now
        && sent == old(sent) + run.sent && handler.Published(old(handler.history), old(handler.calls), run.events)
    {
      ghost var h0, c0, s0 := handler.history, handler.calls, sent;
      var start := clock.now;
      ghost var whole := Wait(config, breaker.config, job, start, WaitStart(config, breaker.State(), start), polls);
      var interval, last, retries := config.initialInterval, None, 0;
      ghost var ev: seq<Event>, sn: seq<Request> := [], [];
      var i := 0;
      while true
        invariant 0 <= i <= |polls|
        invariant Valid() && handler.listeners == old(handler.listeners)
        invariant whole == Then(ev, sn, Wait(config, breaker.config, job, start, Here(interval, last, retries), polls[i..]))
        invariant sent == s0 + sn && handler.Published(h0, c0, ev)
        decreases |polls| - i
      {
        ghost var step := WaitRound(config, breaker.config, job, start, Here(interval, last, retries), polls[i..]);
        WaitNext(config, breaker.config, job, start, Here(interval, last, retries), polls, i);
        var done;
        done, interval, last, retries := Round(job, start, polls, i, interval, last, retries);
        handler.PublishedAppend(h0, c0, ev, EventsOf(step));
        AppendAssoc(s0, sn, SentOf(step));
        if done.Some? {
          return done.value;
        }
        ThenThen(ev, sn, step.events, step.sent, Wait(config, breaker.config, job, start, step.state, polls[i + 1..]));
        ev, sn := ev + step.events, sn + step.sent;
        i := i + 1;
      }
    }

    /** The inner loop of `wait_for_batch_completion`: over a copy of the list, record and remove every finished id. */
    static method SettleAll(list: JobList, statuses: map<string, string>, final: map<string, string>)
      returns (final': map<string, string>)
      modifies list
      ensures list.ids == Unresolved(old(list.ids), statuses)
      ensures final' == Resolve(old(list.ids), statuses, final)
    {
      var copy := list.ids;
      final' := final;
      var j := 0;
      while j < |copy|
        invariant 0 <= j <= |copy|
        invariant list.ids == Unresolved(copy[..j], statuses) + copy[j..]
        invariant final' == Resolve(copy[..j], statuses, final)
      {
        var id := copy[j];
        ResolveNext(copy, statuses, final, j);
        RemoveNext(copy, statuses, j);
        if id in statuses && (statuses[id] == Completed || statuses[id] == ErrorStatus) {
          final' := final'[id := statuses[id]];
          list.Remove(id);
        }
        j := j + 1;
      }
      assert copy[..j] == copy;
    }

    /** The state of the batch loop: the breaker, the clock, the caller's list and the final statuses. */
    ghost function BatchHere(list: JobList, final: map<string, string>): BatchState
      reads breaker, clock, list
    {
      BatchState(breaker.State(), clock.now, list.ids, final)
    }

    /** The list, the final statuses, the objects, the bus and the requests sent agree with `step`. */
    ghost predicate Tracks(step: BatchStep, done: Option<BatchEnd>, list: JobList, final: map<string, string>,
                           h0: seq<Event>, c0: seq<Invocation>, s0: seq<Request>)
      reads this, handler, breaker, clock, list
    {
      && BatchHere(list, final) == BatchStateOf(step)
      && sent == s0 + BatchSentOf(step)
      && handler.Published(h0, c0, BatchEventsOf(step))
      && done == (if step.Halt? then Some(step.run.end) else None)
    }

    /** One round after the deadline check, following `Batches.BatchRoundStep`: fetch, settle, sleep if jobs remain. */
    method BatchPoll(list: JobList, final: map<string, string>, r: Round)
      returns (done: Option<BatchEnd>, final': map<string, string>)
      requires Valid() && BatchInv(BatchHere(list, final)) && |r.replies| == |list.ids|
      modifies this, handler, breaker, clock, list
      ensures Valid() && handler.listeners == old(handler.listeners)
      ensures Tracks(BatchRoundStep(config, breaker.config, old(BatchHere(list, final)), r),
                     done, list, final', old(handler.history), old(handler.calls), old(sent))
    {
      ghost var s := BatchHere(list, final);
      var statuses := GetBatchStatus(list.ids, r.replies);
      final' := SettleAll(list, statuses, final);
      if list.ids != [] {
        var ok := clock.Sleep(NextInterval(config, config.initialInterval, r.draw));
        if !ok {
          return Some(BatchFailed(NegativeSleep)), final';
        }
      }
      done := None;
    }

    /** One iteration of the batch loop, following `Batches.BatchWaitRound` over `rounds[i..]`. */
    method BatchRound(list: JobList, final: map<string, string>, start: real, rounds: seq<Round>, i: nat)
      returns (done: Option<BatchEnd>, final': map<string, string>)
      requires Valid() && BatchInv(BatchHere(list, final)) && i <= |rounds|
      modifies this, handler, breaker, clock, list
      ensures Valid() && handler.listeners == old(handler.listeners)
      ensures Tracks(BatchWaitRound(config, breaker.config, start, old(BatchHere(list, final)), rounds[i..]),
                     done, list, final', old(handler.history), old(handler.calls), old(sent))
    {
      ghost var h0, c0 := handler.history, handler.calls;
      assert sent + [] == sent && handler.history + [] == handler.history;
      if list.ids == [] {
        return Some(AllResolved(final)), final;
      }
      if clock.now - start > config.timeout {
        var remaining := NotSettled(list.ids, final);
        var timeout := Event(Timeout, Many(remaining), Progress(clock.now - start, |final.Keys|, |remaining|));
        assert timeout == BatchTimeoutEvent(start, BatchHere(list, final));
        Publish(timeout, h0, c0, []);
        return Some(BatchFailed(Deadline)), final;
      }
      if i == |rounds| || |rounds[i].replies| != |list.ids| {
        return Some(BatchScriptEnded), final;
      }
      assert rounds[i..][0] == rounds[i];
      done, final' := BatchPoll(list, final, rounds[i]);
    }

    /** The objects, the bus and the requests sent are where batch run `run` leaves them, from `h0`, `c0`, `s0`. */
    ghost predicate BatchDone(run: BatchRun, end: BatchEnd, list: JobList,
                              h0: seq<Event>, c0: seq<Invocation>, s0: seq<Request>)
      reads this, handler, breaker, clock, list
    {
      && end == run.end && list.ids == run.state.outstanding
      && breaker.State() == run.state.breaker && clock.now == run.state.now
      && sent == s0 + run.sent && handler.Published(h0, c0, run.events)
    }

    /**
     * The batch loop is at round `i` of the whole run `whole`, of which the
     * events `ev` and the requests `sn` are done.
     */
    ghost predicate Along(whole: BatchRun, ev: seq<Event>, sn: seq<Request>, list: JobList, final: map<string, string>,
                          start: real, rounds: seq<Round>, i: nat,
                          h0: seq<Event>, c0: seq<Invocation>, s0: seq<Request>)
      reads this, handler, breaker, clock, list
    {
      && Valid() && BatchInv(BatchHere(list, final)) && i <= |rounds|
      && whole == BatchThen(ev, sn, BatchWait(config, breaker.config, start, BatchHere(list, final), rounds[i..]))
      && sent == s0 + sn && handler.Published(h0, c0, ev)
    }

    /** One pass of the batch loop: either the whole run is over, or it goes on over `rounds[i + 1..]`. */
    method BatchIterate(list: JobList, final: map<string, string>, start: real, rounds: seq<Round>, i: nat,
                        ghost whole: BatchRun, ghost ev: seq<Event>, ghost sn: seq<Request>,
                        ghost h0: seq<Event>, ghost c0: seq<Invocation>, ghost s0: seq<Request>)
      returns (done: Option<BatchEnd>, final': map<string, string>, ghost ev': seq<Event>, ghost sn': seq<Request>)
      requires Along(whole, ev, sn, list, final, start, rounds, i, h0, c0, s0)
      modifies this, handler, breaker, clock, list
      ensures Valid() && handler.listeners == old(handler.listeners)
      ensures done.Some? ==> BatchDone(whole, done.value, list, h0, c0, s0)
      ensures done.None? ==> i < |rounds| && Along(whole, ev', sn', list, final', start, rounds, i + 1, h0, c0, s0)
    {
      ghost var step := BatchWaitRound(config, breaker.config, start, BatchHere(list, final), rounds[i..]);
      BatchWaitNext(config, breaker.config, start, BatchHere(list, final), rounds, i);
      done, final' := BatchRound(list, final, start, rounds, i);
      handler.PublishedAppend(h0, c0, ev, BatchEventsOf(step));
      AppendAssoc(s0, sn, BatchSentOf(step));
      ev', sn' := ev + BatchEventsOf(step), sn + BatchSentOf(step);
      if done.None? {
        BatchThenThen(ev, sn, step.events, step.sent, BatchWait(config, breaker.config, start, step.state, rounds[i + 1..]));
      }
    }

    /**
     * `wait_for_batch_completion(ids)` on the caller's list, following
     * `Batches.BatchWait`: the list ends as the run's outstanding ids.
     */
    method WaitForBatchCompletion(list: JobList, rounds: seq<Round>) returns (end: BatchEnd)
      requires Valid()
      modifies this, handler, breaker, clock, list
      ensures Valid() && handler.listeners == old(handler.listeners)
      ensures BatchDone(BatchWait(config, breaker.config, old(clock.now),
                                  BatchStart(old(breaker.State()), old(clock.now), old(list.ids)), rounds),
                        end, list, old(handler.history), old(handler.calls), old(sent))
    {
      ghost var h0, c0, s0 := handler.history, handler.calls, sent;
      var final := map[];
      var start := clock.now;
      ghost var whole := BatchWait(config, breaker.config, start, BatchHere(list, final), rounds);
      ghost var ev: seq<Event>, sn: seq<Request> := [], [];
      var i := 0;
      assert rounds[i..] == rounds && whole == BatchThen(ev, sn, whole) by {
        assert ev + whole.events == whole.events && sn + whole.sent == whole.sent;
      }
      while true
        invariant handler.listeners == old(handler.listeners)
        invariant Along(whole, ev, sn, list, final, start, rounds, i, h0, c0, s0)
        decreases |rounds| - i
      {
        var done;
        done, final, ev, sn := BatchIterate(list, final, start, rounds, i, whole, ev, sn, h0, c0, s0);
        if done.Some? {
          return done.value;
        }
        i := i + 1;
      }
    }
  }
}
