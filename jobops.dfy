/**
 * The one-shot job operations of the client (`create_job`, `get_status`,
 * `create_batch_jobs`, `get_batch_status` in client/client.py) as functions of
 * the breaker state, the clock reading and the scripted transport replies.
 * Each yields an `Effect`: what the caller gets, the new breaker state, the
 * events dispatched in order, and the requests put on the wire.
 */
module JobOps {
  import opened Wrappers
  import opened Failures
  import opened Breaker
  import opened Events

  /** The decoded JSON field the client reads (`job_id` or `result`), or the decoding exception. */
  datatype Body = Field(value: string) | Undecodable(exc: Exc)

  datatype Response = Response(code: int, body: Body)

  /** What one transport call gives back: an exception, or a response. */
  datatype Outcome = Threw(exc: Exc) | Answered(response: Response)

  /** A request the client sends: `POST /job` or `GET /status/<job>`. */
  datatype Request = PostJob | GetStatusOf(job: string)

  datatype Effect<T> = Effect(result: Result<T, Failure>, breaker: BreakerState, events: seq<Event>, sent: seq<Request>)

  /** `raise_for_status` raises for every client (4xx) and server (5xx) error code. */
  predicate IsHttpErrorCode(code: int)
  {
    400 <= code < 600
  }

  function ErrorEvent(job: string, f: Failure): Event
  {
    Event(ErrorOccurred, One(job), Error(f))
  }

  function RejectedEvent(job: string): Event
  {
    Event(CircuitBreakerOpened, One(job), NoDetail)
  }

  /** Every event is an error report or a breaker rejection. */
  predicate OnlyFailureEvents(es: seq<Event>)
  {
    forall k :: 0 <= k < |es| ==> es[k].kind == ErrorOccurred || es[k].kind == CircuitBreakerOpened
  }

  /** The job id a create call yields once `raise_for_status` and decoding have run. */
  function Received(reply: Outcome): (r: Result<string, Exc>)
    ensures r.Ok? <==> reply.Answered? && !IsHttpErrorCode(reply.response.code) && reply.response.body.Field?
    ensures reply.Answered? && IsHttpErrorCode(reply.response.code) ==> r == Err(HttpError(reply.response.code))
  {
    match reply
    case Threw(e) => Err(e)
    case Answered(resp) =>
      if IsHttpErrorCode(resp.code) then Err(HttpError(resp.code))
      else match resp.body
        case Field(v) => Ok(v)
        case Undecodable(e) => Err(e)
  }

  /**
   * `create_job`: a rejected call reports the open breaker and raises without a
   * request; otherwise success closes the breaker and reports the new job, and
   * any failure is counted, reported once and re-raised unchanged.
   */
  function CreateJob(c: BreakerConfig, s: BreakerState, now: real, reply: Outcome): (op: Effect<string>)
    requires Inv(c, s)
    ensures Inv(c, op.breaker)
    ensures |op.events| == 1 && op.events[0].kind != BatchOperation
    ensures var g := Check(c, s, now);
      && (op.sent == [] <==> !g.permitted)
      && (!g.permitted ==> op == Effect(Err(BreakerRejected), g.state, [RejectedEvent("")], []))
      && (g.permitted ==> op.sent == [PostJob])
      && (op.result.Ok? <==> g.permitted && Received(reply).Ok?)
      && (op.result.Ok? ==>
            && op.result.value == Received(reply).value
            && op.breaker.failures == 0 && !op.breaker.isOpen
            && op.events == [Event(JobCreated, One(op.result.value), NoDetail)])
      && (g.permitted && op.result.Err? ==>
            && op.result == Err(Raised(Received(reply).error))
            && op.breaker == AfterFailure(c, g.state, now)
            && op.events == [ErrorEvent("", op.result.error)])
  {
    var g := Check(c, s, now);
    if !g.permitted then
      Effect(Err(BreakerRejected), g.state, [RejectedEvent("")], [])
    else
      match Received(reply)
      case Ok(id) => Effect(Ok(id), AfterSuccess(g.state), [Event(JobCreated, One(id), NoDetail)], [PostJob])
      case Err(e) => Effect(Err(Raised(e)), AfterFailure(c, g.state, now), [ErrorEvent("", Raised(e))], [PostJob])
  }

  /**
   * The outer `except RequestException` of `get_status`: report the exception,
   * count the failure, then raise `RetryableError` if it is retryable and the
   * exception itself otherwise.
   */
  function Caught(c: BreakerConfig, s: BreakerState, now: real, job: string, e: Exc,
                  before: seq<Event>, sent: seq<Request>): (op: Effect<string>)
    requires Inv(c, s)
    ensures Inv(c, op.breaker) && op.breaker == AfterFailure(c, s, now)
    ensures op.events == before + [ErrorEvent(job, Raised(e))] && op.sent == sent
    ensures op.result == Err(Retryable(e)) <==> ShouldRetry(e)
    ensures op.result.Err? && (op.result == Err(Raised(e)) || op.result == Err(Retryable(e)))
  {
    Effect(if ShouldRetry(e) then Err(Retryable(e)) else Err(Raised(e)), AfterFailure(c, s, now),
           before + [ErrorEvent(job, Raised(e))], sent)
  }

  /**
   * `get_status`. An HTTP error response is reported and counted by the inner
   * handler and then caught again by the outer one, so it is reported and
   * counted twice. A successful response closes the breaker before the body is
   * decoded and emits no event.
   */
  function GetStatus(c: BreakerConfig, s: BreakerState, now: real, job: string, reply: Outcome): (op: Effect<string>)
    requires Inv(c, s)
    ensures Inv(c, op.breaker)
    ensures OnlyFailureEvents(op.events) && |op.events| <= 2
    ensures var g := Check(c, s, now);
      && (op.sent == [] <==> !g.permitted)
      && (!g.permitted ==> op == Effect(Err(BreakerRejected), g.state, [RejectedEvent(job)], []))
      && (g.permitted ==> op.sent == [GetStatusOf(job)] && op == Respond(c, g.state, now, job, reply))
      && (g.permitted && reply.Answered? && IsHttpErrorCode(reply.response.code) ==>
            var e := HttpError(reply.response.code);
            && op.events == [ErrorEvent(job, Raised(e)), ErrorEvent(job, Raised(e))]
            && op.breaker == AfterFailure(c, AfterFailure(c, g.state, now), now)
            && op.breaker.failures == g.state.failures + 2 && op.breaker.lastFailureTime == Some(now)
            && (op.result == Err(Retryable(e)) <==> 500 <= e.code < 600)
            && (op.result == Err(Raised(e)) <==> e.code < 500))
      && (g.permitted && reply.Answered? && !IsHttpErrorCode(reply.response.code) && reply.response.body.Field? ==>
            op == Effect(Ok(reply.response.body.value), AfterSuccess(g.state), [], [GetStatusOf(job)]))
      && (op.result.Ok? ==>
            && reply.Answered? && !IsHttpErrorCode(reply.response.code)
            && reply.response.body == Field(op.result.value)
            && op.events == [] && op.breaker == AfterSuccess(g.state))
    ensures op.result.Err? ==>
      op.result.error.Raised? || op.result.error.Retryable? || op.result.error == BreakerRejected
    ensures op.result.Err? && op.result.error.Retryable? ==> ShouldRetry(op.result.error.cause)
    ensures op.result.Err? && op.result.error.Raised? && IsRequestException(op.result.error.exc) ==>
      !ShouldRetry(op.result.error.exc)
  {
    var g := Check(c, s, now);
    if !g.permitted then
      Effect(Err(BreakerRejected), g.state, [RejectedEvent(job)], [])
    else
      Respond(c, g.state, now, job, reply)
  }

  /**
   * A closed breaker that has counted `f` failures opens on an HTTP error reply
   * exactly when `f + 2` reaches the threshold, since the error is counted twice;
   * with a positive reset timeout, the next `get_status` at the same time is
   * then rejected with `CIRCUIT_BREAKER_OPENED` and sends nothing.
   */
  lemma HttpErrorOpens(c: BreakerConfig, s: BreakerState, now: real, job: string, resp: Response,
                       next: string, reply: Outcome)
    requires Inv(c, s) && !s.isOpen && IsHttpErrorCode(resp.code)
    ensures var op := GetStatus(c, s, now, job, Answered(resp));
      && (op.breaker.isOpen <==> s.failures + 2 >= c.failureThreshold)
      && (op.breaker.isOpen && c.resetTimeout > 0.0 ==>
            GetStatus(c, op.breaker, now, next, reply) == Effect(Err(BreakerRejected), op.breaker, [RejectedEvent(next)], []))
  {
    var op := GetStatus(c, s, now, job, Answered(resp));
    assert op.breaker == AfterFailure(c, AfterFailure(c, s, now), now);
  }

  /**
   * With the client's breaker, three 404 replies for an unknown job at one
   * moment open a fresh breaker, and the fourth request is refused.
   */
  lemma UnknownJobOpensBreaker(now: real, job: string, body: Body, reply: Outcome)
    ensures var r := Answered(Response(404, body));
      var op1 := GetStatus(DefaultBreaker, Fresh, now, job, r);
      var op2 := GetStatus(DefaultBreaker, op1.breaker, now, job, r);
      var op3 := GetStatus(DefaultBreaker, op2.breaker, now, job, r);
      && !op1.breaker.isOpen && !op2.breaker.isOpen && op3.breaker.isOpen
      && GetStatus(DefaultBreaker, op3.breaker, now, job, reply).events == [RejectedEvent(job)]
  {
    var r := Answered(Response(404, body));
    HttpErrorOpens(DefaultBreaker, Fresh, now, job, r.response, job, reply);
    var op1 := GetStatus(DefaultBreaker, Fresh, now, job, r);
    HttpErrorOpens(DefaultBreaker, op1.breaker, now, job, r.response, job, reply);
    var op2 := GetStatus(DefaultBreaker, op1.breaker, now, job, r);
    HttpErrorOpens(DefaultBreaker, op2.breaker, now, job, r.response, job, reply);
  }

  /**
   * The part of `get_status` after the breaker admits the request: the request
   * is sent and its reply handled. A transport exception of the HTTP library is
   * reported once and counted once, and a connection failure or time-out is
   * raised again as `RetryableError`. Any other exception escapes unreported and
   * uncounted. A success response closes the breaker before its body is decoded,
   * so a body that does not decode leaves it closed or counts one failure on top.
   */
  function Respond(c: BreakerConfig, s: BreakerState, now: real, job: string, reply: Outcome): (op: Effect<string>)
    requires Inv(c, s)
    ensures Inv(c, op.breaker) && op.sent == [GetStatusOf(job)]
    ensures reply.Threw? && IsRequestException(reply.exc) ==>
      && op.events == [ErrorEvent(job, Raised(reply.exc))] && op.breaker == AfterFailure(c, s, now)
      && (op.result == Err(Retryable(reply.exc)) <==> ShouldRetry(reply.exc))
      && (op.result == Err(Raised(reply.exc)) <==> !ShouldRetry(reply.exc))
    ensures reply.Threw? && (reply.exc == ConnError || reply.exc == TimeoutErr) ==>
      && op.events == [ErrorEvent(job, Raised(reply.exc))] && op.breaker == AfterFailure(c, s, now)
      && op.result == Err(Retryable(reply.exc))
    ensures reply.Threw? && !IsRequestException(reply.exc) ==>
      op.events == [] && op.breaker == s && op.result == Err(Raised(reply.exc))
    ensures reply.Answered? && !IsHttpErrorCode(reply.response.code) && reply.response.body.Undecodable? ==>
      var e := reply.response.body.exc;
      && (IsRequestException(e) ==>
            && op.events == [ErrorEvent(job, Raised(e))] && op.breaker == AfterFailure(c, AfterSuccess(s), now)
            && (op.result == Err(Retryable(e)) <==> ShouldRetry(e))
            && (op.result == Err(Raised(e)) <==> !ShouldRetry(e)))
      && (!IsRequestException(e) ==> op.events == [] && op.breaker == AfterSuccess(s) && op.result == Err(Raised(e)))
    ensures reply.Answered? && !IsHttpErrorCode(reply.response.code) && reply.response.body.Field? ==>
      op == Effect(Ok(reply.response.body.value), AfterSuccess(s), [], [GetStatusOf(job)])
    ensures reply.Answered? && IsHttpErrorCode(reply.response.code) ==>
      var e := HttpError(reply.response.code);
      && op.events == [ErrorEvent(job, Raised(e)), ErrorEvent(job, Raised(e))]
      && op.breaker == AfterFailure(c, AfterFailure(c, s, now), now)
      && (op.result == Err(Retryable(e)) <==> 500 <= e.code < 600)
      && (op.result == Err(Raised(e)) <==> e.code < 500)
    ensures op.result.Ok? <==> reply.Answered? && !IsHttpErrorCode(reply.response.code) && reply.response.body.Field?
  {
    var sent := [GetStatusOf(job)];
    match reply
    case Threw(e) =>
      if IsRequestException(e) then Caught(c, s, now, job, e, [], sent)
      else Effect(Err(Raised(e)), s, [], sent)
    case Answered(resp) =>
      if IsHttpErrorCode(resp.code) then
        var e := HttpError(resp.code);
        Caught(c, AfterFailure(c, s, now), now, job, e, [ErrorEvent(job, Raised(e))], sent)
      else
        var closed := AfterSuccess(s);
        match resp.body
        case Field(v) => Effect(Ok(v), closed, [], sent)
        case Undecodable(e) =>
          if IsRequestException(e) then Caught(c, closed, now, job, e, [], sent)
          else Effect(Err(Raised(e)), closed, [], sent)
  }

  /** The successful values of a run of results, in order. */
  function Successes(rs: seq<Result<string, Failure>>): seq<string>
  {
    if rs == [] then []
    else Successes(rs[..|rs| - 1]) + (match rs[|rs| - 1] case Ok(v) => [v] case Err(_) => [])
  }

  /** The failures of a run of results, in order. */
  function Errors(rs: seq<Result<string, Failure>>): seq<Failure>
  {
    if rs == [] then []
    else Errors(rs[..|rs| - 1]) + (match rs[|rs| - 1] case Ok(_) => [] case Err(f) => [f])
  }

  lemma {:induction false} SuccessesAndErrors(rs: seq<Result<string, Failure>>)
    ensures |Successes(rs)| + |Errors(rs)| == |rs|
  {
    if rs != [] {
      SuccessesAndErrors(rs[..|rs| - 1]);
    }
  }

  /** The ids whose status check failed, with their failure, in order. */
  function FailedIds(ids: seq<string>, rs: seq<Result<string, Failure>>): seq<(string, Failure)>
    requires |ids| == |rs|
  {
    if rs == [] then []
    else FailedIds(ids[..|ids| - 1], rs[..|rs| - 1])
         + (match rs[|rs| - 1] case Ok(_) => [] case Err(f) => [(ids[|ids| - 1], f)])
  }

  /** What `create_batch_jobs` has gathered after some attempts. */
  datatype CreateTally = CreateTally(
    ids: seq<string>, errors: seq<Failure>, results: seq<Result<string, Failure>>,
    breaker: BreakerState, events: seq<Event>, sent: seq<Request>)

  /** One attempt of `create_batch_jobs`: a `create_job`, whose id or error is kept, its exception swallowed. */
  function CreateStep(c: BreakerConfig, now: real, t: CreateTally, reply: Outcome): (t': CreateTally)
    requires Inv(c, t.breaker)
    ensures Inv(c, t'.breaker)
  {
    var op := CreateJob(c, t.breaker, now, reply);
    CreateTally(
      t.ids + (if op.result.Ok? then [op.result.value] else []),
      t.errors + (if op.result.Err? then [op.result.error] else []),
      t.results + [op.result], op.breaker, t.events + op.events, t.sent + op.sent)
  }

  /** The attempts of `create_batch_jobs`, one `create_job` per reply, none aborting the rest. */
  function CreateEach(c: BreakerConfig, s: BreakerState, now: real, replies: seq<Outcome>): (t: CreateTally)
    requires Inv(c, s)
    ensures Inv(c, t.breaker)
  {
    if replies == [] then CreateTally([], [], [], s, [], [])
    else CreateStep(c, now, CreateEach(c, s, now, replies[..|replies| - 1]), replies[|replies| - 1])
  }

  /** What a tally over `n` attempts has gathered: one result each, split into ids and errors in order. */
  predicate CreateFacts(n: nat, t: CreateTally)
  {
    && |t.results| == n && t.ids == Successes(t.results) && t.errors == Errors(t.results)
    && |t.ids| + |t.errors| == n
    && |t.events| == n && Without(t.events, BatchOperation)
    && |t.sent| <= n
  }

  /** Every attempt yields exactly one result, one event and at most one request; ids and errors partition the results. */
  lemma {:induction false} CreateEachFacts(c: BreakerConfig, s: BreakerState, now: real, replies: seq<Outcome>)
    requires Inv(c, s)
    ensures CreateFacts(|replies|, CreateEach(c, s, now, replies))
  {
    if replies != [] {
      var n := |replies| - 1;
      var prev := CreateEach(c, s, now, replies[..n]);
      CreateEachFacts(c, s, now, replies[..n]);
      var t := CreateStep(c, now, prev, replies[n]);
      assert t.results[..n] == prev.results;
      SuccessesAndErrors(t.results);
    }
  }

  /** One more attempt extends the tally by one step. */
  lemma CreateEachSnoc(c: BreakerConfig, s: BreakerState, now: real, replies: seq<Outcome>, reply: Outcome)
    requires Inv(c, s)
    ensures CreateEach(c, s, now, replies + [reply]) == CreateStep(c, now, CreateEach(c, s, now, replies), reply)
  {
    assert (replies + [reply])[..|replies|] == replies;
  }

  /** The tally after the first `i + 1` replies is one step past the tally after the first `i`. */
  lemma CreateEachNext(c: BreakerConfig, s: BreakerState, now: real, replies: seq<Outcome>, i: nat)
    requires Inv(c, s) && i < |replies|
    ensures CreateEach(c, s, now, replies[..i + 1]) == CreateStep(c, now, CreateEach(c, s, now, replies[..i]), replies[i])
  {
    assert replies[..i + 1] == replies[..i] + [replies[i]];
    CreateEachSnoc(c, s, now, replies[..i], replies[i]);
  }

  function CreateSummaryEvent(t: CreateTally): Event
  {
    Event(BatchOperation, Many(t.ids), CreateSummary(|t.ids|, |t.errors|, t.errors))
  }

  /**
   * `create_batch_jobs(n)`: exactly n attempts; the batch itself never fails;
   * one summary event whose counts add up to n; the ids created, in order.
   */
  function CreateBatchJobs(c: BreakerConfig, s: BreakerState, now: real, replies: seq<Outcome>): (op: Effect<seq<string>>)
    requires Inv(c, s)
    ensures Inv(c, op.breaker)
    ensures op.result.Ok? && |op.result.value| <= |replies|
    ensures |op.events| == |replies| + 1 && Count(op.events, BatchOperation) == 1
    ensures var last := op.events[|op.events| - 1];
      && last.kind == BatchOperation && last.job == Many(op.result.value) && last.detail.CreateSummary?
      && last.detail.successCount == |op.result.value|
      && last.detail.successCount + last.detail.errorCount == |replies|
  {
    var t := CreateEach(c, s, now, replies);
    CreateEachFacts(c, s, now, replies);
    var events := t.events + [CreateSummaryEvent(t)];
    CountAbsent(t.events, BatchOperation);
    CountAppend(t.events, [CreateSummaryEvent(t)], BatchOperation);
    Effect(Ok(t.ids), t.breaker, events, t.sent)
  }

  /** The status `get_batch_status` records for one result: the value, or "error". */
  function Shown(r: Result<string, Failure>): (status: string)
    ensures r.Ok? ==> status == r.value
    ensures r.Err? ==> status == "error"
  {
    match r
    case Ok(v) => v
    case Err(_) => "error"
  }

  /** What `get_batch_status` has gathered after some ids. */
  datatype StatusTally = StatusTally(
    statuses: map<string, string>, errors: seq<(string, Failure)>, results: seq<Result<string, Failure>>,
    breaker: BreakerState, events: seq<Event>, sent: seq<Request>)

  /** Position k holds the last occurrence of its id. */
  predicate LastAt(ids: seq<string>, k: int)
    requires 0 <= k < |ids|
  {
    ids[k] !in ids[k + 1..]
  }

  /** Each id's last occurrence decides its entry of `m`. */
  predicate ShownAtLast(m: map<string, string>, ids: seq<string>, rs: seq<Result<string, Failure>>)
    requires |rs| == |ids|
  {
    forall k {:trigger LastAt(ids, k)} :: 0 <= k < |ids| && LastAt(ids, k) ==> ids[k] in m && m[ids[k]] == Shown(rs[k])
  }

  lemma ShownAtLastSnoc(m: map<string, string>, ids: seq<string>, rs: seq<Result<string, Failure>>, x: string, r: Result<string, Failure>)
    requires |rs| == |ids| && ShownAtLast(m, ids, rs)
    ensures ShownAtLast(m[x := Shown(r)], ids + [x], rs + [r])
  {
    var ids', rs', m' := ids + [x], rs + [r], m[x := Shown(r)];
    forall k | 0 <= k < |ids'| && LastAt(ids', k)
      ensures ids'[k] in m' && m'[ids'[k]] == Shown(rs'[k])
    {
      if k < |ids| {
        assert ids'[k] == ids[k] && rs'[k] == rs[k];
        assert ids'[k + 1..] == ids[k + 1..] + [x];
        assert ids[k] != x && LastAt(ids, k);
      } else {
        assert ids'[k] == x && rs'[k] == r;
      }
    }
  }

  lemma KeysSnoc(m: map<string, string>, ids: seq<string>, x: string, v: string)
    requires m.Keys == set id | id in ids
    ensures m[x := v].Keys == set id | id in ids + [x]
  {
    assert forall id :: id in ids + [x] <==> id in ids || id == x;
  }

  /** One id of `get_batch_status`: a `get_status`, its status or "error" recorded, a failure also listed. */
  function StatusStep(c: BreakerConfig, now: real, t: StatusTally, id: string, reply: Outcome): (t': StatusTally)
    requires Inv(c, t.breaker)
    ensures Inv(c, t'.breaker)
  {
    var op := GetStatus(c, t.breaker, now, id, reply);
    StatusTally(
      t.statuses[id := Shown(op.result)],
      t.errors + (if op.result.Err? then [(id, op.result.error)] else []),
      t.results + [op.result], op.breaker, t.events + op.events, t.sent + op.sent)
  }

  /** What a tally over `ids` has gathered: an entry per id, the failures in order, the last status per id. */
  predicate StatusFacts(ids: seq<string>, t: StatusTally)
  {
    && t.statuses.Keys == (set id | id in ids)
    && |t.results| == |ids| && t.errors == FailedIds(ids, t.results)
    && ShownAtLast(t.statuses, ids, t.results)
    && OnlyFailureEvents(t.events)
    && |t.sent| <= |ids|
  }

  lemma StatusStepKeeps(c: BreakerConfig, now: real, t: StatusTally, ids: seq<string>, id: string, reply: Outcome)
    requires Inv(c, t.breaker) && StatusFacts(ids, t)
    ensures StatusFacts(ids + [id], StatusStep(c, now, t, id, reply))
  {
    var t' := StatusStep(c, now, t, id, reply);
    var ids' := ids + [id];
    assert t'.results[..|ids|] == t.results && ids'[..|ids|] == ids;
    ShownAtLastSnoc(t.statuses, ids, t.results, id, t'.results[|ids|]);
    KeysSnoc(t.statuses, ids, id, Shown(t'.results[|ids|]));
  }

  /** One `get_status` per id in order, each with its own reply; a failure marks that id "error". */
  function StatusEach(c: BreakerConfig, s: BreakerState, now: real, ids: seq<string>, replies: seq<Outcome>): (t: StatusTally)
    requires Inv(c, s) && |replies| == |ids|
    ensures Inv(c, t.breaker)
  {
    if ids == [] then StatusTally(map[], [], [], s, [], [])
    else
      var n := |ids| - 1;
      StatusStep(c, now, StatusEach(c, s, now, ids[..n], replies[..n]), ids[n], replies[n])
  }

  /**
   * Every id gets an entry, the entry of an id is the outcome of its last check,
   * the failures are listed in order, and only failures are reported.
   */
  lemma {:induction false} StatusEachFacts(c: BreakerConfig, s: BreakerState, now: real, ids: seq<string>, replies: seq<Outcome>)
    requires Inv(c, s) && |replies| == |ids|
    ensures StatusFacts(ids, StatusEach(c, s, now, ids, replies))
  {
    if ids == [] {
      assert (set id | id in ids) == {};
    } else {
      var n := |ids| - 1;
      var prev := StatusEach(c, s, now, ids[..n], replies[..n]);
      StatusEachFacts(c, s, now, ids[..n], replies[..n]);
      StatusStepKeeps(c, now, prev, ids[..n], ids[n], replies[n]);
      SplitLast(ids);
    }
  }

  /** One more id extends the tally by one step. */
  lemma StatusEachSnoc(c: BreakerConfig, s: BreakerState, now: real, ids: seq<string>, replies: seq<Outcome>,
                       id: string, reply: Outcome)
    requires Inv(c, s) && |replies| == |ids|
    ensures StatusEach(c, s, now, ids + [id], replies + [reply]) == StatusStep(c, now, StatusEach(c, s, now, ids, replies), id, reply)
  {
    assert (ids + [id])[..|ids|] == ids && (replies + [reply])[..|ids|] == replies;
  }

  /** The tally after the first `i + 1` ids is one step past the tally after the first `i`. */
  lemma StatusEachNext(c: BreakerConfig, s: BreakerState, now: real, ids: seq<string>, replies: seq<Outcome>, i: nat)
    requires Inv(c, s) && |replies| == |ids| && i < |ids|
    ensures StatusEach(c, s, now, ids[..i + 1], replies[..i + 1])
         == StatusStep(c, now, StatusEach(c, s, now, ids[..i], replies[..i]), ids[i], replies[i])
  {
    assert ids[..i + 1] == ids[..i] + [ids[i]] && replies[..i + 1] == replies[..i] + [replies[i]];
    StatusEachSnoc(c, s, now, ids[..i], replies[..i], ids[i], replies[i]);
  }

  function StatusSummaryEvent(ids: seq<string>, t: StatusTally): Event
  {
    Event(BatchOperation, Many(ids), StatusSummary(t.statuses, |t.errors|, t.errors))
  }

  /**
   * `get_batch_status`: every id is mapped, failed ones to "error", the batch
   * itself never fails, and exactly one summary event closes it.
   */
  function GetBatchStatus(c: BreakerConfig, s: BreakerState, now: real, ids: seq<string>, replies: seq<Outcome>): (op: Effect<map<string, string>>)
    requires Inv(c, s) && |replies| == |ids|
    ensures Inv(c, op.breaker)
    ensures op.result.Ok? && op.result.value.Keys == set id | id in ids
    ensures Count(op.events, BatchOperation) == 1
    ensures var last := op.events[|op.events| - 1];
      last.kind == BatchOperation && last.job == Many(ids) && last.detail.StatusSummary?
      && last.detail.statuses == op.result.value
    ensures OnlyFailureEvents(op.events[..|op.events| - 1])
  {
    var t := StatusEach(c, s, now, ids, replies);
    StatusEachFacts(c, s, now, ids, replies);
    var events := t.events + [StatusSummaryEvent(ids, t)];
    assert events[..|events| - 1] == t.events;
    CountAbsent(t.events, BatchOperation);
    CountAppend(t.events, [StatusSummaryEvent(ids, t)], BatchOperation);
    Effect(Ok(t.statuses), t.breaker, events, t.sent)
  }
}
