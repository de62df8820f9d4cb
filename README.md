# Resilient translation-job client and mock server, in Dafny

This project models the two halves of a small translation-job system and proves properties of the model.

- **The polling client** (`client/client.py`) creates jobs on a server, asks for their status and waits for them to finish. Its parts:
  - a **circuit breaker**: a consecutive-failure counter, the time of the last failure and an open flag;
  - an **event bus**: per-type listener lists and an append-only history;
  - **capped exponential backoff with jitter**, and a **failure classifier** that decides which exceptions are retryable;
  - the **job operations** `create_job`, `get_status`, `create_batch_jobs` and `get_batch_status`;
  - the **wait loops** `wait_for_completion` and `wait_for_batch_completion`.
- **The mock server** (`server/app.py`) has a `JobManager`. It keeps a table of jobs whose status moves from pending to completed once their processing time has passed. It also has two routes, `POST /job` and `GET /status/<id>`.

The modules follow the program:

| module | models |
|---|---|
| `Failures` | the exception kinds and `_should_retry` |
| `Backoff` | `_add_jitter` and `_get_next_interval` |
| `Breaker` | `CircuitBreaker`, as functions plus a class |
| `Events` | `Event`, `EventType` and `EventHandler` |
| `JobOps` | the four job operations, as functions of the breaker state and the transport replies |
| `Orchestrator` | `wait_for_completion` |
| `Batches` | `wait_for_batch_completion` |
| `Client` | the `TranslationClient` object, plus a `Clock` and the caller's job list |
| `Server` | `JobManager` and the route decisions |

Each operation that changes state is a method of a class. Each such method is proved to follow a specification function, and the properties are lemmas about these functions.

The transport is modelled as a script: every HTTP call takes one `Outcome`, either an exception or a response with a code and a decoded field. `_add_jitter` draws `random.uniform(-jitter, jitter)` with `jitter = interval * jitter_factor`; the model takes a `Draw` in [-1, 1] as a parameter and scales it by `interval * jitterFactor` (`Backoff.AddJitter`). Time is a `Clock` object that only `time.sleep` advances. In the server, the clock reading is a `now` parameter.

A wait loop runs over a finite script of polls, and the script is its termination measure. Running out of script ends a run with `ScriptEnded` (or `BatchScriptEnded`). This stands for "the loop is still polling": the source loop has no bound on its polls, and ends only at its deadline, on a final status, or by raising an error (a fatal failure, exhausted retries or a negative sleep in `wait_for_completion`, a negative sleep in `wait_for_batch_completion`).

Several behaviours of the code are modelled as written:

- **Breaker rejection.** The breaker rejects with `RuntimeError`, not the unused `CircuitBreakerError`. This is `Failure.BreakerRejected`.
- **HTTP errors are counted twice.** In `get_status`, an HTTP error is reported and counted by the inner handler. It is then caught again by the outer `except RequestException`. So it gives two `ERROR_OCCURRED` events and two `record_failure` calls.
- **Exceptions outside the HTTP library escape `get_status` silently.** A reply whose success body lacks the `result` key raises a `KeyError`. The outer handler catches only `RequestException`, so `get_status` raises it with no `ERROR_OCCURRED` and no `record_failure`, after `record_success` has already closed the breaker. Inside `wait_for_completion`, the generic handler then reports it once.
- **No clamp on jitter.** `_add_jitter` (client/client.py:140-142) does not clamp the interval at 0, and `PollingConfig` validates nothing. The model follows the code: `Backoff.UnclampedJitterGoesNegative` exhibits a negative interval, and `Backoff.NextIntervalNonNegative` shows that a sane configuration never produces one. A negative `time.sleep` raises `ValueError`; the model carries this as `Failure.NegativeSleep`.
- **The retry event.** `RETRY_ATTEMPTED` carries the interval before it is advanced.
- **Retries exhausted.** The "max retries" error is raised inside the `RetryableError` handler, so no `ERROR_OCCURRED` follows it.
- **Job failed.** The error-status failure is raised inside the `try`, so `JOB_FAILED` is followed by an `ERROR_OCCURRED`.
- **Deadline.** The deadline `TimeoutError` is raised outside the `try`, so it emits only `TIMEOUT`.

## Model

| member | source | states |
|---|---|---|
| Failures.ShouldRetry | client/client.py:151-159 | retryable exactly for HTTP 5xx, connection errors and transport time-outs; never for 4xx or for exceptions outside the HTTP library |
| Backoff.AddJitter | client/client.py:140-142 | a zero draw, a zero jitter factor or a zero interval leaves the interval unchanged; the band it stays in is `AddJitterBand` |
| Backoff.AddJitterBand | client/client.py:140-142 | the jittered interval lies in `interval*(1-j) .. interval*(1+j)` |
| Backoff.AddJitterNonNegative | client/client.py:140-142 | with `0 <= j <= 1` and a non-negative interval, jitter never makes it negative |
| Backoff.NextInterval | client/client.py:144-149 | with `base = min(current*multiplier, max_interval)`, the result lies in `base*(1-j) .. base*(1+j)`, hence never above `max_interval*(1+j)` |
| Backoff.NextIntervalNonNegative | client/client.py:144-149 | for a sane configuration and `current >= 0`, the next interval is in `0 .. max_interval*(1+j)` |
| Backoff.DefaultPollingSane | client/client.py:61-74 | the default configuration is sane: the first sleep lies in 0.9 .. 1.1 and no sleep exceeds 5.5 |
| Backoff.UnclampedJitterGoesNegative | client/client.py:140-142 | the missing clamp: a jitter factor of 2 with the lowest draw yields a negative interval |
| Breaker.AfterFailure | client/client.py:84-88 | failures go up by one and the failure time is now; open iff the threshold is reached (from a valid state); never closes; keeps the invariant |
| Breaker.AfterSuccess | client/client.py:90-92 | zero failures and closed |
| Breaker.Check | client/client.py:94-103 | permits iff closed or the reset timeout has passed; a closed or refusing breaker is unchanged; a permitting open one closes with zero failures |
| Breaker.FailuresAt | client/client.py:84-88 | k failures in a row add k to the count and stamp the time |
| Breaker.ThresholdFailuresOpen | client/client.py:84-103 | after `failure_threshold` failures at time t, with a positive reset timeout, the breaker is open and refuses at t |
| Breaker.CircuitBreaker.constructor | client/client.py:77-82 | a new breaker keeps its configuration and starts closed, with no failures and no failure time |
| Breaker.CircuitBreaker.RecordFailure | client/client.py:84-88 | the object's new state is `AfterFailure` of its old state |
| Breaker.CircuitBreaker.RecordSuccess | client/client.py:90-92 | the object's new state is `AfterSuccess` of its old state |
| Breaker.CircuitBreaker.CanExecute | client/client.py:94-103 | the answer and the new state are those of `Check` |
| Events.Notify | client/client.py:121-125 | one invocation per listener, in order, each on the event and recording whether that listener raised, whether or not earlier ones raised |
| Events.NotifyAllAppend | client/client.py:119-125 | dispatching `a` then `b` makes the invocations of `a` followed by those of `b` |
| Events.EventHandler.constructor | client/client.py:106-110 | every event type has an empty listener list; the history is empty |
| Events.EventHandler.Subscribe | client/client.py:112-113 | appends the callback to that type's list only; history unchanged |
| Events.EventHandler.Unsubscribe | client/client.py:115-117 | removes the first occurrence from that type's list, and nothing if it is absent |
| Events.EventHandler.Dispatch | client/client.py:119-125 | appends exactly the event to the history, leaves the listeners unchanged, invokes every listener of its type in order |
| JobOps.Received | client/client.py:183-185 | a create call yields an id iff the reply is a non-error response with a decodable field; an error code becomes an `HTTPError` |
| JobOps.CreateJob | client/client.py:171-206 | rejected: one `CIRCUIT_BREAKER_OPENED`, `BreakerRejected`, no request; success: breaker closed, one `JOB_CREATED` with the id; failure: `record_failure`, one `ERROR_OCCURRED`, the exception re-raised unchanged |
| JobOps.Caught | client/client.py:267-279 | the outer handler reports once, counts a failure, and raises `RetryableError` iff `_should_retry` |
| JobOps.GetStatus | client/client.py:234-279 | rejected: one `CIRCUIT_BREAKER_OPENED`, no request; admitted: one request, and the outcome of `Respond` on the admitting breaker state; a non-error reply with a decodable body returns that value, closes the breaker and emits nothing, and that is the only way to succeed; an HTTP error gives two `ERROR_OCCURRED`, a breaker that has recorded two failures (`AfterFailure` twice), and `RetryableError` iff 5xx; success emits no event and closes the breaker |
| JobOps.HttpErrorOpens | client/client.py:234-262 | from a closed breaker with f failures, one HTTP error opens it exactly when f + 2 reaches the threshold; the next `get_status` at that moment is then refused with `CIRCUIT_BREAKER_OPENED` and sends nothing |
| JobOps.UnknownJobOpensBreaker | client/client.py:234-262 | with the client's breaker (threshold 5), three 404 replies open a fresh breaker and the fourth request is refused with `CIRCUIT_BREAKER_OPENED` |
| JobOps.Respond | client/client.py:245-279 | a transport exception of the HTTP library gives one `ERROR_OCCURRED`, one failure, and `RetryableError` exactly when retryable (always for a connection failure or time-out); any other exception gives no event, leaves the breaker alone and is raised unchanged; an HTTP error response is reported and counted by the inner handler and again by the outer one, so two `ERROR_OCCURRED`, `AfterFailure` twice, and `RetryableError` iff 5xx; a non-error reply with a decodable body returns its value with the breaker closed and no event, and only such a reply succeeds; an undecodable success body closes the breaker first, then is handled the same way |
| JobOps.SuccessesAndErrors | client/client.py:210-226 | the ids and the errors together account for every attempt |
| JobOps.CreateEach | client/client.py:213-218 | one `create_job` per reply, none aborting the rest, keeping the breaker invariant throughout; what the tally holds is `CreateEachFacts` |
| JobOps.CreateEachFacts | client/client.py:213-218 | n attempts give n results, the ids in order are the successes, and ids plus errors number n |
| JobOps.CreateBatchJobs | client/client.py:208-232 | at most n ids; exactly one `BATCH_OPERATION`, last, whose success count is the ids returned and whose counts add up to n |
| JobOps.ShownAtLastSnoc | client/client.py:286-292 | recording one more id keeps every id's entry equal to the outcome of its last check |
| JobOps.StatusStepKeeps | client/client.py:286-292 | one more `get_status` keeps the tally's facts: one entry per id, failures in order, the last outcome per id |
| JobOps.StatusEach | client/client.py:286-292 | one `get_status` per id, its exception swallowed, keeping the breaker invariant throughout; what the tally holds is `StatusEachFacts` |
| JobOps.StatusEachFacts | client/client.py:286-292 | every id gets an entry, a failed check shows "error", failures are listed in order, only failure events are emitted |
| JobOps.GetBatchStatus | client/client.py:281-306 | the keys are exactly the input ids; exactly one `BATCH_OPERATION`, last, carrying the returned map; every earlier event is a failure report |
| Orchestrator.OnStatus | client/client.py:329-361 | a successful poll reports exactly one `STATUS_CHANGED`, right after the poll's own events, if the status is new, and none if it is not; it records the status as last; "completed" then returns after `JOB_COMPLETED`; "error" fails after `JOB_FAILED` and the generic `ERROR_OCCURRED`; any other status grows the interval from the draw and sleeps it, advancing the clock, or fails on a negative one after one `ERROR_OCCURRED` |
| Orchestrator.Noted | client/client.py:331-340 | the poll's events followed by `STATUS_CHANGED` from the last status exactly when the status differs, counted once |
| Orchestrator.OnRetryable | client/client.py:363-378 | a retryable failure raises the retry count by one and keeps the last status; once the count passes 3 it aborts with "max retries" and no further event; otherwise it reports `RETRY_ATTEMPTED` with the old interval, grows the interval and sleeps it, and a negative one fails with no further event |
| Orchestrator.Wait | client/client.py:308-388 | the whole loop of `wait_for_completion` over a script of polls keeps the breaker invariant; what its runs do is stated by the `Wait…` lemmas below |
| Orchestrator.WaitStep | client/client.py:328-388 | one poll keeps the breaker invariant and the step facts: no `TIMEOUT`, a clock that does not go back, a change chain, the retry account, `JOB_COMPLETED` only when it returns; what each outcome of the poll does is stated by `WaitStepStatus` and `WaitStepFailure` |
| Orchestrator.WaitStepStatus | client/client.py:328-361 | a poll that gets a status: "completed" returns with `JOB_COMPLETED` last; "error" fails with `JOB_FAILED` and then `ERROR_OCCURRED` last; any other status records it, grows the interval and either sleeps it or fails with `NegativeSleep` |
| Orchestrator.WaitStepFailure | client/client.py:363-388 | a retryable failure spends one retry; past the budget it stops with "max retries" and only the poll's own events; within it, it grows the interval and sleeps it; any other failure ends the wait after one more `ERROR_OCCURRED` |
| Orchestrator.OnFatal | client/client.py:380-388 | any other failure of a poll ends the wait with that failure, after exactly one more `ERROR_OCCURRED` |
| Orchestrator.WaitCompletedEvents | client/client.py:351-358 | a run emits `JOB_COMPLETED` exactly once if it returns "completed", as its last event, and never otherwise |
| Orchestrator.WaitCompletedPollReturns | client/client.py:319-358 | a poll before the deadline that answers "completed" makes the wait return "completed", with `JOB_COMPLETED` last |
| Orchestrator.WaitErrorPollFails | client/client.py:319-388 | a poll before the deadline that answers "error" makes the wait fail, its last events `JOB_FAILED` then `ERROR_OCCURRED` |
| Orchestrator.WaitTimeoutEvents | client/client.py:319-326 | a run emits `TIMEOUT` exactly once, last, if the deadline ends it, and never otherwise |
| Orchestrator.WaitRetryBudget | client/client.py:363-375 | the retry count never resets; at most 3 `RETRY_ATTEMPTED`; the run aborts with "max retries" exactly on the 4th retryable failure |
| Orchestrator.WaitStatusChain | client/client.py:331-340 | every `STATUS_CHANGED` reports a status different from the one observed before it |
| Orchestrator.WaitFirstPollChanges | client/client.py:315-340 | the first successful poll always reports `STATUS_CHANGED`, right after the poll's own events |
| Orchestrator.WaitClock | client/client.py:360-377 | the clock never goes back, and a sane configuration never asks for a negative sleep |
| Batches.BatchWait | client/client.py:390-425 | the whole loop of `wait_for_batch_completion` over a script of rounds keeps the breaker invariant; what its runs do is stated by the `Batch…` lemmas below |
| Batches.UnresolvedMembers | client/client.py:416-420 | an id stays in the list exactly when it was there and its reported status is not final |
| Batches.ResolveKeys | client/client.py:416-419 | exactly the finished ids of the list are added to the final statuses |
| Batches.ResolveValues | client/client.py:416-419 | each finished id is recorded with its reported status; every other final status stays |
| Batches.Settle | client/client.py:415-420 | the inner loop keeps the tracked ids and the settled statuses, removes exactly the finished ids, records each with its status |
| Batches.NotSettled | client/client.py:400 | the ids named in the timeout are exactly those of the list without a final status |
| Batches.BatchRoundStep | client/client.py:413-423 | a round's events, requests and breaker are those of `get_batch_status` on the list; an id stays in the list iff it was there and its reported status is not final; each finished id is recorded with its reported status and settled ones keep theirs; with ids left it sleeps `NextInterval` of the initial interval (or fails on a negative one), with none left it does not sleep; the batch invariant holds, no id is lost or invented, no `TIMEOUT` is emitted, and a sane configuration always continues |
| Batches.BatchFinalRoundReturns | client/client.py:398-425 | a round before the deadline whose answer makes every id final ends the wait: it returns with the list empty, each id recorded with its reported status, and only the round's events |
| Batches.UnresolvedNone | client/client.py:416-420 | when every id is final, none stays in the list |
| Batches.BatchWaitKeeps | client/client.py:398-425 | a whole run keeps the invariant, never lets the list grow, never overwrites a settled status; it returns only with an empty list, returning the final statuses |
| Batches.BatchResolvedAll | client/client.py:395-425 | a returned map has exactly the given ids as keys, each "completed" or "error" |
| Batches.BatchTimeoutCount | client/client.py:399-411 | `TIMEOUT` is emitted exactly once if the deadline ends the run, and never otherwise |
| Batches.BatchTimeoutLast | client/client.py:399-411 | the deadline's `TIMEOUT` is last and names exactly the ids left in the list |
| Client.Clock.Sleep | client/client.py:361 | sleeping advances the clock by the duration, and a negative duration fails without moving it |
| Client.JobList.Remove | client/client.py:420 | `list.remove` takes out the first occurrence |
| Client.TranslationClient.constructor | client/client.py:128-138 | a fresh bus with no listeners and a closed breaker with threshold 5 and reset timeout 60 |
| Client.TranslationClient.On | client/client.py:161-164 | subscribes and returns the client itself |
| Client.TranslationClient.Off | client/client.py:166-169 | unsubscribes and returns the client itself |
| Client.TranslationClient.CreateJob | client/client.py:171-206 | result, breaker, requests and published events are those of `JobOps.CreateJob` |
| Client.TranslationClient.GetStatus | client/client.py:234-279 | result, breaker, requests and published events are those of `JobOps.GetStatus` |
| Client.TranslationClient.CreateBatchJobs | client/client.py:208-232 | the loop's ids, breaker, requests and events are those of `JobOps.CreateBatchJobs` |
| Client.TranslationClient.GetBatchStatus | client/client.py:281-306 | the loop's map, breaker, requests and events are those of `JobOps.GetBatchStatus` |
| Client.TranslationClient.WaitForCompletion | client/client.py:308-388 | the loop's outcome, breaker, clock, requests and events are those of the run `Orchestrator.Wait` from the initial interval, no last status and no retries |
| Client.TranslationClient.SettleAll | client/client.py:416-420 | the caller's list loses exactly its finished ids, in order, and the final statuses gain them |
| Client.TranslationClient.WaitForBatchCompletion | client/client.py:390-425 | the outcome, the caller's list, breaker, clock, requests and events are those of the run `Batches.BatchWait` |
| Server.Advance | server/app.py:39-42 | the check changes only the status, and only from pending to completed |
| Server.AdvancePending | server/app.py:39-42 | a pending job becomes completed exactly when its processing time has passed, and otherwise stays pending |
| Server.AdvanceKeeps | server/app.py:39-44 | the check changes only the status, leaves a finished job alone and never produces an error |
| Server.AdvanceLater | server/app.py:34-44 | checking at t1 and then at a later t2 gives what checking at t2 gives; checking twice at once is checking once |
| Server.ReportsComplete | server/app.py:34-44 | over any sequence of checks, the i-th reports completed exactly when the job already was completed or one of the first i+1 readings was past its processing time; otherwise it reports the status it started with |
| Server.ReportsSettle | server/app.py:34-44 | once a check reports completed, every later check does; an error is reported only for a job in error |
| Server.JobManager.constructor | server/app.py:21-22 | an empty table |
| Server.JobManager.CreateJob | server/app.py:24-32 | files a pending job started now with the given processing time under the new id and returns the id; other entries unchanged; no job is ever in error |
| Server.JobManager.GetJobStatus | server/app.py:34-44 | an unknown id gives nothing and leaves the table unchanged; a known one is checked at now, stored, and its status returned |
| Server.StatusReply | server/app.py:57-68 | 400 exactly for an unparsable id, 404 exactly for an unknown one, 200 with the status value exactly otherwise |
| Server.PostJob | server/app.py:49-55 | files a pending job with the default processing time 10 and answers 201 with the id and "pending" |
| Server.GetStatus | server/app.py:57-68 | 400 or 404 leave the table unchanged; 200 reports the status after the check at now, which is stored |

## Left out

- Transport: `requests.Session`, `urljoin`, HTTP and JSON decoding are replaced by the scripted `Outcome` of each call. The library is not part of this model.
- Randomness: each `random.uniform` draw is a parameter, a fraction in [-1, 1] of the jitter band. Intervals are `real`, so floating-point rounding is not modelled.
- Time: the client's clock is a `Clock` object that only `time.sleep` advances, so transport latency and time spent in callbacks are not modelled. The server's `time.time()` is the `now` parameter. `datetime.now` timestamps of events are dropped.
- Events: the free-form `Event.data` dict is reduced to a tagged `Detail` holding the counts, statuses, intervals and failures. The response payload of `JOB_CREATED` and the response text of an HTTP error are not kept.
- Callbacks: they are opaque ids. Whether one raises on an event is the fixed relation `raises`. Their bodies and the `print` that reports their errors are not modelled.
- Client.TranslationClient.WaitForCompletion: the loop is bounded by the finite script of polls (`ScriptEnded`) instead of running until the wall-clock deadline.
- Client.TranslationClient.WaitForBatchCompletion: the same finite-script bound (`BatchScriptEnded`). A round must also supply one reply per outstanding id.
- Client.TranslationClient.CreateBatchJobs: it takes one scripted reply per attempt, so `count` fixes how many replies there are. A negative count makes no attempts, as `range` does.
- JobOps.GetBatchStatus, Client.TranslationClient.WaitForBatchCompletion: a `BATCH_OPERATION` event holds the caller's own `job_ids` list (client/client.py:222, 296), and `wait_for_batch_completion` passes its list to `get_batch_status` and then shrinks it with `remove` (client/client.py:413, 420). So events already in the history change after dispatch. The model's `Many(ids)` is a snapshot of the list at dispatch time and does not capture this aliasing.
- Server.JobManager.CreateJob: `uuid4()` is the `id` parameter. The model assumes nothing about its freshness, so a colliding id overwrites an entry; `uuid4` makes that practically impossible.
- Server.GetStatus: parsing the path segment with `UUID(job_id)` is the `parsed` parameter, an abstract partial result.
- Server: the `Job` record is a value in the table rather than a shared mutable object, so aliasing of a `Job` held elsewhere is not modelled.
- Server: the Flask application wiring, JSON rendering and `app.run` are not modelled.
- The duplicated `JobStatus` enum of the client is represented once, as status strings. The unused `CircuitBreakerError` and `TranslationError` hierarchy appears only as the `Failure` kinds the code actually raises.
- The integration tests start a server thread over real HTTP, so they are not part of this model.
