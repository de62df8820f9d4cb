/**
 * The mock translation server of server/app.py: `JobManager`, a table of jobs
 * whose status moves from pending to completed once their processing time has
 * passed, and the status-code decisions of its two routes. The clock reading
 * (`time.time()`), the generated id (`uuid4()`) and the outcome of parsing the
 * path segment (`UUID(job_id)`) are parameters.
 */
module Server {
  import opened Wrappers

  datatype JobStatus = Pending | Completed | Error

  /** The wire value of a status. */
  function StatusValue(s: JobStatus): string
  {
    match s
    case Pending => "pending"
    case Completed => "completed"
    case Error => "error"
  }

  /** A job id: a UUID, of which the model keeps only its identity. */
  datatype JobId = JobId(uuid: nat)

  datatype Job = Job(id: JobId, status: JobStatus, startTime: real, processTime: real)

  /** `process_time` when `create_job` is called without one. */
  const DefaultProcessTime: real := 10.0

  /** The status check of `get_job_status`: a pending job whose processing time has passed becomes completed. */
  function Advance(job: Job, now: real): (r: Job)
    ensures r == job.(status := r.status)
    ensures r.status != job.status ==> job.status == Pending && r.status == Completed
  {
    if now - job.startTime >= job.processTime && job.status == Pending then job.(status := Completed) else job
  }

  /** A pending job is completed at `now` exactly when its processing time has passed by then. */
  lemma AdvancePending(job: Job, now: real)
    requires job.status == Pending
    ensures Advance(job, now).status == Completed <==> now - job.startTime >= job.processTime
    ensures Advance(job, now).status != Completed ==> Advance(job, now).status == Pending
  {
  }

  /** The check changes nothing but the status, never leaves a finished job, and never produces an error. */
  lemma AdvanceKeeps(job: Job, now: real)
    ensures Advance(job, now) == job.(status := Advance(job, now).status)
    ensures job.status != Pending ==> Advance(job, now) == job
    ensures Advance(job, now).status == Error <==> job.status == Error
  {
  }

  /** Checking twice, at the same time or later, gives what checking once at the later time gives. */
  lemma AdvanceLater(job: Job, t1: real, t2: real)
    requires t1 <= t2
    ensures Advance(Advance(job, t1), t2) == Advance(job, t2)
    ensures Advance(Advance(job, t1), t1) == Advance(job, t1)
  {
  }

  /** The statuses that successive checks of one job at the times `times` report. */
  function Reports(job: Job, times: seq<real>): (r: seq<JobStatus>)
    ensures |r| == |times|
    decreases |times|
  {
    if times == [] then []
    else
      var j := Advance(job, times[0]);
      [j.status] + Reports(j, times[1..])
  }

  /**
   * Whatever order the clock readings come in, the i-th check reports
   * completed exactly when the job was already completed or one of the first
   * i + 1 readings was past its processing time; otherwise it reports the
   * status the job started with.
   */
  lemma {:induction false} ReportsComplete(job: Job, times: seq<real>, i: nat)
    requires i < |times|
    ensures var r := Reports(job, times);
      && (r[i] == Completed <==>
            job.status == Completed
            || (job.status == Pending && exists k :: 0 <= k <= i && times[k] - job.startTime >= job.processTime))
      && (r[i] != Completed ==> r[i] == job.status)
    decreases i
  {
    var j := Advance(job, times[0]);
    if i > 0 {
      ReportsComplete(j, times[1..], i - 1);
      var passed := exists k :: 0 <= k <= i && times[k] - job.startTime >= job.processTime;
      var passedLater := exists k :: 0 <= k <= i - 1 && times[1..][k] - job.startTime >= job.processTime;
      assert passed <==> times[0] - job.startTime >= job.processTime || passedLater by {
        if passedLater {
          var k :| 0 <= k <= i - 1 && times[1..][k] - job.startTime >= job.processTime;
          assert times[k + 1] == times[1..][k];
        }
        if passed {
          var k :| 0 <= k <= i && times[k] - job.startTime >= job.processTime;
          if k > 0 {
            assert times[1..][k - 1] == times[k];
          }
        }
      }
    }
  }

  /** Once a check reports completed, every later check does too; an error is reported only for a job in error. */
  lemma ReportsSettle(job: Job, times: seq<real>, i: nat, k: nat)
    requires i <= k < |times|
    ensures Reports(job, times)[i] == Completed ==> Reports(job, times)[k] == Completed
    ensures Reports(job, times)[i] == Error ==> job.status == Error
  {
    ReportsComplete(job, times, i);
    ReportsComplete(job, times, k);
  }

  /** `JobManager`: the table of jobs, each filed under its own id. */
  class JobManager {
    var jobs: map<JobId, Job>

    /** Every job is filed under its own id and none is in error: the manager never assigns `ERROR`. */
    ghost predicate Valid()
      reads this
    {
      forall id :: id in jobs ==> jobs[id].id == id && jobs[id].status != Error
    }

    constructor ()
      ensures Valid() && jobs == map[]
    {
      jobs := map[];
    }

    /** `create_job(process_time)`: file a pending job started now under the new id `id` and return it. */
    method CreateJob(id: JobId, now: real, processTime: real) returns (r: JobId)
      requires Valid()
      modifies this
      ensures Valid() && r == id
      ensures jobs == old(jobs)[id := Job(id, Pending, now, processTime)]
    {
      jobs := jobs[id := Job(id, Pending, now, processTime)];
      return id;
    }

    /** `get_job_status(id)`: nothing for an unknown id; otherwise check the job at `now` and return its status. */
    method GetJobStatus(id: JobId, now: real) returns (r: Option<JobStatus>)
      requires Valid()
      modifies this
      ensures Valid()
      ensures id !in old(jobs) ==> r == None && jobs == old(jobs)
      ensures id in old(jobs) ==>
        && jobs == old(jobs)[id := Advance(old(jobs)[id], now)]
        && r == Some(jobs[id].status)
    {
      if id !in jobs {
        return None;
      }
      var job := jobs[id];
      if now - job.startTime >= job.processTime && job.status == Pending {
        jobs := jobs[id := job.(status := Completed)];
      }
      return Some(jobs[id].status);
    }
  }

  /** The JSON bodies of the two routes. */
  datatype Body = Created(jobId: JobId, status: string) | Reported(result: string) | Problem(error: string)

  datatype Response = Response(code: int, body: Body)

  /** The decision of the `/status/<job_id>` route, from the parsed id and the manager's answer. */
  function StatusReply(parsed: Option<JobId>, status: Option<JobStatus>): (r: Response)
    ensures r.code == 400 <==> parsed.None?
    ensures r.code == 404 <==> parsed.Some? && status.None?
    ensures r.code == 200 <==> parsed.Some? && status.Some?
    ensures r.code == 200 ==> r.body == Reported(StatusValue(status.value))
    ensures r.code != 200 ==> r.body.Problem?
  {
    if parsed.None? then Response(400, Problem("Invalid job ID"))
    else if status.None? then Response(404, Problem("Job not found"))
    else Response(200, Reported(StatusValue(status.value)))
  }

  /** `POST /job`: create a job with the default processing time; answer 201 with the id and "pending". */
  method PostJob(m: JobManager, id: JobId, now: real) returns (resp: Response)
    requires m.Valid()
    modifies m
    ensures m.Valid()
    ensures m.jobs == old(m.jobs)[id := Job(id, Pending, now, DefaultProcessTime)]
    ensures resp == Response(201, Created(id, StatusValue(Pending)))
  {
    var jobId := m.CreateJob(id, now, DefaultProcessTime);
    return Response(201, Created(jobId, StatusValue(Pending)));
  }

  /**
   * `GET /status/<job_id>`, where `parsed` is the outcome of parsing the path
   * segment as a UUID: 400 if it does not parse, 404 if no such job, and
   * otherwise 200 with the status the manager reports at `now`.
   */
  method GetStatus(m: JobManager, parsed: Option<JobId>, now: real) returns (resp: Response)
    requires m.Valid()
    modifies m
    ensures m.Valid()
    ensures parsed.None? ==> m.jobs == old(m.jobs) && resp == Response(400, Problem("Invalid job ID"))
    ensures parsed.Some? && parsed.value !in old(m.jobs) ==>
      m.jobs == old(m.jobs) && resp == Response(404, Problem("Job not found"))
    ensures parsed.Some? && parsed.value in old(m.jobs) ==>
      var job := Advance(old(m.jobs)[parsed.value], now);
      m.jobs == old(m.jobs)[parsed.value := job] && resp == Response(200, Reported(StatusValue(job.status)))
  {
    if parsed.None? {
      return StatusReply(parsed, None);
    }
    var status := m.GetJobStatus(parsed.value, now);
    resp := StatusReply(parsed, status);
  }
}
