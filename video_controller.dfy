/** The HTTP handlers of the video service. Each handler asks the queue one
    question and turns the answer into one response; the decision is a pure
    function of that answer, and the handler method wires it to a JobQueue. */
module VideoController {
  import opened Wrappers
  import opened JobStore
  import opened QueueService

  /** The fields `createRenderJob` takes from the request body. */
  datatype RenderRequest = RenderRequest(
    projectId: string,
    script: Option<Script>,
    media: Option<seq<Blob>>,
    channelStyle: Option<Blob>,
    voiceover: Option<Blob>,
    stockFootage: Option<Blob>,
    metadata: Option<Blob>,
    webhookUrl: Option<string>)

  /** The JSON body of a response. `Success()` is its `success` field. */
  datatype Body =
    | Queued(message: string, jobId: string, status: string, estimatedTime: string)
    | StatusReport(jobId: string, status: string, progress: int, createdAt: int,
                   processedAt: Option<int>, finishedAt: Option<int>, failedReason: Option<string>)
    | ResultReport(jobId: string, status: string, result: Option<Blob>, finishedAt: Option<int>)
    | CancelReport(message: string, jobId: string)
    | StatsReport(stats: Stats)
    | NotFound(error: string)
    | NotCompleted(error: string, status: string)
    | ServerError(error: string, message: string)
  {
    predicate Success() {
      Queued? || StatusReport? || ResultReport? || CancelReport? || StatsReport?
    }
  }

  datatype Response = Response(code: nat, body: Body)

  /** The message of the `TypeError` raised by `.length` or `.scenes` on a
      missing value; its exact wording belongs to the JavaScript engine. */
  const MissingFieldMessage: string := "Cannot read properties of undefined"

  /** The data `createRenderJob` submits: the request fields, and no priority. */
  function JobDataOf(req: RenderRequest): (d: JobData)
    ensures d.priority == None
    ensures d.projectId == req.projectId && d.webhookUrl == req.webhookUrl
    ensures d.script == req.script && d.media == req.media
    ensures d.channelStyle == req.channelStyle && d.voiceover == req.voiceover
    ensures d.stockFootage == req.stockFootage && d.metadata == req.metadata
  {
    JobData(req.projectId, req.script, req.media, req.channelStyle, req.voiceover,
            req.stockFootage, req.metadata, req.webhookUrl, None)
  }

  /** Every job `createRenderJob` submits gets the default priority 10. */
  lemma SubmittedPriorityIsDefault(req: RenderRequest)
    ensures EffectivePriority(JobDataOf(req)) == 10
  {
  }

  /** `media.length` and `script.scenes.length`, evaluated in that order;
      either may throw. */
  function EstimateInputs(req: RenderRequest): (r: Result<(nat, nat), Error>)
    ensures r.Success? <==> req.media.Some? && req.script.Some? && req.script.value.scenes.Some?
    ensures r.Success? ==> r.value == (|req.media.value|, |req.script.value.scenes.value|)
  {
    if req.media.None? then Failure(Error(MissingFieldMessage))
    else if req.script.None? || req.script.value.scenes.None? then Failure(Error(MissingFieldMessage))
    else Success((|req.media.value|, |req.script.value.scenes.value|))
  }

  /** `Math.ceil((mediaCount * 2 + sceneCount) / 60)`: the fewest whole
      minutes that cover two seconds per media item and one per scene. */
  function EstimatedMinutes(mediaCount: nat, sceneCount: nat): (r: nat)
    ensures 60 * r >= 2 * mediaCount + sceneCount
    ensures 60 * (r - 1) < 2 * mediaCount + sceneCount
  {
    var seconds := mediaCount * 2 + sceneCount;
    if seconds % 60 == 0 then seconds / 60 else seconds / 60 + 1
  }

  /** For non-negative counts the ceiling is integer division rounded up. */
  lemma EstimatedMinutesIsRoundedUpDivision(mediaCount: nat, sceneCount: nat)
    ensures EstimatedMinutes(mediaCount, sceneCount) == (2 * mediaCount + sceneCount + 59) / 60
  {
  }

  predicate IsDigit(c: char) {
    '0' <= c <= '9'
  }

  /** The decimal numeral JavaScript writes for a non-negative integer. */
  function NatToString(n: nat): (s: string)
    ensures |s| > 0 && forall i :: 0 <= i < |s| ==> IsDigit(s[i])
    ensures s[0] == '0' ==> n == 0
  {
    var last := ('0' as int + n % 10) as char;
    if n < 10 then [last] else NatToString(n / 10) + [last]
  }

  function DigitValue(c: char): nat
    requires IsDigit(c)
  {
    c as int - '0' as int
  }

  /** The value of a decimal numeral. */
  function DecimalValue(s: string): nat
    requires forall i :: 0 <= i < |s| ==> IsDigit(s[i])
  {
    if s == [] then 0
    else 10 * DecimalValue(s[..|s| - 1]) + DigitValue(s[|s| - 1])
  }

  /** The numeral reads back as the number it was written from. */
  lemma {:induction false} DecimalRoundTrip(n: nat)
    ensures DecimalValue(NatToString(n)) == n
  {
    var s := NatToString(n);
    if n >= 10 {
      DecimalRoundTrip(n / 10);
      assert s[..|s| - 1] == NatToString(n / 10);
    }
  }

  /** The `estimatedTime` field. */
  function EstimatedTime(mediaCount: nat, sceneCount: nat): (t: string)
    ensures |t| > 8 && t[|t| - 8..] == " minutes"
    ensures var numeral := t[..|t| - 8];
            && (forall i :: 0 <= i < |numeral| ==> IsDigit(numeral[i]))
            && DecimalValue(numeral) == EstimatedMinutes(mediaCount, sceneCount)
    ensures t[..|t| - 8] == NatToString(EstimatedMinutes(mediaCount, sceneCount))
  {
    var n := EstimatedMinutes(mediaCount, sceneCount);
    DecimalRoundTrip(n);
    var t := NatToString(n) + " minutes";
    assert t[..|t| - 8] == NatToString(n);
    t
  }

  function ServerFailure(what: string, e: Error): (r: Response)
    ensures r.code == 500 && !r.body.Success()
  {
    Response(500, ServerError(what, e.message))
  }

  /** `createRenderJob` once `addVideoJob` has answered `added`. */
  function RenderResponse(req: RenderRequest, added: Result<Job, Error>): (r: Response)
    ensures r.code == 202 <==> added.Success? && EstimateInputs(req).Success?
    ensures r.code == 202 ==>
              r.body == Queued("Video rendering job created", added.value.id, "queued",
                               EstimatedTime(EstimateInputs(req).value.0, EstimateInputs(req).value.1))
    ensures r.code != 202 ==> r.code == 500 && r.body.ServerError? && r.body.error == "Failed to create render job"
    ensures added.Failure? ==> r.body.message == added.error.message
  {
    match added
    case Failure(e) => ServerFailure("Failed to create render job", e)
    case Success(job) =>
      match EstimateInputs(req)
      case Failure(e) => ServerFailure("Failed to create render job", e)
      case Success(counts) =>
        Response(202, Queued("Video rendering job created", job.id, "queued",
                             EstimatedTime(counts.0, counts.1)))
  }

  /** `getJobStatus` once `getJob` has answered `lookup`. */
  function StatusResponse(lookup: Result<Option<Job>, Error>): (r: Response)
    ensures r.code == 500 <==> lookup.Failure?
    ensures r.code == 404 <==> lookup == Success(None)
    ensures r.code == 200 <==> lookup.Success? && lookup.value.Some?
    ensures lookup.Failure? ==> r == ServerFailure("Failed to get job status", lookup.error)
    ensures r.code == 404 ==> r.body == NotFound("Job not found")
    ensures r.code == 200 ==>
              var job := lookup.value.value;
              r.body == StatusReport(job.id, job.state.Name(), job.progress, job.timestamp,
                                     job.processedOn, job.finishedOn, job.failedReason)
  {
    match lookup
    case Failure(e) => ServerFailure("Failed to get job status", e)
    case Success(None) => Response(404, NotFound("Job not found"))
    case Success(Some(job)) =>
      Response(200, StatusReport(job.id, job.state.Name(), job.progress, job.timestamp,
                                 job.processedOn, job.finishedOn, job.failedReason))
  }

  /** `getJobResult` once `getJob` has answered `lookup`. */
  function ResultResponse(lookup: Result<Option<Job>, Error>): (r: Response)
    ensures r.code == 500 <==> lookup.Failure?
    ensures r.code == 404 <==> lookup == Success(None)
    ensures r.code == 400 <==> lookup.Success? && lookup.value.Some? && lookup.value.value.state != Completed
    ensures r.code == 200 <==> lookup.Success? && lookup.value.Some? && lookup.value.value.state == Completed
    ensures lookup.Failure? ==> r == ServerFailure("Failed to get job result", lookup.error)
    ensures r.code == 404 ==> r.body == NotFound("Job not found")
    ensures r.code == 400 ==> r.body == NotCompleted("Job not completed", lookup.value.value.state.Name())
    ensures r.code == 200 ==>
              var job := lookup.value.value;
              r.body == ResultReport(job.id, "completed", job.returnvalue, job.finishedOn)
  {
    match lookup
    case Failure(e) => ServerFailure("Failed to get job result", e)
    case Success(None) => Response(404, NotFound("Job not found"))
    case Success(Some(job)) =>
      if job.state != Completed
      then Response(400, NotCompleted("Job not completed", job.state.Name()))
      else Response(200, ResultReport(job.id, "completed", job.returnvalue, job.finishedOn))
  }

  /** `cancelJob` once the queue's `cancelJob` has answered `outcome`. */
  function CancelResponse(jobId: string, outcome: Result<bool, Error>): (r: Response)
    ensures r.code == 500 <==> outcome.Failure?
    ensures r.code == 404 <==> outcome == Success(false)
    ensures r.code == 200 <==> outcome == Success(true)
    ensures outcome.Failure? ==> r == ServerFailure("Failed to cancel job", outcome.error)
    ensures r.code == 404 ==> r.body == NotFound("Job not found or already completed")
    ensures r.code == 200 ==> r.body == CancelReport("Job cancelled successfully", jobId)
  {
    match outcome
    case Failure(e) => ServerFailure("Failed to cancel job", e)
    case Success(false) => Response(404, NotFound("Job not found or already completed"))
    case Success(true) => Response(200, CancelReport("Job cancelled successfully", jobId))
  }

  /** `getQueueStats` once the queue has answered `stats`. */
  function StatsResponse(stats: Result<Stats, Error>): (r: Response)
    ensures r.code == 500 <==> stats.Failure?
    ensures stats.Failure? ==> r == ServerFailure("Failed to get queue stats", stats.error)
    ensures stats.Success? ==> r == Response(200, StatsReport(stats.value))
  {
    match stats
    case Failure(e) => ServerFailure("Failed to get queue stats", e)
    case Success(s) => Response(200, StatsReport(s))
  }

  /** Every response's `success` field is true exactly for a 2xx status. */
  lemma SuccessFlagMatchesStatus(req: RenderRequest, added: Result<Job, Error>,
                                 lookup: Result<Option<Job>, Error>, jobId: string,
                                 outcome: Result<bool, Error>, stats: Result<Stats, Error>)
    ensures RenderResponse(req, added).body.Success() <==> RenderResponse(req, added).code < 300
    ensures StatusResponse(lookup).body.Success() <==> StatusResponse(lookup).code < 300
    ensures ResultResponse(lookup).body.Success() <==> ResultResponse(lookup).code < 300
    ensures CancelResponse(jobId, outcome).body.Success() <==> CancelResponse(jobId, outcome).code < 300
    ensures StatsResponse(stats).body.Success() <==> StatsResponse(stats).code < 300
  {
  }

  /** A result is handed out only for a job whose status reads `completed`,
      and it is the job's stored `returnvalue`. */
  lemma ResultOnlyWhenCompleted(lookup: Result<Option<Job>, Error>)
    requires ResultResponse(lookup).code == 200
    ensures StatusResponse(lookup).code == 200 && StatusResponse(lookup).body.status == "completed"
    ensures ResultResponse(lookup).body.result == lookup.value.value.returnvalue
  {
  }

  /** The status and result handlers agree on absence and on failure. */
  lemma StatusAndResultAgree(lookup: Result<Option<Job>, Error>)
    ensures StatusResponse(lookup).code == 404 <==> ResultResponse(lookup).code == 404
    ensures StatusResponse(lookup).code == 500 <==> ResultResponse(lookup).code == 500
    ensures ResultResponse(lookup).code == 400 ==>
              StatusResponse(lookup).code == 200
              && ResultResponse(lookup).body.status == StatusResponse(lookup).body.status
              && StatusResponse(lookup).body.status != "completed"
  {
  }

  /** After a successful cancellation both lookups of that id answer 404. */
  lemma CancelledJobIsNotFound(store: Store, id: string)
    requires Cancellable(store, id)
    ensures CancelResponse(id, Success(Cancellable(store, id))).code == 200
    ensures StatusResponse(Success(Lookup(store - {id}, id))).code == 404
    ensures ResultResponse(Success(Lookup(store - {id}, id))).code == 404
  {
  }

  method CreateRenderJob(q: JobQueue, req: RenderRequest, now: int) returns (resp: Response)
    requires q.Valid()
    modifies q`jobs
    ensures q.Valid()
    ensures !q.initialised ==> q.jobs == old(q.jobs) && resp == ServerFailure("Failed to create render job", NotInitialized)
    ensures q.initialised ==> req.projectId in q.jobs
    ensures q.initialised && req.projectId !in old(q.jobs) ==> q.jobs[req.projectId].opts.priority == 10
    ensures q.initialised && req.projectId !in old(q.jobs) ==>
              q.jobs == old(q.jobs)[req.projectId := NewJob(JobDataOf(req), q.defaults, now)]
    ensures q.initialised && req.projectId in old(q.jobs) ==> q.jobs == old(q.jobs)
    ensures q.initialised ==> resp == RenderResponse(req, Success(q.jobs[req.projectId]))
    ensures resp.code == 202 <==> q.initialised && EstimateInputs(req).Success?
    ensures resp.code == 202 ==> resp.body.Queued? && resp.body.jobId == req.projectId && resp.body.status == "queued"
    ensures resp.code != 202 ==> resp.code == 500
  {
    var added := q.AddVideoJob(JobDataOf(req), now);
    resp := RenderResponse(req, added);
  }

  method GetJobStatus(q: JobQueue, jobId: string) returns (resp: Response)
    ensures !q.initialised ==> resp == ServerFailure("Failed to get job status", NotInitialized)
    ensures q.initialised ==> resp == StatusResponse(Success(Lookup(q.jobs, jobId)))
  {
    var job := q.GetJob(jobId);
    resp := StatusResponse(job);
  }

  method GetJobResult(q: JobQueue, jobId: string) returns (resp: Response)
    ensures !q.initialised ==> resp == ServerFailure("Failed to get job result", NotInitialized)
    ensures q.initialised ==> resp == ResultResponse(Success(Lookup(q.jobs, jobId)))
  {
    var job := q.GetJob(jobId);
    resp := ResultResponse(job);
  }

  method CancelJob(q: JobQueue, jobId: string) returns (resp: Response)
    requires q.Valid()
    modifies q`jobs
    ensures q.Valid()
    ensures resp.code == 500 <==> !q.initialised
    ensures resp.code == 404 <==> q.initialised && !Cancellable(old(q.jobs), jobId)
    ensures resp.code == 200 <==> q.initialised && Cancellable(old(q.jobs), jobId)
    ensures resp.code == 200 ==> q.jobs == old(q.jobs) - {jobId}
    ensures resp.code != 200 ==> q.jobs == old(q.jobs)
    ensures !q.initialised ==> resp == ServerFailure("Failed to cancel job", NotInitialized)
    ensures q.initialised ==> resp == CancelResponse(jobId, Success(Cancellable(old(q.jobs), jobId)))
  {
    var success := q.CancelJob(jobId);
    resp := CancelResponse(jobId, success);
  }

  method GetQueueStats(q: JobQueue) returns (resp: Response)
    ensures !q.initialised ==> resp == ServerFailure("Failed to get queue stats", NotInitialized)
    ensures q.initialised ==> resp == Response(200, StatsReport(Snapshot(q.jobs)))
    ensures q.initialised ==> resp.body.stats.total == |q.jobs|
  {
    var stats := q.GetQueueStats();
    resp := StatsResponse(stats);
  }
}
