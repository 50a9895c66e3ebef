# Video service job queue and controller, in Dafny

This project models the job-handling core of the video rendering service. Two
parts are covered.

- The queue facade over its Bull queue. It initialises the queue with fixed
  default job options. It submits a render job under the project id and looks
  jobs up. It cancels a job by removing its record. It reports per-state counts
  and their total. It picks the webhook payload when a job completes or fails,
  and it computes the retention cut-off for cleaning old jobs.
- The HTTP controller. It turns each answer from the queue into a response:
  the status code and the JSON body. It also estimates a render time in whole
  minutes.

Bull is represented only by its job records. The store is a
`map<string, Job>` from job id to a record holding `state`, `data`, `opts`,
`progress`, `returnvalue`, `timestamp`, `processedOn`, `finishedOn` and
`failedReason`. The broker-side processing that moves jobs between states is
outside the model.

Files and modules:

- `wrappers.dfy` (`Wrappers`): `Option` stands for `null`/`undefined`, and `Result` for a promise that resolves or rejects.
- `job_store.dfy` (`JobStore`): the job record, its five states, and the per-state counts. One lemma proves that the counts partition the store.
- `queue_service.dfy` (`QueueService`): the class `JobQueue` has an `initialised` flag, the configuration and the store. Its methods stand for `initializeQueue`, `addVideoJob`, `getJob`, `cancelJob`, `getQueueStats` and `cleanOldJobs`. Beside it are pure functions for the defaults, the stats snapshot, the cut-off and the webhook payloads.
- `video_controller.dfy` (`VideoController`): one pure response function per handler, with lemmas that relate them. Each handler method calls a `JobQueue` and then that function.

Inputs that come from outside are parameters:

- `Date.now()` is the `now` argument.
- The environment (`REDIS_URL`, `JOB_TIMEOUT_MS`, `MAX_CONCURRENT_JOBS`) is a `Config` value. A number `parseInt` cannot read is `None`.
- The answer of a queue call inside a handler is the argument of the response function.

JavaScript's `||` defaults are written out. A priority of `0` or none becomes
10. A timeout or concurrency of `0` or `NaN` falls back to its default. A
webhook URL that is absent or `""` sends no webhook.

## Behaviour of the code worth knowing

- No job is ever in a `cancelled` state. Cancelling removes the record, so a later status or result lookup of that id answers 404 (`CancelledJobIsNotFound`).
- Cancelling a finished job answers 404 with the same body as cancelling an absent one.
- The stats report `waiting` and `delayed` as separate counts.
- The controller and the queue check nothing. Unless the route's validation middleware (`validateVideoRequest`, not part of this model) rejects the request first, a missing `media` or `script.scenes` is found only while the estimate is computed, after the job is queued. The handler then answers 500 and the job stays queued (`VideoController.CreateRenderJob`).
- The controller never forwards a priority, so every job it submits gets priority 10.

## Model

| member | source | states |
|---|---|---|
| `QueueService.DefaultOptions` | video-service/src/services/queue.service.js:12-21 | attempts 3, exponential backoff with base 5000 ms, no removal on completion or failure; timeout is `JOB_TIMEOUT_MS` when it parses to a non-zero number, otherwise 600000 |
| `QueueService.Concurrency` | video-service/src/services/queue.service.js:25 | concurrency is `MAX_CONCURRENT_JOBS` when it parses to a non-zero number, otherwise 3; never 0 |
| `QueueService.EffectivePriority` | video-service/src/services/queue.service.js:86 | the priority is `data.priority` when truthy; absent or explicit 0 gives 10; never 0 |
| `QueueService.NewJob` | video-service/src/services/queue.service.js:85-88 | a new record has id and `jobId` option equal to `projectId`, carries the data unchanged, is waiting with no return value, has the effective priority and the queue-wide attempts, backoff and timeout |
| `QueueService.Lookup` | video-service/src/services/queue.service.js:101 | yields a job exactly when the id is stored, and then the stored record |
| `QueueService.Snapshot` | video-service/src/services/queue.service.js:134-149 | each reported count equals the number of stored jobs in that state; `total` is the sum of the five counts and equals the number of stored jobs |
| `QueueService.CancelStats` | video-service/src/services/queue.service.js:122-148 | a successful cancellation lowers `total` by one and the cancelled job's state count by one, and leaves the other counts unchanged |
| `QueueService.CancelledJobIsGone` | video-service/src/services/queue.service.js:122-123 | after removal, looking up the cancelled id yields nothing and every other id answers as before |
| `QueueService.CancelPreservesWellKeyed` | video-service/src/services/queue.service.js:122 | removing a record keeps every other record stored under its own id |
| `QueueService.CutOff` | video-service/src/services/queue.service.js:178 | the cut-off lies exactly `days · 86 400 000` ms before `now`, and not after `now` for non-negative days |
| `QueueService.CutOffMonotone` | video-service/src/services/queue.service.js:173-178 | a longer retention gives an earlier cut-off; the seven-day default is 604 800 000 ms before now |
| `QueueService.OnCompleted` | video-service/src/services/queue.service.js:40-51 | a webhook goes out exactly when `webhookUrl` is non-empty and the result is not null (a null result throws at `result.videoUrl` first), to that URL with a 5000 ms timeout, carrying `{jobId, status: 'completed', result}` |
| `QueueService.OnFailed` | video-service/src/services/queue.service.js:53-64 | a webhook goes out exactly when `webhookUrl` is non-empty, to that URL with a 5000 ms timeout, carrying `{jobId, status: 'failed', error: err.message}` |
| `QueueService.WebhooksAgree` | video-service/src/services/queue.service.js:44-62 | whenever the `completed` listener notifies, the `failed` one would too; for a non-null result they notify under the same condition, address the same URL with the same job id, and never send the same payload |
| `QueueService.JobQueue.constructor` | video-service/src/services/queue.service.js:5 | the queue starts uninitialised over whatever records the broker holds |
| `QueueService.JobQueue.InitializeQueue` | video-service/src/services/queue.service.js:10-25 | marks the queue initialised under the name `video-processing` with the Redis URL (`REDIS_URL` or the localhost default), the default job options and the concurrency; the records are untouched |
| `QueueService.JobQueue.AddVideoJob` | video-service/src/services/queue.service.js:80-91 | fails with "Queue not initialized" and changes nothing when uninitialised; otherwise the job is stored under `projectId` and returned, as a new waiting record when the id was free |
| `QueueService.JobQueue.GetJob` | video-service/src/services/queue.service.js:96-102 | fails with "Queue not initialized" when uninitialised; otherwise yields the stored record for the id, or nothing |
| `QueueService.JobQueue.CancelJob` | video-service/src/services/queue.service.js:107-124 | fails with "Queue not initialized" and changes nothing when uninitialised; an unknown or finished job gives false and an unchanged store; otherwise exactly that record is removed and the answer is true |
| `QueueService.JobQueue.GetQueueStats` | video-service/src/services/queue.service.js:129-150 | fails with "Queue not initialized" when uninitialised; otherwise it answers the snapshot of the store, whose total is the number of stored jobs |
| `QueueService.JobQueue.CleanOldJobs` | video-service/src/services/queue.service.js:173-184 | fails with "Queue not initialized" when uninitialised; otherwise issues exactly two clean requests, for `completed` then `failed`, both at the cut-off for the given days (7 when omitted) |
| `JobStore.CountsPartitionStore` | video-service/src/services/queue.service.js:134-148 | the five per-state counts add up to the number of stored jobs |
| `JobStore.CountAfterRemove` | video-service/src/services/queue.service.js:122 | removing a record lowers the count of its own state by one and no other count |
| `JobStore.IdsIn` | video-service/src/services/queue.service.js:135-139 | an id is counted in a state exactly when it is stored in that state |
| `VideoController.JobDataOf` | video-service/src/controllers/video.controller.js:23-32 | the submitted data copies the request fields and carries no priority |
| `VideoController.SubmittedPriorityIsDefault` | video-service/src/controllers/video.controller.js:23-32 | every job the render handler submits gets priority 10 |
| `VideoController.EstimateInputs` | video-service/src/controllers/video.controller.js:39 | the two counts are available exactly when `media`, `script` and `script.scenes` are present, and they are their lengths |
| `VideoController.EstimatedMinutes` | video-service/src/controllers/video.controller.js:190-193 | the result is the ceiling of `(2·media + scenes)/60`: the fewest whole minutes covering the estimated seconds |
| `VideoController.EstimatedMinutesIsRoundedUpDivision` | video-service/src/controllers/video.controller.js:192-193 | for non-negative counts the estimate is `(2·media + scenes + 59) / 60` in integer division |
| `VideoController.NatToString` | video-service/src/controllers/video.controller.js:193 | the numeral is a non-empty string of decimal digits with no leading zero |
| `VideoController.DecimalRoundTrip` | video-service/src/controllers/video.controller.js:193 | the numeral reads back as the number it was written from |
| `VideoController.EstimatedTime` | video-service/src/controllers/video.controller.js:190-194 | the text is the canonical decimal numeral of the estimated minutes (digits only, no leading zero, reading back as that number), followed by " minutes" |
| `VideoController.ServerFailure` | video-service/src/controllers/video.controller.js:42-49 | an error response is a 500 with `success: false` |
| `VideoController.RenderResponse` | video-service/src/controllers/video.controller.js:23-49 | 202 with `status: 'queued'`, the job's id and the estimate exactly when the queue accepted the job and the estimate could be computed; otherwise 500 "Failed to create render job" (carrying the queue's error message when the queue failed) |
| `VideoController.StatusResponse` | video-service/src/controllers/video.controller.js:55-89 | 500 exactly on a lookup error, 404 exactly when the job is absent, otherwise 200 echoing the job's id, state, progress, `timestamp`, `processedOn`, `finishedOn` and `failedReason` unchanged |
| `VideoController.ResultResponse` | video-service/src/controllers/video.controller.js:94-132 | 500 exactly on a lookup error, 404 exactly when absent, 400 with the current state exactly when the job is not completed, and 200 with `result = returnvalue` exactly when completed |
| `VideoController.CancelResponse` | video-service/src/controllers/video.controller.js:137-163 | 500 exactly on a queue error, 404 exactly when the queue answers false, 200 echoing the requested `jobId` exactly when it answers true |
| `VideoController.StatsResponse` | video-service/src/controllers/video.controller.js:168-185 | 500 exactly on a queue error, otherwise 200 carrying the stats unchanged |
| `VideoController.SuccessFlagMatchesStatus` | video-service/src/controllers/video.controller.js:34-183 | in every handler the `success` field is true exactly for a 2xx status |
| `VideoController.ResultOnlyWhenCompleted` | video-service/src/controllers/video.controller.js:108-122 | a 200 result is given only for a job whose status reads `completed`, and it is that job's `returnvalue` |
| `VideoController.StatusAndResultAgree` | video-service/src/controllers/video.controller.js:60-114 | the status and result handlers agree on 404 and 500; a 400 result reports the same state as the status handler, and that state is not `completed` |
| `VideoController.CancelledJobIsNotFound` | video-service/src/controllers/video.controller.js:137-153 | after a successful cancellation (200), both the status and the result lookups of that id answer 404 |
| `VideoController.CreateRenderJob` | video-service/src/controllers/video.controller.js:7-50 | an uninitialised queue gives 500 and no change; otherwise a free `projectId` gets the new record (priority 10) and every other record stays, a taken one leaves the store unchanged; the job is queued whatever the response, and the response is the render decision for the stored job: 202 with the id and estimate exactly when the estimate's inputs are present, else 500 |
| `VideoController.GetJobStatus` | video-service/src/controllers/video.controller.js:55-89 | the response is the status decision applied to the queue's lookup, 500 when uninitialised |
| `VideoController.GetJobResult` | video-service/src/controllers/video.controller.js:94-132 | the response is the result decision applied to the queue's lookup, 500 when uninitialised |
| `VideoController.CancelJob` | video-service/src/controllers/video.controller.js:137-163 | the response is the cancel decision applied to the queue's answer: 500 "Failed to cancel job" with `success: false` exactly when uninitialised, 404 exactly when the job is absent or finished (store unchanged), 200 echoing the requested `jobId` exactly when the record was removed |
| `VideoController.GetQueueStats` | video-service/src/controllers/video.controller.js:168-185 | 500 when uninitialised, otherwise 200 with the snapshot, whose total is the number of stored jobs |

## Left out

- Bull's processing is out: dispatch under the concurrency limit, retries and exponential backoff, timeouts, stall detection and priority ordering. The options are recorded only as configured values.
- `processVideo` and the rendering are out. `processVideo` is not part of this model. The `progress` and `stalled` listeners only log, so they are out too.
- QueueService.JobQueue.AddVideoJob: what Bull does with a second submission under a stored `jobId` is Bull's business. The model keeps the stored record and returns it (insert-if-absent). A `projectId` that is `undefined` would let Bull invent an id; that case is not modelled, and `projectId` is always a string here.
- QueueService.JobQueue.CancelJob: Bull can refuse to remove an active job that a worker holds locked, and the handler would then answer 500. That refusal is not modelled.
- QueueService.JobQueue.CleanOldJobs: the effect of `videoQueue.clean` on the store is not modelled. Its first argument is an absolute timestamp, while Bull reads that argument as a grace period. Only the cut-off arithmetic and the two targeted states are modelled, and the store is left as it was.
- The axios POST in `sendWebhook` is out. Its errors are caught and logged, so the model only picks the call to make (URL, payload, 5000 ms timeout), and no delivery outcome reaches the store.
- Logging is out.
- `Promise.all` in `getQueueStats` is treated as a single read of the store.
- QueueService.JobQueue.CancelJob: modelled as one atomic step, though the state read (queue.service.js:117) and the removal (line 122) are separate Redis calls and the worker registered in the same process can move the job in between. A job that completes or fails between them is still removed, and the handler then answers 200 "Job cancelled successfully"; the model's contract, which answers false and keeps the store for a finished job, covers only the case where nothing moves in between.
- VideoController.ResultResponse: the record fetch (video.controller.js:97) and the state read (line 106) are modelled as one atomic read of the same record. A job that completes between them gets a 200 whose `result` and `finishedAt` come from the record fetched before it completed, so `ResultOnlyWhenCompleted` holds only when nothing moves in between. VideoController.StatusResponse likewise pairs a state read at line 67 with progress and timestamps from the record fetched at line 58; the model takes all of them from one snapshot.
- A store error from Redis reaches the controller only as the `Failure` argument of a response function. The `JobQueue` methods themselves fail only with "Queue not initialized".
- VideoController.EstimateInputs: the `TypeError` message wording belongs to the JavaScript engine and is a fixed placeholder here. A `media` or `script.scenes` that is not an array is not modelled: an object without `length` such as `{}` would give "NaN minutes", and a string would count its characters.
- VideoController.EstimatedMinutes: the floating-point division behind `Math.ceil` is exact integer arithmetic here. That matches JavaScript for every input with 2·media + scenes < 2^53, which always holds because array lengths are below 2^32.
- `index.js`, `health.routes.js` and `video.routes.js` are out: Express setup, signal handlers, health probes and route wiring. The request validation and API-key middleware they name are not part of this model.
