/** The queue facade of the video service: it owns the one Bull queue, fills
    in the default job options, submits, looks up and cancels jobs, reports
    per-state counts, picks the webhook payload when a job finishes, and
    works out the retention cut-off. */
module QueueService {
  import opened Wrappers
  import opened JobStore

  const QueueName: string := "video-processing"
  const DefaultRedisUrl: string := "redis://localhost:6379"
  const DefaultAttempts: nat := 3
  const DefaultBackoffDelayMs: nat := 5000
  const DefaultJobTimeoutMs: int := 600000
  const DefaultConcurrency: int := 3
  const DefaultPriority: int := 10
  const DefaultRetentionDays: int := 7
  const MsPerDay: int := 24 * 60 * 60 * 1000
  const WebhookTimeoutMs: nat := 5000
  const NotInitialized: Error := Error("Queue not initialized")

  /** The environment the queue is configured from. The two numbers are what
      `parseInt` makes of `JOB_TIMEOUT_MS` and `MAX_CONCURRENT_JOBS`; `None`
      stands for `NaN` (the variable unset or not a number). */
  datatype Config = Config(
    redisUrl: Option<string>,
    jobTimeoutMs: Option<int>,
    maxConcurrentJobs: Option<int>)

  /** JavaScript's `x || d` on a number: `NaN` and `0` are falsy. */
  function NumberOr(x: Option<int>, d: int): int {
    if x.Some? && x.value != 0 then x.value else d
  }

  /** JavaScript's `x || d` on a string: `undefined` and `""` are falsy. */
  function StringOr(x: Option<string>, d: string): string {
    if x.Some? && x.value != "" then x.value else d
  }

  /** The queue-wide `defaultJobOptions`. */
  datatype DefaultJobOptions = DefaultJobOptions(
    attempts: nat,
    backoff: Backoff,
    timeout: int,
    removeOnComplete: bool,
    removeOnFail: bool)

  function DefaultOptions(cfg: Config): (o: DefaultJobOptions)
    ensures o.attempts == 3 && o.backoff == Backoff(Exponential, 5000)
    ensures !o.removeOnComplete && !o.removeOnFail
    ensures o.timeout != 0
    ensures cfg.jobTimeoutMs.Some? && cfg.jobTimeoutMs.value != 0 ==> o.timeout == cfg.jobTimeoutMs.value
    ensures cfg.jobTimeoutMs == None || cfg.jobTimeoutMs == Some(0) ==> o.timeout == 600000
  {
    DefaultJobOptions(
      DefaultAttempts,
      Backoff(Exponential, DefaultBackoffDelayMs),
      NumberOr(cfg.jobTimeoutMs, DefaultJobTimeoutMs),
      false,
      false)
  }

  /** How many jobs the worker is registered to process at once. */
  function Concurrency(cfg: Config): (c: int)
    ensures c != 0
    ensures cfg.maxConcurrentJobs.Some? && cfg.maxConcurrentJobs.value != 0 ==> c == cfg.maxConcurrentJobs.value
    ensures cfg.maxConcurrentJobs == None || cfg.maxConcurrentJobs == Some(0) ==> c == 3
  {
    NumberOr(cfg.maxConcurrentJobs, DefaultConcurrency)
  }

  /** `data.priority || 10`. */
  function EffectivePriority(data: JobData): (p: int)
    ensures p != 0
    ensures data.priority.Some? && data.priority.value != 0 ==> p == data.priority.value
    ensures data.priority == None || data.priority == Some(0) ==> p == 10
  {
    NumberOr(data.priority, DefaultPriority)
  }

  /** The record Bull creates for a fresh submission: the defaults merged with
      the per-job priority and id, waiting, with nothing processed yet. */
  function NewJob(data: JobData, defaults: DefaultJobOptions, now: int): (j: Job)
    ensures j.id == data.projectId && j.opts.jobId == data.projectId
    ensures j.data == data && j.state == Waiting && j.returnvalue == None
    ensures j.opts.priority == EffectivePriority(data)
    ensures j.opts.attempts == defaults.attempts && j.opts.backoff == defaults.backoff
    ensures j.opts.timeout == defaults.timeout
  {
    Job(
      data.projectId, data,
      JobOptions(defaults.attempts, defaults.backoff, defaults.timeout,
                 defaults.removeOnComplete, defaults.removeOnFail,
                 EffectivePriority(data), data.projectId),
      Waiting, 0, None, now, None, None, None)
  }

  /** What `videoQueue.getJob(id)` resolves to. */
  function Lookup(store: Store, id: string): (r: Option<Job>)
    ensures r.Some? <==> id in store
    ensures r.Some? ==> r.value == store[id]
  {
    if id in store then Some(store[id]) else None
  }

  /** A job may be cancelled when it is stored and has not finished. */
  predicate Cancellable(store: Store, id: string) {
    id in store && !store[id].state.IsFinished()
  }

  /** The statistics object. */
  datatype Stats = Stats(waiting: nat, active: nat, completed: nat, failed: nat, delayed: nat, total: nat)

  /** One read of the five counts, and their sum. */
  function Snapshot(store: Store): (r: Stats)
    ensures r.total == r.waiting + r.active + r.completed + r.failed + r.delayed
    ensures r.total == |store|
    ensures r.waiting == CountIn(store, Waiting) && r.active == CountIn(store, Active)
    ensures r.completed == CountIn(store, Completed) && r.failed == CountIn(store, Failed)
    ensures r.delayed == CountIn(store, Delayed)
  {
    CountsPartitionStore(store);
    var w, a, c := CountIn(store, Waiting), CountIn(store, Active), CountIn(store, Completed);
    var f, d := CountIn(store, Failed), CountIn(store, Delayed);
    Stats(w, a, c, f, d, w + a + c + f + d)
  }

  /** The count of one state in a snapshot. */
  function CountOf(st: Stats, s: JobState): nat {
    match s
    case Waiting => st.waiting
    case Active => st.active
    case Completed => st.completed
    case Failed => st.failed
    case Delayed => st.delayed
  }

  /** A successful cancellation lowers the total and the count of the
      cancelled job's state by one, and leaves every other count as it was. */
  lemma CancelStats(store: Store, id: string, s: JobState)
    requires Cancellable(store, id)
    ensures Snapshot(store - {id}).total + 1 == Snapshot(store).total
    ensures CountOf(Snapshot(store - {id}), s)
            == CountOf(Snapshot(store), s) - (if store[id].state == s then 1 else 0)
  {
    CountAfterRemove(store, id, s);
  }

  /** After a cancellation the id is gone and every other lookup answers as before. */
  lemma CancelledJobIsGone(store: Store, id: string, other: string)
    requires Cancellable(store, id)
    ensures Lookup(store - {id}, id) == None
    ensures other != id ==> Lookup(store - {id}, other) == Lookup(store, other)
  {
  }

  /** Removing a record keeps every other record under its own id. */
  lemma CancelPreservesWellKeyed(store: Store, id: string)
    requires WellKeyed(store)
    ensures WellKeyed(store - {id})
  {
  }

  /** `Date.now() - days * 24 * 60 * 60 * 1000`. */
  function CutOff(now: int, days: int): (t: int)
    ensures days >= 0 ==> t <= now
    ensures now - t == days * 86400000
  {
    now - days * MsPerDay
  }

  /** A longer retention reaches further back; with the default of seven days
      the cut-off is 604 800 000 ms before now. */
  lemma CutOffMonotone(now: int, d1: int, d2: int)
    requires d1 <= d2
    ensures CutOff(now, d2) <= CutOff(now, d1)
    ensures CutOff(now, DefaultRetentionDays) == now - 604800000
  {
  }

  /** One `videoQueue.clean(cutOff, state)` call. */
  datatype CleanRequest = CleanRequest(cutOff: int, state: JobState)

  /** The body of a webhook call. */
  datatype WebhookPayload =
    | CompletedPayload(jobId: string, result: Blob)
    | FailedPayload(jobId: string, error: string)
  {
    function Status(): string {
      if CompletedPayload? then "completed" else "failed"
    }
  }

  /** A JSON POST to `url` with `payload`, abandoned after `timeoutMs`. */
  datatype WebhookCall = WebhookCall(url: string, payload: WebhookPayload, timeoutMs: nat)

  /** `if (job.data.webhookUrl)`: present and not the empty string. */
  predicate HasWebhook(data: JobData) {
    data.webhookUrl.Some? && data.webhookUrl.value != ""
  }

  /** The webhook the `completed` listener sends, if any. The listener reads
      `result.videoUrl` first, so a `null` or `undefined` result throws there
      and no webhook goes out. */
  function OnCompleted(job: Job, result: Option<Blob>): (w: Option<WebhookCall>)
    ensures w.Some? <==> HasWebhook(job.data) && result.Some?
    ensures w.Some? ==> w.value.url == job.data.webhookUrl.value && w.value.timeoutMs == 5000
    ensures w.Some? ==> w.value.payload == CompletedPayload(job.id, result.value)
    ensures w.Some? ==> w.value.payload.Status() == "completed"
  {
    if result.None? then None
    else if HasWebhook(job.data)
    then Some(WebhookCall(job.data.webhookUrl.value, CompletedPayload(job.id, result.value), WebhookTimeoutMs))
    else None
  }

  /** The webhook the `failed` listener sends, if any. */
  function OnFailed(job: Job, err: Error): (w: Option<WebhookCall>)
    ensures w.Some? <==> HasWebhook(job.data)
    ensures w.Some? ==> w.value.url == job.data.webhookUrl.value && w.value.timeoutMs == 5000
    ensures w.Some? ==> w.value.payload == FailedPayload(job.id, err.message)
    ensures w.Some? ==> w.value.payload.Status() == "failed"
  {
    if HasWebhook(job.data)
    then Some(WebhookCall(job.data.webhookUrl.value, FailedPayload(job.id, err.message), WebhookTimeoutMs))
    else None
  }

  /** For a non-null result both listeners notify under the same condition,
      address the same URL with the same job id, and never send the same payload. */
  lemma WebhooksAgree(job: Job, result: Option<Blob>, err: Error)
    ensures OnCompleted(job, result).Some? ==> OnFailed(job, err).Some?
    ensures result.Some? ==> (OnCompleted(job, result).Some? <==> OnFailed(job, err).Some?)
    ensures OnCompleted(job, result).Some? ==>
              OnCompleted(job, result).value.url == OnFailed(job, err).value.url
              && OnCompleted(job, result).value.payload.jobId == OnFailed(job, err).value.payload.jobId
              && OnCompleted(job, result).value.payload != OnFailed(job, err).value.payload
  {
  }

  /** The module-level queue: `initialised` says whether `initializeQueue` has
      run; `jobs` is what the broker holds. */
  class JobQueue {
    var initialised: bool
    var name: string
    var redisUrl: string
    var defaults: DefaultJobOptions
    var concurrency: int
    var jobs: Store

    ghost predicate Valid()
      reads this
    {
      WellKeyed(jobs)
    }

    /** Before `initializeQueue` runs nothing is usable; the broker may
        already hold records. */
    constructor (stored: Store)
      requires WellKeyed(stored)
      ensures Valid() && !initialised && jobs == stored
    {
      initialised := false;
      name := "";
      redisUrl := DefaultRedisUrl;
      defaults := DefaultOptions(Config(None, None, None));
      concurrency := DefaultConcurrency;
      jobs := stored;
    }

    method InitializeQueue(cfg: Config)
      requires Valid()
      modifies this
      ensures Valid()
      ensures initialised && jobs == old(jobs)
      ensures name == QueueName
      ensures redisUrl == StringOr(cfg.redisUrl, DefaultRedisUrl)
      ensures defaults == DefaultOptions(cfg) && concurrency == Concurrency(cfg)
    {
      name := QueueName;
      redisUrl := StringOr(cfg.redisUrl, DefaultRedisUrl);
      defaults := DefaultOptions(cfg);
      concurrency := Concurrency(cfg);
      initialised := true;
    }

    /** Submits `data` under `data.projectId`. A record already stored under
        that id is kept and returned. */
    method AddVideoJob(data: JobData, now: int) returns (r: Result<Job, Error>)
      requires Valid()
      modifies this`jobs
      ensures Valid()
      ensures !initialised ==> r == Failure(NotInitialized) && jobs == old(jobs)
      ensures initialised ==> r.Success? && r.value.id == data.projectId
                              && data.projectId in jobs && jobs[data.projectId] == r.value
      ensures initialised && data.projectId !in old(jobs) ==>
                r.value == NewJob(data, defaults, now) && jobs == old(jobs)[data.projectId := r.value]
      ensures initialised && data.projectId in old(jobs) ==>
                r.value == old(jobs)[data.projectId] && jobs == old(jobs)
    {
      if !initialised {
        return Failure(NotInitialized);
      }
      var id := data.projectId;
      if id in jobs {
        r := Success(jobs[id]);
      } else {
        var job := NewJob(data, defaults, now);
        jobs := jobs[id := job];
        r := Success(job);
      }
    }

    method GetJob(id: string) returns (r: Result<Option<Job>, Error>)
      ensures !initialised ==> r == Failure(NotInitialized)
      ensures initialised ==> r.Success? && (r.value.Some? <==> id in jobs)
      ensures initialised && id in jobs ==> r.value == Some(jobs[id])
    {
      if !initialised {
        return Failure(NotInitialized);
      }
      r := Success(Lookup(jobs, id));
    }

    /** Removes the job unless it is absent or finished; answers whether it did. */
    method CancelJob(id: string) returns (r: Result<bool, Error>)
      requires Valid()
      modifies this`jobs
      ensures Valid()
      ensures !initialised ==> r == Failure(NotInitialized) && jobs == old(jobs)
      ensures initialised ==> r == Success(Cancellable(old(jobs), id))
      ensures r == Success(true) ==> jobs == old(jobs) - {id}
      ensures r != Success(true) ==> jobs == old(jobs)
    {
      if !initialised {
        return Failure(NotInitialized);
      }
      var job := Lookup(jobs, id);
      if job.None? {
        return Success(false);
      }
      var state := job.value.state;
      if state == Completed || state == Failed {
        return Success(false);
      }
      CancelPreservesWellKeyed(jobs, id);
      jobs := jobs - {id};
      r := Success(true);
    }

    method GetQueueStats() returns (r: Result<Stats, Error>)
      ensures !initialised ==> r == Failure(NotInitialized)
      ensures initialised ==> r.Success? && r.value.total == |jobs|
      ensures initialised ==> r == Success(Snapshot(jobs))
    {
      if !initialised {
        return Failure(NotInitialized);
      }
      r := Success(Snapshot(jobs));
    }

    /** The cleanup requests for records older than `olderThanDays` (seven when
        omitted). What Bull then removes is not part of this model. */
    method CleanOldJobs(olderThanDays: Option<int>, now: int) returns (r: Result<seq<CleanRequest>, Error>)
      ensures !initialised ==> r == Failure(NotInitialized)
      ensures initialised ==> r.Success? && |r.value| == 2
      ensures initialised ==> r.value[0].state == Completed && r.value[1].state == Failed
      ensures initialised ==> forall i :: 0 <= i < |r.value| ==>
                r.value[i].state.IsFinished() && r.value[i].cutOff == CutOff(now, olderThanDays.GetOr(7))
    {
      if !initialised {
        return Failure(NotInitialized);
      }
      var days := olderThanDays.GetOr(DefaultRetentionDays);
      var timestamp := CutOff(now, days);
      r := Success([CleanRequest(timestamp, Completed), CleanRequest(timestamp, Failed)]);
    }
  }
}
