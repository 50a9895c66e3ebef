/** The job records of the Bull queue that the video service runs on, seen
    abstractly: a map from job id to a record. Only the fields the service
    reads or writes are kept. */
module JobStore {
  import opened Wrappers

  /** An opaque JSON value (script, media entry, style, render result ...).
      The service forwards such values and never looks inside them. */
  type Blob = string

  /** The error object a rejected call carries; the service only reads `message`. */
  datatype Error = Error(message: string)

  /** The states Bull reports for a job. The service never pauses the queue,
      so Bull's `paused` state does not occur. */
  datatype JobState = Waiting | Active | Completed | Failed | Delayed {
    /** The string `job.getState()` resolves to. */
    function Name(): string {
      match this
      case Waiting => "waiting"
      case Active => "active"
      case Completed => "completed"
      case Failed => "failed"
      case Delayed => "delayed"
    }

    /** `completed` and `failed` are the two states the service treats as finished. */
    predicate IsFinished() {
      this == Completed || this == Failed
    }
  }

  datatype BackoffKind = Fixed | Exponential

  datatype Backoff = Backoff(kind: BackoffKind, delay: nat)

  /** The options a job is stored with: the queue-wide defaults merged with
      the per-job `priority` and `jobId`. */
  datatype JobOptions = JobOptions(
    attempts: nat,
    backoff: Backoff,
    timeout: int,
    removeOnComplete: bool,
    removeOnFail: bool,
    priority: int,
    jobId: string)

  datatype Script = Script(scenes: Option<seq<Blob>>)

  /** `job.data`: what the controller puts in the queue. A field that is
      `undefined` in the request is `None`. */
  datatype JobData = JobData(
    projectId: string,
    script: Option<Script>,
    media: Option<seq<Blob>>,
    channelStyle: Option<Blob>,
    voiceover: Option<Blob>,
    stockFootage: Option<Blob>,
    metadata: Option<Blob>,
    webhookUrl: Option<string>,
    priority: Option<int>)

  /** A Bull job record. Times are milliseconds since the epoch. */
  datatype Job = Job(
    id: string,
    data: JobData,
    opts: JobOptions,
    state: JobState,
    progress: int,
    returnvalue: Option<Blob>,
    timestamp: int,
    processedOn: Option<int>,
    finishedOn: Option<int>,
    failedReason: Option<string>)

  type Store = map<string, Job>

  /** Every record sits under its own id. */
  predicate WellKeyed(store: Store) {
    forall id :: id in store ==> store[id].id == id
  }

  /** The ids of the jobs currently in state `s`. */
  function IdsIn(store: Store, s: JobState): (ids: set<string>)
    ensures ids <= store.Keys
    ensures forall id :: id in ids <==> id in store && store[id].state == s
  {
    set id | id in store.Keys && store[id].state == s
  }

  /** How many jobs are in state `s`: what Bull's `get<State>Count` answers. */
  function CountIn(store: Store, s: JobState): nat {
    |IdsIn(store, s)|
  }

  lemma DisjointUnionSize(a: set<string>, b: set<string>)
    requires a !! b
    ensures |a + b| == |a| + |b|
  {
  }

  /** The five per-state counts partition the store. */
  lemma CountsPartitionStore(store: Store)
    ensures CountIn(store, Waiting) + CountIn(store, Active) + CountIn(store, Completed)
            + CountIn(store, Failed) + CountIn(store, Delayed) == |store|
  {
    var w, a, c := IdsIn(store, Waiting), IdsIn(store, Active), IdsIn(store, Completed);
    var f, d := IdsIn(store, Failed), IdsIn(store, Delayed);
    DisjointUnionSize(w, a);
    DisjointUnionSize(w + a, c);
    DisjointUnionSize(w + a + c, f);
    DisjointUnionSize(w + a + c + f, d);
    assert w + a + c + f + d == store.Keys;
  }

  /** Removing one record lowers the count of its state by one and no other count. */
  lemma CountAfterRemove(store: Store, id: string, s: JobState)
    requires id in store
    ensures CountIn(store - {id}, s) == CountIn(store, s) - (if store[id].state == s then 1 else 0)
  {
    var before, after := IdsIn(store, s), IdsIn(store - {id}, s);
    if store[id].state == s {
      assert after == before - {id};
      assert before == after + {id};
    } else {
      assert after == before;
    }
  }
}
