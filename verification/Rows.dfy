/** The rows of the Postgres tables, and the whole database as one value. */
module Rows {

  datatype Option<+T> = None | Some(value: T)

  // UUIDs are read as numbers; a job id identifies its row without created_at.
  type WorkerId = nat
  type JobId = nat
  type InstanceId = string
  type Capability = string

  // Timestamps and durations count nanoseconds, as time.Duration does.
  type Time = int
  const SECOND: int := 1_000_000_000

  datatype WorkerStatus = Registering | Ready | Busy | Draining | Offline | Dead
  datatype JobStatus = Queued | Assigned | Running | Success | Failed | Retrying | Cancelled

  datatype Worker = Worker(
    instance: InstanceId,
    caps: seq<Capability>,
    status: WorkerStatus,
    slots: int,
    avail: int,
    epoch: int,
    currentJob: Option<JobId>,
    lastHeartbeat: Option<Time>,
    registeredAt: Time,
    drainRequested: bool)

  datatype Job = Job(
    priority: int,
    caps: seq<Capability>,
    status: JobStatus,
    worker: Option<WorkerId>,
    epoch: Option<int>,
    retries: int,
    maxRetries: int,
    retryAt: Option<Time>,
    startedAt: Option<Time>,
    finishedAt: Option<Time>)

  /** Which of its two writers inserted a job_retry_history row, with the error_message it wrote. */
  datatype Cause = WorkerDied | Reported(message: string)
  datatype Attempt = Attempt(number: nat, worker: Option<WorkerId>, cause: Cause)

  /** `instances` is the unique index on workers.instance_id; `history` groups job_retry_history by job. */
  datatype Db = Db(
    workers: map<WorkerId, Worker>,
    instances: map<InstanceId, WorkerId>,
    jobs: map<JobId, Job>,
    history: map<JobId, seq<Attempt>>)

  const EMPTY: Db := Db(map[], map[], map[], map[])

  predicate Live(s: JobStatus) { s.Assigned? || s.Running? }

  predicate Terminal(s: JobStatus) { s.Success? || s.Failed? || s.Cancelled? }

  /** The statuses ListStale and MarkDeadAndRequeue look at. */
  predicate Reapable(s: WorkerStatus) { !s.Offline? && !s.Dead? }

  predicate HeldBy(row: Job, w: WorkerId) { Live(row.status) && row.worker == Some(w) }

  predicate HeldAt(row: Job, w: WorkerId, e: int) { HeldBy(row, w) && row.epoch == Some(e) }

  function AttemptsOf(history: map<JobId, seq<Attempt>>, j: JobId): seq<Attempt> {
    if j in history then history[j] else []
  }

  predicate Covers(have: seq<Capability>, need: seq<Capability>) {
    forall c | c in need :: c in have
  }
}
