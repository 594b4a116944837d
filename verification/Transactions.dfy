/**
 * What each committed Postgres transaction does to the database. Every argument is free: a caller may
 * pass ids, epochs and statuses it read long ago, and the guards decide what happens.
 */
module Transactions {
  import opened Rows
  import opened Backoff

  /** The two outcomes Complete records; a failure goes through RetryOrFail. */
  datatype Outcome = Succeeded | Withdrawn

  datatype Tx =
    | Register(inst: InstanceId, newId: WorkerId, caps: seq<Capability>, slots: int, now: Time)
    | Flush(w: WorkerId, e: int, status: WorkerStatus, job: Option<JobId>, now: Time)
    | MarkDead(w: WorkerId, e: int)
    | Assign(j: JobId, w: WorkerId, e: int)
    | Free(w: WorkerId, e: int)
    | RequestDrain(w: WorkerId)
    | ResumeDrain(w: WorkerId)
    | Create(j: JobId, priority: int, caps: seq<Capability>, maxRetries: int)
    | MarkRunning(j: JobId, e: int, now: Time)
    | Complete(j: JobId, e: int, outcome: Outcome, now: Time)
    | RetryOrFail(j: JobId, e: int, reporter: Option<WorkerId>, message: string, now: Time)
    | Requeue(j: JobId)

  function AtLeastOne(n: int, otherwise: int): int { if n <= 0 then otherwise else n }

  function OutcomeStatus(o: Outcome): JobStatus { if o.Succeeded? then Success else Cancelled }

  // ---- workers ----

  /** The row ON CONFLICT (instance_id) writes; drain_requested and registered_at survive. */
  function Reregistered(row: Worker, caps: seq<Capability>, n: int, now: Time): Worker {
    row.(caps := caps, status := Ready, slots := n, avail := n, epoch := row.epoch + 1,
         currentJob := None, lastHeartbeat := Some(now))
  }

  predicate CanInsertWorker(db: Db, inst: InstanceId, newId: WorkerId) {
    inst !in db.instances && newId !in db.workers
  }

  predicate KnownInstance(db: Db, inst: InstanceId) {
    inst in db.instances && db.instances[inst] in db.workers
  }

  function AfterRegister(db: Db, inst: InstanceId, newId: WorkerId, caps: seq<Capability>, slots: int, now: Time): Db {
    var n := AtLeastOne(slots, 1);
    if KnownInstance(db, inst) then
      var w := db.instances[inst];
      db.(workers := db.workers[w := Reregistered(db.workers[w], caps, n, now)])
    else if CanInsertWorker(db, inst, newId) then
      db.(workers := db.workers[newId := Worker(inst, caps, Ready, n, n, 1, None, Some(now), now, false)],
          instances := db.instances[inst := newId])
    else db
  }

  /** The (worker_id, epoch) pair a registration hands out. */
  function Issued(db: Db, inst: InstanceId, newId: WorkerId): Option<(WorkerId, int)> {
    if KnownInstance(db, inst) then Some((db.instances[inst], db.workers[db.instances[inst]].epoch + 1))
    else if CanInsertWorker(db, inst, newId) then Some((newId, 1))
    else None
  }

  predicate AtEpoch(db: Db, w: WorkerId, e: int) { w in db.workers && db.workers[w].epoch == e }

  /** A flush naming an unknown job fails before its update; one with a stale epoch matches no row. */
  predicate CanFlush(db: Db, w: WorkerId, e: int, job: Option<JobId>) {
    AtEpoch(db, w, e) && (job.Some? ==> job.value in db.jobs)
  }

  function AfterFlush(db: Db, w: WorkerId, e: int, status: WorkerStatus, job: Option<JobId>, now: Time): Db {
    if CanFlush(db, w, e, job) then
      db.(workers := db.workers[w := db.workers[w].(status := status, currentJob := job, lastHeartbeat := Some(now))])
    else db
  }

  predicate CanMarkDead(db: Db, w: WorkerId, e: int) {
    AtEpoch(db, w, e) && Reapable(db.workers[w].status)
  }

  function Orphaned(row: Job): Job {
    row.(status := Queued, worker := None, epoch := None, startedAt := None)
  }

  function WithDeath(rows: seq<Attempt>, w: WorkerId): seq<Attempt> {
    rows + [Attempt(|rows| + 1, Some(w), WorkerDied)]
  }

  function Holding(jobs: map<JobId, Job>, w: WorkerId): set<JobId> {
    set j | j in jobs && HeldBy(jobs[j], w)
  }

  function JobsOrphaned(jobs: map<JobId, Job>, orphans: set<JobId>): map<JobId, Job> {
    map j | j in jobs :: if j in orphans then Orphaned(jobs[j]) else jobs[j]
  }

  function HistoryOrphaned(history: map<JobId, seq<Attempt>>, orphans: set<JobId>, w: WorkerId): map<JobId, seq<Attempt>> {
    map j | j in history.Keys + orphans ::
      if j in orphans then WithDeath(AttemptsOf(history, j), w) else history[j]
  }

  function DeadRow(row: Worker): Worker { row.(status := Dead, avail := row.slots) }

  /** All the jobs a worker holds, under whatever epoch, go back to the queue with a history row each. */
  function AfterDeath(db: Db, w: WorkerId, e: int): Db {
    if CanMarkDead(db, w, e) then
      db.(workers := db.workers[w := DeadRow(db.workers[w])],
          jobs := JobsOrphaned(db.jobs, Holding(db.jobs, w)),
          history := HistoryOrphaned(db.history, Holding(db.jobs, w), w))
    else db
  }

  /** Requeueing one more job of the batch. */
  lemma OrphanOneMore(jobs: map<JobId, Job>, history: map<JobId, seq<Attempt>>, done: set<JobId>, j: JobId, w: WorkerId)
    requires j in jobs && j !in done
    ensures JobsOrphaned(jobs, done + {j}) == JobsOrphaned(jobs, done)[j := Orphaned(jobs[j])]
    ensures HistoryOrphaned(history, done + {j}, w)
         == HistoryOrphaned(history, done, w)[j := WithDeath(AttemptsOf(HistoryOrphaned(history, done, w), j), w)]
  {
  }

  predicate CanAssign(db: Db, j: JobId, w: WorkerId, e: int) {
    && AtEpoch(db, w, e) && db.workers[w].status.Ready? && db.workers[w].avail > 0
    && j in db.jobs && db.jobs[j].status.Queued?
  }

  function AfterAssign(db: Db, j: JobId, w: WorkerId, e: int): Db {
    if CanAssign(db, j, w, e) then
      var row := db.workers[w];
      db.(workers := db.workers[w := row.(status := Busy, currentJob := Some(j), avail := row.avail - 1)],
          jobs := db.jobs[j := db.jobs[j].(status := Assigned, worker := Some(w), epoch := Some(e))])
    else db
  }

  function FreedRow(row: Worker): Worker {
    row.(status := if row.drainRequested then Draining else Ready,
         currentJob := None,
         avail := if row.avail + 1 <= row.slots then row.avail + 1 else row.slots)
  }

  function AfterFree(db: Db, w: WorkerId, e: int): Db {
    if AtEpoch(db, w, e) then db.(workers := db.workers[w := FreedRow(db.workers[w])]) else db
  }

  predicate CanDrain(db: Db, w: WorkerId) { w in db.workers && Reapable(db.workers[w].status) }

  function AfterRequestDrain(db: Db, w: WorkerId): Db {
    if CanDrain(db, w) then
      var row := db.workers[w];
      db.(workers := db.workers[w := row.(drainRequested := true, status := if row.status.Ready? then Draining else row.status)])
    else db
  }

  function AfterResumeDrain(db: Db, w: WorkerId): Db {
    if CanDrain(db, w) then
      var row := db.workers[w];
      db.(workers := db.workers[w := row.(drainRequested := false, status := if row.status.Draining? then Ready else row.status)])
    else db
  }

  // ---- jobs ----

  function AfterCreate(db: Db, j: JobId, priority: int, caps: seq<Capability>, maxRetries: int): Db {
    if j in db.jobs then db
    else db.(jobs := db.jobs[j := Job(priority, caps, Queued, None, None, 0, AtLeastOne(maxRetries, 3), None, None, None)])
  }

  predicate CanStart(db: Db, j: JobId, e: int) {
    j in db.jobs && db.jobs[j].status.Assigned? && db.jobs[j].epoch == Some(e)
  }

  function AfterMarkRunning(db: Db, j: JobId, e: int, now: Time): Db {
    if CanStart(db, j, e) then
      db.(jobs := db.jobs[j := db.jobs[j].(status := Running, startedAt := Some(now))])
    else db
  }

  /** The guard of Complete and RetryOrFail: the epoch and a live status, not the worker. */
  predicate CanReport(db: Db, j: JobId, e: int) {
    j in db.jobs && Live(db.jobs[j].status) && db.jobs[j].epoch == Some(e)
  }

  function AfterComplete(db: Db, j: JobId, e: int, outcome: Outcome, now: Time): Db {
    if CanReport(db, j, e) then
      db.(jobs := db.jobs[j := db.jobs[j].(status := OutcomeStatus(outcome), finishedAt := Some(now))])
    else db
  }

  function Parked(row: Job, now: Time): Job {
    row.(status := Retrying, retries := row.retries + 1, retryAt := Some(now + RetryBackoff(row.retries + 1)),
         worker := None, epoch := None, startedAt := None)
  }

  function FailedRow(row: Job, now: Time): Job {
    if row.retries + 1 <= row.maxRetries then Parked(row, now) else row.(status := Failed, finishedAt := Some(now))
  }

  function AfterFailure(db: Db, j: JobId, e: int, reporter: Option<WorkerId>, message: string, now: Time): Db {
    if CanReport(db, j, e) then
      var rows := AttemptsOf(db.history, j);
      db.(jobs := db.jobs[j := FailedRow(db.jobs[j], now)],
          history := db.history[j := rows + [Attempt(|rows| + 1, reporter, Reported(message))]])
    else db
  }

  predicate CanRequeue(db: Db, j: JobId) { j in db.jobs && db.jobs[j].status.Retrying? }

  function AfterRequeue(db: Db, j: JobId): Db {
    if CanRequeue(db, j) then db.(jobs := db.jobs[j := db.jobs[j].(status := Queued, retryAt := None)])
    else db
  }

  // ---- runs ----

  function Apply(db: Db, tx: Tx): Db {
    match tx
    case Register(inst, newId, caps, slots, now) => AfterRegister(db, inst, newId, caps, slots, now)
    case Flush(w, e, status, job, now) => AfterFlush(db, w, e, status, job, now)
    case MarkDead(w, e) => AfterDeath(db, w, e)
    case Assign(j, w, e) => AfterAssign(db, j, w, e)
    case Free(w, e) => AfterFree(db, w, e)
    case RequestDrain(w) => AfterRequestDrain(db, w)
    case ResumeDrain(w) => AfterResumeDrain(db, w)
    case Create(j, priority, caps, maxRetries) => AfterCreate(db, j, priority, caps, maxRetries)
    case MarkRunning(j, e, now) => AfterMarkRunning(db, j, e, now)
    case Complete(j, e, outcome, now) => AfterComplete(db, j, e, outcome, now)
    case RetryOrFail(j, e, reporter, message, now) => AfterFailure(db, j, e, reporter, message, now)
    case Requeue(j) => AfterRequeue(db, j)
  }

  /** The database after a run of transactions from the empty one, in commit order. */
  function Run(txs: seq<Tx>): Db {
    if txs == [] then EMPTY else Apply(Run(txs[..|txs| - 1]), txs[|txs| - 1])
  }

  lemma RunStep(txs: seq<Tx>, k: nat)
    requires k < |txs|
    ensures Run(txs[..k + 1]) == Apply(Run(txs[..k]), txs[k])
  {
    assert txs[..k + 1][..k] == txs[..k];
  }

  // ---- what no transaction changes ----

  /** Job rows are never removed and keep what submission gave them. */
  lemma JobsStay(db: Db, tx: Tx, j: JobId)
    requires j in db.jobs
    ensures j in Apply(db, tx).jobs
    ensures Apply(db, tx).jobs[j].caps == db.jobs[j].caps
    ensures Apply(db, tx).jobs[j].maxRetries == db.jobs[j].maxRetries
    ensures Apply(db, tx).jobs[j].priority == db.jobs[j].priority
  {
  }

  /** Worker rows are never removed, epochs never fall, and only an epoch bump changes capabilities or slots. */
  lemma WorkersStay(db: Db, tx: Tx, w: WorkerId)
    requires w in db.workers
    ensures w in Apply(db, tx).workers
    ensures var a, b := db.workers[w], Apply(db, tx).workers[w];
            && a.epoch <= b.epoch && a.instance == b.instance
            && (a.epoch == b.epoch ==> a.caps == b.caps && a.slots == b.slots)
  {
  }
}
