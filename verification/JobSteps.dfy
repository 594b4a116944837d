/**
 * What one transaction does to one job, with every guard and column written out: the reference the transaction functions are
 * checked against. Every run-level claim about a job goes through this table.
 */
module JobSteps {
  import opened Rows
  import opened Backoff
  import opened Transactions

  datatype Change =
    | Untouched   // this transaction does not change the row
    | Submitted   // inserted, QUEUED
    | Placed      // QUEUED to ASSIGNED
    | Began       // ASSIGNED to RUNNING
    | Closed      // live to SUCCESS or CANCELLED by an accepted report
    | Delayed     // live to RETRYING by an accepted failure report
    | Exhausted   // live to FAILED by an accepted failure report
    | Lost        // live to QUEUED by the death of its worker
    | Released    // RETRYING to QUEUED

  function ChangeOf(db: Db, tx: Tx, j: JobId): Change {
    match tx
    case Create(k, _, _, _) => if k == j && j !in db.jobs then Submitted else Untouched
    case Assign(k, w, e) =>
      if k == j && j in db.jobs && db.jobs[j].status == Queued && w in db.workers && db.workers[w].epoch == e
         && db.workers[w].status == Ready && db.workers[w].avail > 0
      then Placed else Untouched
    case MarkRunning(k, e, _) =>
      if k == j && j in db.jobs && db.jobs[j].status == Assigned && db.jobs[j].epoch == Some(e) then Began else Untouched
    case Complete(k, e, _, _) => if k == j && Answers(db, j, e) then Closed else Untouched
    case RetryOrFail(k, e, _, _, _) =>
      if k == j && Answers(db, j, e) then
        if db.jobs[j].retries < db.jobs[j].maxRetries then Delayed else Exhausted
      else Untouched
    case MarkDead(w, e) =>
      if w in db.workers && db.workers[w].epoch == e && db.workers[w].status != Dead && db.workers[w].status != Offline
         && j in db.jobs && (db.jobs[j].status == Assigned || db.jobs[j].status == Running) && db.jobs[j].worker == Some(w)
      then Lost else Untouched
    case Requeue(k) => if k == j && j in db.jobs && db.jobs[j].status == Retrying then Released else Untouched
    case _ => Untouched
  }

  /** The job is ASSIGNED or RUNNING under the report's epoch. */
  predicate Answers(db: Db, j: JobId, e: int) {
    j in db.jobs && (db.jobs[j].status == Assigned || db.jobs[j].status == Running) && db.jobs[j].epoch == Some(e)
  }

  /** The row before and after, for each kind of change. */
  predicate Explains(c: Change, tx: Tx, a: Job, b: Job) {
    match c
    case Untouched => b == a
    case Submitted => false
    case Placed => tx.Assign? && a.status.Queued? && b == a.(status := Assigned, worker := Some(tx.w), epoch := Some(tx.e))
    case Began => tx.MarkRunning? && a.status.Assigned? && b == a.(status := Running, startedAt := Some(tx.now))
    case Closed => tx.Complete? && Live(a.status) && a.epoch == Some(tx.e)
                   && b == a.(status := if tx.outcome == Succeeded then Success else Cancelled, finishedAt := Some(tx.now))
    case Delayed => tx.RetryOrFail? && Live(a.status) && a.epoch == Some(tx.e) && a.retries < a.maxRetries
                    && b == a.(status := Retrying, retries := a.retries + 1, retryAt := Some(tx.now + RetryBackoff(a.retries + 1)),
                               worker := None, epoch := None, startedAt := None)
    case Exhausted => tx.RetryOrFail? && Live(a.status) && a.epoch == Some(tx.e)
                      && a.retries >= a.maxRetries && b == a.(status := Failed, finishedAt := Some(tx.now))
    case Lost => tx.MarkDead? && HeldBy(a, tx.w) && b == a.(status := Queued, worker := None, epoch := None, startedAt := None)
    case Released => tx.Requeue? && a.status.Retrying? && b == a.(status := Queued, retryAt := None)
  }

  lemma JobStep(db: Db, tx: Tx, j: JobId)
    requires j in db.jobs
    ensures j in Apply(db, tx).jobs
    ensures Explains(ChangeOf(db, tx, j), tx, db.jobs[j], Apply(db, tx).jobs[j])
  {
  }

  /** A job that appears was just submitted, QUEUED with its full budget. */
  lemma JobAppears(db: Db, tx: Tx, j: JobId)
    requires j !in db.jobs
    ensures j in Apply(db, tx).jobs <==> ChangeOf(db, tx, j).Submitted?
    ensures ChangeOf(db, tx, j) in {Submitted, Untouched}
    ensures ChangeOf(db, tx, j).Submitted? ==>
      tx.Create? && Apply(db, tx).jobs[j] ==
        Job(tx.priority, tx.caps, Queued, None, None, 0, if tx.maxRetries <= 0 then 3 else tx.maxRetries, None, None, None)
  {
  }

  /** The history rows a transaction adds for a job. */
  lemma HistoryGrows(db: Db, tx: Tx, j: JobId)
    requires db.history.Keys <= db.jobs.Keys
    ensures Apply(db, tx).history.Keys <= Apply(db, tx).jobs.Keys
    ensures var rows, c := AttemptsOf(db.history, j), ChangeOf(db, tx, j);
            AttemptsOf(Apply(db, tx).history, j) ==
              if c.Lost? then rows + [Attempt(|rows| + 1, Some(tx.w), WorkerDied)]
              else if c.Delayed? || c.Exhausted? then rows + [Attempt(|rows| + 1, tx.reporter, Reported(tx.message))]
              else rows
  {
  }
}
