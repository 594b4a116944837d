/**
 * WorkerStore and JobStore: the tables as mutable fields, each method one transaction, statement by
 * statement. Each method is proved to leave exactly the database its transaction function describes.
 */
module Store {
  import opened Rows
  import opened Backoff
  import opened Transactions

  datatype DrainResult = DrainResult(epoch: int, status: WorkerStatus, currentJob: Option<JobId>, avail: int)

  class Tables {
    var workers: map<WorkerId, Worker>
    var instances: map<InstanceId, WorkerId>
    var jobs: map<JobId, Job>
    var history: map<JobId, seq<Attempt>>

    function View(): Db
      reads this
    {
      Db(workers, instances, jobs, history)
    }

    constructor ()
      ensures View() == EMPTY
    {
      workers, instances, jobs, history := map[], map[], map[], map[];
    }

    /** The upsert on instance_id, then the promotion to READY, in one transaction. */
    method Register(inst: InstanceId, newId: WorkerId, caps: seq<Capability>, slots: int, now: Time)
      returns (issued: Option<(WorkerId, int)>)
      modifies this
      ensures View() == AfterRegister(old(View()), inst, newId, caps, slots, now)
      ensures issued == Issued(old(View()), inst, newId)
    {
      var n := if slots <= 0 then 1 else slots;
      var w: WorkerId;
      if inst in instances {
        w := instances[inst];
        if w !in workers { return None; }
        var row := workers[w];
        workers := workers[w := row.(caps := caps, status := Registering, slots := n, avail := n,
                                     currentJob := None, lastHeartbeat := None, epoch := row.epoch + 1)];
      } else {
        w := newId;
        if w in workers { return None; }
        workers := workers[w := Worker(inst, caps, Registering, n, n, 1, None, None, now, false)];
        instances := instances[inst := w];
      }
      issued := Some((w, workers[w].epoch));
      workers := workers[w := workers[w].(status := Ready, lastHeartbeat := Some(now))];
    }

    method UpdateHeartbeat(w: WorkerId, e: int, status: WorkerStatus, job: Option<JobId>, now: Time) returns (ok: bool)
      modifies this`workers
      ensures View() == AfterFlush(old(View()), w, e, status, job, now)
      ensures ok == CanFlush(old(View()), w, e, job)
    {
      if job.Some? && job.value !in jobs { return false; }
      if w !in workers || workers[w].epoch != e { return false; }
      workers := workers[w := workers[w].(status := status, currentJob := job, lastHeartbeat := Some(now))];
      ok := true;
    }

    /**
     * The rows to requeue are read once, then updated one by one without a status guard, each with the
     * next free attempt number; the order of the rows is the database's choice.
     */
    method MarkDeadAndRequeue(w: WorkerId, e: int)
      modifies this`workers, this`jobs, this`history
      ensures View() == AfterDeath(old(View()), w, e)
    {
      if w !in workers || workers[w].epoch != e || !Reapable(workers[w].status) { return; }
      workers := workers[w := workers[w].(status := Dead, avail := workers[w].slots)];
      ghost var db := old(View());
      ghost var done: set<JobId> := {};
      var todo := Holding(jobs, w);
      assert history == HistoryOrphaned(db.history, {}, w);
      while todo != {}
        invariant workers == db.workers[w := DeadRow(db.workers[w])] && instances == db.instances
        invariant done + todo == Holding(db.jobs, w) && done !! todo
        invariant jobs == JobsOrphaned(db.jobs, done)
        invariant history == HistoryOrphaned(db.history, done, w)
        decreases todo
      {
        var j :| j in todo;
        OrphanOneMore(db.jobs, db.history, done, j, w);
        jobs := jobs[j := jobs[j].(status := Queued, worker := None, epoch := None, startedAt := None)];
        var rows := if j in history then history[j] else [];
        history := history[j := rows + [Attempt(|rows| + 1, Some(w), WorkerDied)]];
        todo, done := todo - {j}, done + {j};
      }
    }

    /** Both updates commit together: a job that is no longer QUEUED rolls the worker's row back. */
    method AssignJob(j: JobId, w: WorkerId, e: int) returns (ok: bool)
      modifies this`workers, this`jobs
      ensures View() == AfterAssign(old(View()), j, w, e)
      ensures ok == CanAssign(old(View()), j, w, e)
    {
      if w !in workers || workers[w].epoch != e || workers[w].status != Ready || workers[w].avail <= 0 { return false; }
      var before := workers;
      workers := workers[w := workers[w].(status := Busy, currentJob := Some(j), avail := workers[w].avail - 1)];
      if j !in jobs || jobs[j].status != Queued {
        workers := before;
        return false;
      }
      jobs := jobs[j := jobs[j].(status := Assigned, worker := Some(w), epoch := Some(e))];
      ok := true;
    }

    method FreeWorker(w: WorkerId, e: int) returns (freed: Option<(int, WorkerStatus)>)
      modifies this`workers
      ensures View() == AfterFree(old(View()), w, e)
      ensures freed == if AtEpoch(old(View()), w, e) then Some((workers[w].avail, workers[w].status)) else None
    {
      if w !in workers || workers[w].epoch != e { return None; }
      var row := workers[w];
      var least := if row.avail + 1 < row.slots then row.avail + 1 else row.slots;
      workers := workers[w := row.(status := if row.drainRequested then Draining else Ready, currentJob := None, avail := least)];
      freed := Some((least, workers[w].status));
    }

    method RequestDrain(w: WorkerId) returns (r: Option<DrainResult>)
      modifies this`workers
      ensures View() == AfterRequestDrain(old(View()), w)
      ensures r == if CanDrain(old(View()), w) then Some(DrainOf(workers[w])) else None
    {
      if w !in workers || workers[w].status == Offline || workers[w].status == Dead { return None; }
      var row := workers[w];
      workers := workers[w := row.(drainRequested := true, status := if row.status == Ready then Draining else row.status)];
      r := Some(DrainOf(workers[w]));
    }

    method ResumeDrain(w: WorkerId) returns (r: Option<DrainResult>)
      modifies this`workers
      ensures View() == AfterResumeDrain(old(View()), w)
      ensures r == if CanDrain(old(View()), w) then Some(DrainOf(workers[w])) else None
    {
      if w !in workers || workers[w].status == Offline || workers[w].status == Dead { return None; }
      var row := workers[w];
      workers := workers[w := row.(drainRequested := false, status := if row.status == Draining then Ready else row.status)];
      r := Some(DrainOf(workers[w]));
    }

    method Create(j: JobId, priority: int, caps: seq<Capability>, maxRetries: int) returns (existing: bool)
      modifies this`jobs
      ensures View() == AfterCreate(old(View()), j, priority, caps, maxRetries)
      ensures existing == (j in old(View()).jobs)
    {
      existing := j in jobs;
      if existing { return; }
      jobs := jobs[j := Job(priority, caps, Queued, None, None, 0, if maxRetries <= 0 then 3 else maxRetries, None, None, None)];
    }

    method MarkRunning(j: JobId, e: int, now: Time) returns (ok: bool)
      modifies this`jobs
      ensures View() == AfterMarkRunning(old(View()), j, e, now)
      ensures ok == CanStart(old(View()), j, e)
    {
      if j !in jobs || jobs[j].epoch != Some(e) || jobs[j].status != Assigned { return false; }
      jobs := jobs[j := jobs[j].(status := Running, startedAt := Some(now))];
      ok := true;
    }

    method Complete(j: JobId, e: int, outcome: Outcome, now: Time) returns (ok: bool)
      modifies this`jobs
      ensures View() == AfterComplete(old(View()), j, e, outcome, now)
      ensures ok == CanReport(old(View()), j, e)
    {
      if j !in jobs || jobs[j].epoch != Some(e) || !Live(jobs[j].status) { return false; }
      jobs := jobs[j := jobs[j].(status := OutcomeStatus(outcome), finishedAt := Some(now))];
      ok := true;
    }

    method RetryOrFail(j: JobId, e: int, reporter: Option<WorkerId>, message: string, now: Time) returns (ok: bool)
      modifies this`jobs, this`history
      ensures View() == AfterFailure(old(View()), j, e, reporter, message, now)
      ensures ok == CanReport(old(View()), j, e)
    {
      if j !in jobs || jobs[j].epoch != Some(e) || !Live(jobs[j].status) { return false; }
      var rows := if j in history then history[j] else [];
      var nextRetries := jobs[j].retries + 1;
      if nextRetries <= jobs[j].maxRetries {
        jobs := jobs[j := jobs[j].(status := Retrying, retries := nextRetries, retryAt := Some(now + RetryBackoff(nextRetries)),
                                   worker := None, epoch := None, startedAt := None)];
      } else {
        jobs := jobs[j := jobs[j].(status := Failed, finishedAt := Some(now))];
      }
      history := history[j := rows + [Attempt(|rows| + 1, reporter, Reported(message))]];
      ok := true;
    }

    method MarkQueuedFromRetry(j: JobId) returns (ok: bool)
      modifies this`jobs
      ensures View() == AfterRequeue(old(View()), j)
      ensures ok == CanRequeue(old(View()), j)
    {
      if j !in jobs || jobs[j].status != Retrying { return false; }
      jobs := jobs[j := jobs[j].(status := Queued, retryAt := None)];
      ok := true;
    }
  }

  function DrainOf(row: Worker): DrainResult {
    DrainResult(row.epoch, row.status, row.currentJob, row.avail)
  }
}
