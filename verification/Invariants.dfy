/**
 * What holds after every run of transactions, whatever arguments they carry and in whatever order
 * they commit: the shape of the rows, the links between them, and the retry history.
 */
module Invariants {
  import opened Rows
  import opened Transactions
  import opened JobSteps

  predicate JobOk(r: Job) {
    && 0 <= r.retries <= r.maxRetries && 1 <= r.maxRetries
    && (r.worker.Some? <==> Live(r.status) || Terminal(r.status))
    && (r.epoch.Some? <==> r.worker.Some?)
    && (r.retryAt.Some? <==> r.status.Retrying?)
    && (r.finishedAt.Some? <==> Terminal(r.status))
    && (r.startedAt.Some? ==> r.status.Running? || Terminal(r.status))
    && (r.status.Running? ==> r.startedAt.Some?)
    && (r.status.Failed? ==> r.retries == r.maxRetries)
  }

  predicate WorkerOk(r: Worker) {
    1 <= r.slots && 0 <= r.avail <= r.slots && 1 <= r.epoch && r.lastHeartbeat.Some?
  }

  /** The rows' worker_id and assignment_epoch point at a worker that has reached that epoch. */
  predicate LinkOk(db: Db, r: Job) {
    r.worker.Some? && r.epoch.Some? ==> r.worker.value in db.workers && r.epoch.value <= db.workers[r.worker.value].epoch
  }

  predicate IndexOk(db: Db) {
    && (forall i | i in db.instances :: db.instances[i] in db.workers && db.workers[db.instances[i]].instance == i)
    && (forall w | w in db.workers :: db.workers[w].instance in db.instances && db.instances[db.workers[w].instance] == w)
  }

  /** Attempt numbers are exactly 1..n. */
  predicate Numbered(rows: seq<Attempt>) {
    forall k | 0 <= k < |rows| :: rows[k].number == k + 1
  }

  function Reports(rows: seq<Attempt>): nat {
    if rows == [] then 0
    else Reports(rows[..|rows| - 1]) + (if rows[|rows| - 1].cause.Reported? then 1 else 0)
  }

  /** The failures charged to a job: one per retry, and the one that exhausted it. */
  function Charged(r: Job): int { r.retries + (if r.status.Failed? then 1 else 0) }

  predicate HistoryOk(db: Db) {
    && db.history.Keys <= db.jobs.Keys
    && (forall j | j in db.jobs ::
          Numbered(AttemptsOf(db.history, j)) && Reports(AttemptsOf(db.history, j)) == Charged(db.jobs[j]))
  }

  predicate Inv(db: Db) {
    && (forall j | j in db.jobs :: JobOk(db.jobs[j]) && LinkOk(db, db.jobs[j]))
    && (forall w | w in db.workers :: WorkerOk(db.workers[w]))
    && IndexOk(db)
    && HistoryOk(db)
  }

  lemma ReportsAppend(rows: seq<Attempt>, a: Attempt)
    ensures Reports(rows + [a]) == Reports(rows) + (if a.cause.Reported? then 1 else 0)
  {
    assert (rows + [a])[..|rows|] == rows;
  }

  lemma JobRowStep(db: Db, tx: Tx, j: JobId)
    requires j in db.jobs ==> JobOk(db.jobs[j])
    requires j in Apply(db, tx).jobs
    ensures JobOk(Apply(db, tx).jobs[j])
  {
    if j in db.jobs { JobStep(db, tx, j); } else { JobAppears(db, tx, j); }
  }

  lemma LinkStep(db: Db, tx: Tx, j: JobId)
    requires j in db.jobs ==> LinkOk(db, db.jobs[j])
    requires j in Apply(db, tx).jobs
    ensures LinkOk(Apply(db, tx), Apply(db, tx).jobs[j])
  {
    if j in db.jobs {
      JobStep(db, tx, j);
      if db.jobs[j].worker.Some? && db.jobs[j].worker.value in db.workers { WorkersStay(db, tx, db.jobs[j].worker.value); }
    } else {
      JobAppears(db, tx, j);
    }
  }

  lemma WorkerRowStep(db: Db, tx: Tx, w: WorkerId)
    requires w in db.workers ==> WorkerOk(db.workers[w])
    requires w in Apply(db, tx).workers
    ensures WorkerOk(Apply(db, tx).workers[w])
  {
  }

  lemma IndexRegister(db: Db, inst: InstanceId, newId: WorkerId, caps: seq<Capability>, slots: int, now: Time)
    requires IndexOk(db)
    ensures IndexOk(AfterRegister(db, inst, newId, caps, slots, now))
  {
  }

  lemma IndexStep(db: Db, tx: Tx)
    requires IndexOk(db)
    ensures IndexOk(Apply(db, tx))
  {
    if tx.Register? {
      IndexRegister(db, tx.inst, tx.newId, tx.caps, tx.slots, tx.now);
    } else {
      var d := Apply(db, tx);
      assert d.instances == db.instances && d.workers.Keys == db.workers.Keys;
      forall w | w in d.workers
        ensures d.workers[w].instance == db.workers[w].instance
      {
        WorkersStay(db, tx, w);
      }
    }
  }

  lemma HistoryRowStep(db: Db, tx: Tx, j: JobId)
    requires HistoryOk(db) && j in Apply(db, tx).jobs
    requires j in db.jobs ==> JobOk(db.jobs[j])
    ensures Numbered(AttemptsOf(Apply(db, tx).history, j))
    ensures Reports(AttemptsOf(Apply(db, tx).history, j)) == Charged(Apply(db, tx).jobs[j])
  {
    HistoryGrows(db, tx, j);
    var rows := AttemptsOf(db.history, j);
    if j in db.jobs {
      JobStep(db, tx, j);
      match ChangeOf(db, tx, j)
      case Lost => ReportsAppend(rows, Attempt(|rows| + 1, Some(tx.w), WorkerDied));
      case Delayed => ReportsAppend(rows, Attempt(|rows| + 1, tx.reporter, Reported(tx.message)));
      case Exhausted => ReportsAppend(rows, Attempt(|rows| + 1, tx.reporter, Reported(tx.message)));
      case _ =>
    } else {
      JobAppears(db, tx, j);
    }
  }

  lemma InvStep(db: Db, tx: Tx)
    requires Inv(db)
    ensures Inv(Apply(db, tx))
  {
    var d := Apply(db, tx);
    forall j | j in d.jobs
      ensures JobOk(d.jobs[j]) && LinkOk(d, d.jobs[j])
      ensures Numbered(AttemptsOf(d.history, j)) && Reports(AttemptsOf(d.history, j)) == Charged(d.jobs[j])
    {
      JobRowStep(db, tx, j);
      LinkStep(db, tx, j);
      HistoryRowStep(db, tx, j);
    }
    forall w | w in d.workers
      ensures WorkerOk(d.workers[w])
    {
      WorkerRowStep(db, tx, w);
    }
    IndexStep(db, tx);
    HistoryGrows(db, tx, 0);
  }

  /** Row shape, links and history survive every run of arbitrary transactions. */
  lemma {:induction false} EveryRunKeepsShape(txs: seq<Tx>)
    ensures Inv(Run(txs))
  {
    if txs != [] {
      EveryRunKeepsShape(txs[..|txs| - 1]);
      InvStep(Run(txs[..|txs| - 1]), txs[|txs| - 1]);
    }
  }
}
