/**
 * What one transaction does to one worker row, column by column and with every guard written out: the reference that
 * the transaction functions are checked against, as JobSteps is for jobs.
 */
module WorkerSteps {
  import opened Rows
  import opened Transactions
  import opened Invariants

  /** Row `a` of worker w before the transaction, row `b` after it. */
  predicate RowStep(db: Db, tx: Tx, w: WorkerId, a: Worker, b: Worker) {
    match tx
    case Register(inst, _, caps, slots, now) =>
      b == if a.instance != inst then a
           else Worker(a.instance, caps, Ready, if slots <= 0 then 1 else slots, if slots <= 0 then 1 else slots, a.epoch + 1,
                       None, Some(now), a.registeredAt, a.drainRequested)
    case Flush(v, e, status, job, now) =>
      b == if v != w || e != a.epoch || (job.Some? && job.value !in db.jobs) then a
           else Worker(a.instance, a.caps, status, a.slots, a.avail, a.epoch, job, Some(now), a.registeredAt, a.drainRequested)
    case MarkDead(v, e) =>
      b == if v != w || e != a.epoch || a.status == Dead || a.status == Offline then a
           else a.(status := Dead, avail := a.slots)
    case Assign(j, v, e) =>
      b == if v != w || e != a.epoch || a.status != Ready || a.avail <= 0 || j !in db.jobs || db.jobs[j].status != Queued then a
           else a.(status := Busy, currentJob := Some(j), avail := a.avail - 1)
    case Free(v, e) =>
      if v != w || e != a.epoch then b == a
      else
        && b.status == (if a.drainRequested then Draining else Ready)
        && b.currentJob == None && b.avail <= a.avail + 1 && b.avail <= a.slots && (b.avail == a.avail + 1 || b.avail == a.slots)
        && b == a.(status := b.status, currentJob := b.currentJob, avail := b.avail)
    case RequestDrain(v) =>
      b == if v != w || a.status == Dead || a.status == Offline then a
           else if a.status == Ready then a.(drainRequested := true, status := Draining) else a.(drainRequested := true)
    case ResumeDrain(v) =>
      b == if v != w || a.status == Dead || a.status == Offline then a
           else if a.status == Draining then a.(drainRequested := false, status := Ready) else a.(drainRequested := false)
    case _ => b == a
  }

  lemma WorkerStep(db: Db, tx: Tx, w: WorkerId)
    requires IndexOk(db) && w in db.workers
    ensures w in Apply(db, tx).workers && RowStep(db, tx, w, db.workers[w], Apply(db, tx).workers[w])
  {
    if tx.Register? { RegisterRow(db, tx, w); } else { OtherRow(db, tx, w); }
  }

  lemma RegisterRow(db: Db, tx: Tx, w: WorkerId)
    requires IndexOk(db) && w in db.workers && tx.Register?
    ensures w in Apply(db, tx).workers && RowStep(db, tx, w, db.workers[w], Apply(db, tx).workers[w])
  {
    if tx.inst in db.instances { assert db.workers[db.instances[tx.inst]].instance == tx.inst; }
  }

  lemma OtherRow(db: Db, tx: Tx, w: WorkerId)
    requires w in db.workers && !tx.Register?
    ensures w in Apply(db, tx).workers && RowStep(db, tx, w, db.workers[w], Apply(db, tx).workers[w])
  {
  }

  /** A row appears exactly by the first registration of an instance, under the id generated for it. */
  lemma WorkerAppears(db: Db, tx: Tx, w: WorkerId)
    requires IndexOk(db) && w !in db.workers
    ensures w in Apply(db, tx).workers <==> tx.Register? && tx.newId == w && tx.inst !in db.instances
    ensures w in Apply(db, tx).workers ==>
      var n := if tx.slots <= 0 then 1 else tx.slots;
      Apply(db, tx).workers[w] == Worker(tx.inst, tx.caps, Ready, n, n, 1, None, Some(tx.now), tx.now, false)
  {
  }
}
