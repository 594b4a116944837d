/**
 * Slot conservation. Each handler call is one step here; SplitReports takes ReportJobResult apart.
 * Arguments stay arbitrary, so the cache may say anything and callers may be any number and stale.
 */
module Slots {
  import opened Rows
  import opened Transactions
  import opened JobSteps
  import opened Invariants

  /** The live jobs a worker holds under one epoch. */
  function Held(jobs: map<JobId, Job>, w: WorkerId, e: int): set<JobId> {
    set j | j in jobs && HeldAt(jobs[j], w, e)
  }

  /** How one row's update moves the count. */
  lemma HeldUpdate(jobs: map<JobId, Job>, j: JobId, row: Job, w: WorkerId, e: int)
    ensures |Held(jobs[j := row], w, e)| ==
      |Held(jobs, w, e)| - (if j in jobs && HeldAt(jobs[j], w, e) then 1 else 0) + (if HeldAt(row, w, e) then 1 else 0)
  {
    var a, b := Held(jobs, w, e), Held(jobs[j := row], w, e);
    assert a - {j} == b - {j};
    assert |a| == |a - {j}| + (if j in a then 1 else 0);
    assert |b| == |b - {j}| + (if j in b then 1 else 0);
  }

  /** No job is held under an epoch its worker has not reached. */
  lemma NothingHeldAhead(db: Db, w: WorkerId, e: int)
    requires Inv(db) && (w in db.workers ==> db.workers[w].epoch < e)
    ensures Held(db.jobs, w, e) == {}
  {
    forall j | j in db.jobs
      ensures !HeldAt(db.jobs[j], w, e)
    {
      assert LinkOk(db, db.jobs[j]);
    }
  }

  lemma HeldAfterDeath(jobs: map<JobId, Job>, dead: WorkerId, w: WorkerId, e: int)
    ensures Held(JobsOrphaned(jobs, Holding(jobs, dead)), w, e) == if w == dead then {} else Held(jobs, w, e)
  {
    var after := JobsOrphaned(jobs, Holding(jobs, dead));
    forall j | j in jobs
      ensures j in Held(after, w, e) <==> w != dead && j in Held(jobs, w, e)
    {
    }
  }

  /** A worker's free slots and the jobs it holds at its current epoch. */
  function Load(db: Db, w: WorkerId): int
    requires w in db.workers
  {
    db.workers[w].avail + |Held(db.jobs, w, db.workers[w].epoch)|
  }

  /** They make up the capacity, whatever the status column says. */
  predicate Balanced(db: Db, w: WorkerId)
    requires w in db.workers
  {
    Load(db, w) == db.workers[w].slots
  }

  predicate Conserved(db: Db) { forall w | w in db.workers :: Balanced(db, w) }

  // ---- the machine ----

  /**
   * The reported status as it came over the wire (None: unspecified) decides the transaction; anything
   * but SUCCESS and CANCELLED counts as a failure.
   */
  function RecordTx(j: JobId, e: int, reported: Option<JobStatus>, reporter: Option<WorkerId>, message: string, now: Time): Tx {
    if reported == Some(Success) then Complete(j, e, Succeeded, now)
    else if reported == Some(Cancelled) then Complete(j, e, Withdrawn, now)
    else RetryOrFail(j, e, reporter, message, now)
  }

  /** ReportJobResult on the tables: record the result, then free the worker the job row named. */
  function AfterReport(db: Db, j: JobId, e: int, reported: Option<JobStatus>, message: string, now: Time): Db {
    if j !in db.jobs then db
    else
      var holder := db.jobs[j].worker;
      var d := Apply(db, RecordTx(j, e, reported, holder, message, now));
      if CanReport(db, j, e) && holder.Some? then AfterFree(d, holder.value, e) else d
  }

  datatype Step =
    | Sql(tx: Tx)
    | Report(j: JobId, e: int, reported: Option<JobStatus>, message: string, now: Time)

  /** The transactions some caller issues by themselves; the other three occur inside a report. */
  predicate Standalone(tx: Tx) { !tx.Free? && !tx.Complete? && !tx.RetryOrFail? }

  predicate Legal(s: Step) { s.Sql? ==> Standalone(s.tx) }

  function Do(db: Db, s: Step): Db {
    match s
    case Sql(tx) => Apply(db, tx)
    case Report(j, e, reported, message, now) => AfterReport(db, j, e, reported, message, now)
  }

  function RunFrom(db: Db, steps: seq<Step>): Db {
    if steps == [] then db else Do(RunFrom(db, steps[..|steps| - 1]), steps[|steps| - 1])
  }

  // ---- every step ----

  lemma InvFree(d: Db, w: WorkerId, e: int)
    requires Inv(d)
    ensures Inv(AfterFree(d, w, e))
  {
    InvStep(d, Free(w, e));
  }

  lemma InvReport(db: Db, j: JobId, e: int, reported: Option<JobStatus>, message: string, now: Time)
    requires Inv(db)
    ensures Inv(AfterReport(db, j, e, reported, message, now))
  {
    if j in db.jobs {
      var holder := db.jobs[j].worker;
      var tx := RecordTx(j, e, reported, holder, message, now);
      InvStep(db, tx);
      if holder.Some? { InvFree(Apply(db, tx), holder.value, e); }
    }
  }

  lemma InvDo(db: Db, s: Step)
    requires Inv(db)
    ensures Inv(Do(db, s))
  {
    match s
    case Sql(tx) => InvStep(db, tx);
    case Report(j, e, reported, message, now) => InvReport(db, j, e, reported, message, now);
  }

  /** The transactions that set a worker's free slots to its capacity: its registration and its death. */
  predicate Resets(db: Db, tx: Tx, w: WorkerId) {
    || (tx.Register? && Issued(db, tx.inst, tx.newId).Some? && Issued(db, tx.inst, tx.newId).value.0 == w)
    || (tx.MarkDead? && tx.w == w && CanMarkDead(db, w, tx.e))
  }

  lemma LoadAfterReset(db: Db, tx: Tx, w: WorkerId)
    requires Inv(db) && Resets(db, tx, w)
    ensures w in Apply(db, tx).workers && Balanced(Apply(db, tx), w)
  {
    if tx.Register? {
      NothingHeldAhead(db, w, Issued(db, tx.inst, tx.newId).value.1);
    } else {
      HeldAfterDeath(db.jobs, w, w, db.workers[w].epoch);
    }
  }

  lemma LoadAfterAssign(db: Db, j: JobId, w: WorkerId, e: int, v: WorkerId)
    requires v in db.workers
    ensures v in AfterAssign(db, j, w, e).workers && Load(AfterAssign(db, j, w, e), v) == Load(db, v)
  {
    if CanAssign(db, j, w, e) {
      HeldUpdate(db.jobs, j, db.jobs[j].(status := Assigned, worker := Some(w), epoch := Some(e)), v, db.workers[v].epoch);
    }
  }

  lemma LoadAfterJobUpdate(db: Db, tx: Tx, v: WorkerId)
    requires v in db.workers && (tx.Create? || tx.MarkRunning? || tx.Requeue?)
    ensures v in Apply(db, tx).workers && Load(Apply(db, tx), v) == Load(db, v)
  {
    var d := Apply(db, tx);
    if d != db { HeldUpdate(db.jobs, tx.j, d.jobs[tx.j], v, db.workers[v].epoch); }
  }

  /** Every other transaction keeps the sum, and with it the capacity. */
  lemma LoadOtherwise(db: Db, tx: Tx, w: WorkerId)
    requires Standalone(tx) && w in Apply(db, tx).workers && !Resets(db, tx, w)
    ensures w in db.workers && Load(Apply(db, tx), w) == Load(db, w)
    ensures Apply(db, tx).workers[w].epoch == db.workers[w].epoch && Apply(db, tx).workers[w].slots == db.workers[w].slots
  {
    match tx
    case MarkDead(v, e) => HeldAfterDeath(db.jobs, v, w, db.workers[w].epoch);
    case Assign(j, v, e) => LoadAfterAssign(db, j, v, e, w);
    case Create(_, _, _, _) => LoadAfterJobUpdate(db, tx, w);
    case MarkRunning(_, _, _) => LoadAfterJobUpdate(db, tx, w);
    case Requeue(_) => LoadAfterJobUpdate(db, tx, w);
    case _ =>
  }

  lemma ConservedSql(db: Db, tx: Tx)
    requires Inv(db) && Conserved(db) && Standalone(tx)
    ensures Conserved(Apply(db, tx))
  {
    forall w | w in Apply(db, tx).workers
      ensures Balanced(Apply(db, tx), w)
    {
      if Resets(db, tx, w) { LoadAfterReset(db, tx, w); } else { LoadOtherwise(db, tx, w); assert Balanced(db, w); }
    }
  }

  /** An accepted report takes one job row out of the live statuses and touches no worker. */
  lemma Recorded(db: Db, j: JobId, e: int, reported: Option<JobStatus>, reporter: Option<WorkerId>, message: string, now: Time)
    requires CanReport(db, j, e)
    ensures var d := Apply(db, RecordTx(j, e, reported, reporter, message, now));
            && d.workers == db.workers && d.instances == db.instances
            && j in d.jobs && d.jobs == db.jobs[j := d.jobs[j]] && !Live(d.jobs[j].status)
  {
  }

  lemma ReportRefused(db: Db, j: JobId, e: int, reported: Option<JobStatus>, message: string, now: Time)
    requires !CanReport(db, j, e)
    ensures AfterReport(db, j, e, reported, message, now) == db
  {
  }

  /**
   * What a report does to its job, by the status it carries. SUCCESS and CANCELLED close the job as such and write no history;
   * anything else is a failure: RETRYING while budget is left, then FAILED, with one history row naming the holder.
   */
  lemma ReportOutcome(db: Db, j: JobId, e: int, reported: Option<JobStatus>, message: string, now: Time)
    requires j in db.jobs
    ensures var a, d := db.jobs[j], AfterReport(db, j, e, reported, message, now);
            var rows := AttemptsOf(db.history, j);
            && j in d.jobs
            && if !Live(a.status) || a.epoch != Some(e) then d == db
               else if reported == Some(Success) || reported == Some(Cancelled) then
                 && d.jobs[j] == a.(status := reported.value, finishedAt := Some(now)) && AttemptsOf(d.history, j) == rows
               else
                 && AttemptsOf(d.history, j) == rows + [Attempt(|rows| + 1, a.worker, Reported(message))]
                 && (a.retries < a.maxRetries ==>
                       d.jobs[j].status == Retrying && d.jobs[j].retries == a.retries + 1 && d.jobs[j].worker == None)
                 && (a.retries >= a.maxRetries ==> d.jobs[j] == a.(status := Failed, finishedAt := Some(now)))
  {
    if !CanReport(db, j, e) { ReportRefused(db, j, e, reported, message, now); }
  }

  lemma BalancedAfterRecordAndFree(db: Db, d: Db, j: JobId, w: WorkerId, e: int, v: WorkerId)
    requires Conserved(db) && CanReport(db, j, e) && HeldAt(db.jobs[j], w, e) && v in db.workers
    requires d.workers == db.workers && j in d.jobs && d.jobs == db.jobs[j := d.jobs[j]] && !Live(d.jobs[j].status)
    ensures v in AfterFree(d, w, e).workers && Balanced(AfterFree(d, w, e), v)
  {
    assert Balanced(db, v);
    HeldUpdate(db.jobs, j, d.jobs[j], v, db.workers[v].epoch);
  }

  lemma ConservedReport(db: Db, j: JobId, e: int, reported: Option<JobStatus>, message: string, now: Time)
    requires Inv(db) && Conserved(db)
    ensures Conserved(AfterReport(db, j, e, reported, message, now))
  {
    if CanReport(db, j, e) {
      assert JobOk(db.jobs[j]);
      var h := db.jobs[j].worker;
      Recorded(db, j, e, reported, h, message, now);
      var d := Apply(db, RecordTx(j, e, reported, h, message, now));
      forall v | v in db.workers
        ensures v in AfterFree(d, h.value, e).workers && Balanced(AfterFree(d, h.value, e), v)
      {
        BalancedAfterRecordAndFree(db, d, j, h.value, e, v);
      }
    }
  }

  /** Slot conservation in every reachable state: no run of steps with whatever arguments breaks it. */
  lemma {:induction false} SlotsConserved(steps: seq<Step>)
    requires forall s | s in steps :: Legal(s)
    ensures Inv(RunFrom(EMPTY, steps)) && Conserved(RunFrom(EMPTY, steps))
  {
    if steps != [] {
      var rest, s := steps[..|steps| - 1], steps[|steps| - 1];
      SlotsConserved(rest);
      var db := RunFrom(EMPTY, rest);
      InvDo(db, s);
      assert s in steps;
      match s
      case Sql(tx) => ConservedSql(db, tx);
      case Report(j, e, reported, message, now) => ConservedReport(db, j, e, reported, message, now);
    }
  }

  /** So no worker ever holds more live jobs at its current epoch than it has slots. */
  lemma NeverOvercommitted(steps: seq<Step>, w: WorkerId)
    requires forall s | s in steps :: Legal(s)
    requires w in RunFrom(EMPTY, steps).workers
    ensures var db := RunFrom(EMPTY, steps); |Held(db.jobs, w, db.workers[w].epoch)| <= db.workers[w].slots
  {
    SlotsConserved(steps);
    assert Balanced(RunFrom(EMPTY, steps), w) && WorkerOk(RunFrom(EMPTY, steps).workers[w]);
  }

  // ---- the same limits, transaction by transaction ----

  /** No worker holds more live jobs at its current epoch than it has slots. */
  predicate Fits(db: Db) { forall w | w in db.workers :: |Held(db.jobs, w, db.workers[w].epoch)| <= db.workers[w].slots }

  /** An assignment that goes through at a worker whose slots are all taken. */
  predicate Overfills(db: Db, tx: Tx) {
    tx.Assign? && CanAssign(db, tx.j, tx.w, tx.e) && |Held(db.jobs, tx.w, tx.e)| == db.workers[tx.w].slots
  }

  /** Only an assignment adds to the jobs held under a given epoch. */
  lemma HeldShrinks(db: Db, tx: Tx, w: WorkerId, e: int)
    requires !tx.Assign?
    ensures Held(Apply(db, tx).jobs, w, e) <= Held(db.jobs, w, e)
  {
    forall j | j in Held(Apply(db, tx).jobs, w, e)
      ensures j in Held(db.jobs, w, e)
    {
      if j in db.jobs { JobStep(db, tx, j); } else { JobAppears(db, tx, j); }
    }
  }

  lemma SubsetCount(a: set<JobId>, b: set<JobId>)
    requires a <= b
    ensures |a| <= |b|
  {
    assert b == a + (b - a);
  }

  /** A transaction that assigns nothing leaves a worker with no more jobs than before, or freshly registered with none. */
  lemma HeldCountStep(db: Db, tx: Tx, w: WorkerId)
    requires Inv(db) && !tx.Assign? && w in Apply(db, tx).workers
    ensures var row := Apply(db, tx).workers[w];
            var held := Held(Apply(db, tx).jobs, w, row.epoch);
            || held == {}
            || (w in db.workers && row.epoch == db.workers[w].epoch && row.slots == db.workers[w].slots
                && held <= Held(db.jobs, w, row.epoch))
  {
    var row := Apply(db, tx).workers[w];
    HeldShrinks(db, tx, w, row.epoch);
    if w in db.workers { WorkersStay(db, tx, w); }
    if w !in db.workers || db.workers[w].epoch < row.epoch { NothingHeldAhead(db, w, row.epoch); }
  }

  lemma FitsAfterAssign(db: Db, j: JobId, w: WorkerId, e: int)
    requires Fits(db)
    ensures Fits(AfterAssign(db, j, w, e)) <==> !Overfills(db, Assign(j, w, e))
  {
    if CanAssign(db, j, w, e) {
      var d := AfterAssign(db, j, w, e);
      forall v | v in d.workers
        ensures |Held(d.jobs, v, d.workers[v].epoch)| == |Held(db.jobs, v, db.workers[v].epoch)| + (if v == w then 1 else 0)
      {
        HeldUpdate(db.jobs, j, db.jobs[j].(status := Assigned, worker := Some(w), epoch := Some(e)), v, db.workers[v].epoch);
      }
      if Overfills(db, Assign(j, w, e)) { assert w in d.workers; }
    }
  }

  /** From a state within the limits, a transaction breaks them if and only if it is such an assignment. */
  lemma FitsIff(db: Db, tx: Tx)
    requires Inv(db) && Fits(db)
    ensures Fits(Apply(db, tx)) <==> !Overfills(db, tx)
  {
    if tx.Assign? {
      FitsAfterAssign(db, tx.j, tx.w, tx.e);
    } else {
      var d := Apply(db, tx);
      forall w | w in d.workers
        ensures |Held(d.jobs, w, d.workers[w].epoch)| <= d.workers[w].slots
      {
        HeldCountStep(db, tx, w);
        WorkerRowStep(db, tx, w);
        if w in db.workers && d.workers[w].epoch == db.workers[w].epoch && Held(d.jobs, w, d.workers[w].epoch) != {} {
          SubsetCount(Held(d.jobs, w, d.workers[w].epoch), Held(db.jobs, w, d.workers[w].epoch));
        }
      }
    }
  }

  /** A worker with all its slots free holds nothing at its current epoch. */
  predicate FullIsIdle(db: Db) {
    forall w | w in db.workers && db.workers[w].avail == db.workers[w].slots :: Held(db.jobs, w, db.workers[w].epoch) == {}
  }

  /** A free that completes the capacity of a worker that still holds a job. */
  predicate RefillsBusy(db: Db, tx: Tx) {
    tx.Free? && AtEpoch(db, tx.w, tx.e) && db.workers[tx.w].avail + 1 >= db.workers[tx.w].slots && Held(db.jobs, tx.w, tx.e) != {}
  }

  /** Where the free slots of a worker come from: its reset, a free, or what it had. */
  lemma AvailStep(db: Db, tx: Tx, w: WorkerId)
    requires Inv(db) && w in Apply(db, tx).workers && Apply(db, tx).workers[w].avail == Apply(db, tx).workers[w].slots
    requires !tx.Free?
    ensures Resets(db, tx, w) || (w in db.workers && db.workers[w].avail == db.workers[w].slots)
  {
    if w in db.workers { assert WorkerOk(db.workers[w]); }
  }

  lemma FullIsIdleAfterFree(db: Db, w: WorkerId, e: int)
    requires Inv(db) && FullIsIdle(db)
    ensures FullIsIdle(AfterFree(db, w, e)) <==> !RefillsBusy(db, Free(w, e))
  {
    if AtEpoch(db, w, e) {
      assert WorkerOk(db.workers[w]);
      var d := AfterFree(db, w, e);
      assert forall v | v in d.workers && v != w :: d.workers[v] == db.workers[v];
      assert w in d.workers && d.workers[w].epoch == e && d.jobs == db.jobs;
    }
  }

  /** From a state in which full means idle, a transaction breaks that if and only if it is such a free. */
  lemma FullIsIdleIff(db: Db, tx: Tx)
    requires Inv(db) && FullIsIdle(db)
    ensures FullIsIdle(Apply(db, tx)) <==> !RefillsBusy(db, tx)
  {
    if tx.Free? {
      FullIsIdleAfterFree(db, tx.w, tx.e);
    } else {
      var d := Apply(db, tx);
      forall w | w in d.workers && d.workers[w].avail == d.workers[w].slots
        ensures Held(d.jobs, w, d.workers[w].epoch) == {}
      {
        FullStaysIdle(db, tx, w);
      }
    }
  }

  lemma FullStaysIdle(db: Db, tx: Tx, w: WorkerId)
    requires Inv(db) && FullIsIdle(db) && !tx.Free?
    requires w in Apply(db, tx).workers && Apply(db, tx).workers[w].avail == Apply(db, tx).workers[w].slots
    ensures Held(Apply(db, tx).jobs, w, Apply(db, tx).workers[w].epoch) == {}
  {
    var d := Apply(db, tx);
    AvailStep(db, tx, w);
    if Resets(db, tx, w) {
      LoadAfterReset(db, tx, w);
    } else if tx.Assign? {
      AssignedElsewhere(db, tx.j, tx.w, tx.e, w);
    } else {
      HeldCountStep(db, tx, w);
    }
  }

  lemma AssignedElsewhere(db: Db, j: JobId, w: WorkerId, e: int, v: WorkerId)
    requires Inv(db) && v in db.workers && v in AfterAssign(db, j, w, e).workers
    requires AfterAssign(db, j, w, e).workers[v].avail == AfterAssign(db, j, w, e).workers[v].slots
    ensures AfterAssign(db, j, w, e).workers[v] == db.workers[v]
    ensures Held(AfterAssign(db, j, w, e).jobs, v, db.workers[v].epoch) == Held(db.jobs, v, db.workers[v].epoch)
  {
    assert WorkerOk(db.workers[v]);
  }

  // ---- live jobs can be reaped ----

  /** Every live job's worker exists and is neither DEAD nor OFFLINE. */
  predicate HoldersReapable(db: Db) {
    forall j | j in db.jobs && Live(db.jobs[j].status) :: HolderReapable(db, db.jobs[j])
  }

  predicate HolderReapable(db: Db, row: Job) {
    row.worker.Some? && row.worker.value in db.workers && Reapable(db.workers[row.worker.value].status)
  }

  /** The agent reports READY, BUSY or DRAINING; all that matters here is that it never reports OFFLINE or DEAD. */
  predicate FromAgent(s: Step) { s.Sql? && s.tx.Flush? ==> Reapable(s.tx.status) }

  /** A worker stops being reapable only by its own death. */
  lemma StatusSql(db: Db, tx: Tx, w: WorkerId)
    requires w in db.workers && Reapable(db.workers[w].status) && FromAgent(Sql(tx))
    ensures w in Apply(db, tx).workers
    ensures Reapable(Apply(db, tx).workers[w].status) || (tx.MarkDead? && tx.w == w && CanMarkDead(db, w, tx.e))
  {
  }

  lemma HolderSql(db: Db, tx: Tx, j: JobId)
    requires HoldersReapable(db) && FromAgent(Sql(tx))
    requires j in Apply(db, tx).jobs && Live(Apply(db, tx).jobs[j].status)
    ensures HolderReapable(Apply(db, tx), Apply(db, tx).jobs[j])
  {
    if j in db.jobs {
      JobStep(db, tx, j);
      var holder := Apply(db, tx).jobs[j].worker;
      if !ChangeOf(db, tx, j).Placed? { assert HolderReapable(db, db.jobs[j]); }
      StatusSql(db, tx, holder.value);
    } else {
      JobAppears(db, tx, j);
    }
  }

  lemma HoldersTx(db: Db, tx: Tx)
    requires HoldersReapable(db) && FromAgent(Sql(tx))
    ensures HoldersReapable(Apply(db, tx))
  {
    forall j | j in Apply(db, tx).jobs && Live(Apply(db, tx).jobs[j].status)
      ensures HolderReapable(Apply(db, tx), Apply(db, tx).jobs[j])
    {
      HolderSql(db, tx, j);
    }
  }

  lemma FreeKeepsHolders(d: Db, w: WorkerId, e: int)
    requires HoldersReapable(d)
    ensures HoldersReapable(AfterFree(d, w, e))
  {
    forall j | j in d.jobs && Live(d.jobs[j].status)
      ensures HolderReapable(AfterFree(d, w, e), d.jobs[j])
    {
      assert HolderReapable(d, d.jobs[j]);
    }
  }

  lemma HoldersReport(db: Db, j: JobId, e: int, reported: Option<JobStatus>, message: string, now: Time)
    requires Inv(db) && HoldersReapable(db)
    ensures HoldersReapable(AfterReport(db, j, e, reported, message, now))
  {
    if CanReport(db, j, e) {
      var h := db.jobs[j].worker;
      Recorded(db, j, e, reported, h, message, now);
      var d := Apply(db, RecordTx(j, e, reported, h, message, now));
      assert HoldersReapable(d);
      if h.Some? { FreeKeepsHolders(d, h.value, e); }
    }
  }

  lemma HoldersDo(db: Db, s: Step)
    requires Inv(db) && HoldersReapable(db) && Legal(s) && FromAgent(s)
    ensures HoldersReapable(Do(db, s))
  {
    match s
    case Sql(tx) => HoldersTx(db, tx);
    case Report(j, e, reported, message, now) =>
      HoldersReport(db, j, e, reported, message, now);
  }

  /** A DEAD worker never holds a live job, in any run in which heartbeats come from agents. */
  lemma {:induction false} DeadHoldsNothing(steps: seq<Step>)
    requires forall s | s in steps :: Legal(s) && FromAgent(s)
    ensures HoldersReapable(RunFrom(EMPTY, steps))
  {
    if steps != [] {
      var rest, s := steps[..|steps| - 1], steps[|steps| - 1];
      DeadHoldsNothing(rest);
      SlotsConserved(rest);
      assert s in steps;
      HoldersDo(RunFrom(EMPTY, rest), s);
    }
  }

  /** The hypothesis on heartbeats is exact: a flush breaks the property iff it writes OFFLINE or DEAD over a holder. */
  lemma FlushKeepsHoldersIff(db: Db, w: WorkerId, e: int, status: WorkerStatus, job: Option<JobId>, now: Time)
    requires HoldersReapable(db) && CanFlush(db, w, e, job)
    ensures HoldersReapable(AfterFlush(db, w, e, status, job, now)) <==> Reapable(status) || Holding(db.jobs, w) == {}
  {
    var d := AfterFlush(db, w, e, status, job, now);
    if !Reapable(status) && Holding(db.jobs, w) != {} {
      var j :| j in Holding(db.jobs, w);
      assert Live(d.jobs[j].status) && !HolderReapable(d, d.jobs[j]);
    } else {
      forall j | j in d.jobs && Live(d.jobs[j].status)
        ensures HolderReapable(d, d.jobs[j])
      {
        assert HolderReapable(db, db.jobs[j]);
        if d.jobs[j].worker == Some(w) { assert j in Holding(db.jobs, w); }
      }
    }
  }

  // ---- how a DEAD row comes back ----

  /** The registration of its instance, an effective flush of another status, or a free at its epoch. */
  predicate Revives(db: Db, tx: Tx, w: WorkerId)
    requires w in db.workers
  {
    || (tx.Register? && tx.inst == db.workers[w].instance)
    || (tx.Flush? && tx.w == w && CanFlush(db, w, tx.e, tx.job) && !tx.status.Dead?)
    || (tx.Free? && tx.w == w && tx.e == db.workers[w].epoch)
  }

  /** A transaction takes a DEAD row out of DEAD if and only if it is one of those. */
  lemma RevivesIff(db: Db, tx: Tx, w: WorkerId)
    requires IndexOk(db) && w in db.workers && db.workers[w].status.Dead?
    ensures w in Apply(db, tx).workers
    ensures !Apply(db, tx).workers[w].status.Dead? <==> Revives(db, tx, w)
  {
    if tx.Register? && tx.inst in db.instances { assert db.workers[db.instances[tx.inst]].instance == tx.inst; }
  }

  // ---- scale-down ----

  /** The WHERE clause of PickDrainCandidate. */
  predicate DrainCandidate(row: Worker) { row.status.Ready? && row.avail == row.slots && !row.drainRequested }

  predicate IsPick(db: Db, pick: Option<WorkerId>) {
    match pick
    case None => forall w | w in db.workers :: !DrainCandidate(db.workers[w])
    case Some(w) => w in db.workers && DrainCandidate(db.workers[w])
                    && forall v | v in db.workers && DrainCandidate(db.workers[v]) :: db.workers[w].registeredAt <= db.workers[v].registeredAt
  }

  /** If a READY worker with all slots free is not asked to drain, there is a pick, and none registered earlier qualifies. */
  lemma PickIsOldest(db: Db, pick: Option<WorkerId>, v: WorkerId)
    requires IsPick(db, pick) && v in db.workers
    requires db.workers[v].status == Ready && db.workers[v].avail == db.workers[v].slots && !db.workers[v].drainRequested
    ensures pick.Some? && pick.value in db.workers && db.workers[pick.value].registeredAt <= db.workers[v].registeredAt
  {
  }

  /**
   * Scale-down picks only idle workers, even if a heartbeat wrote READY over a running job. They are READY and not asked to
   * drain yet, and become DRAINING if drained at once; the drain, possibly after further steps, changes no job and no capacity.
   */
  lemma ScaleDownPicksIdle(steps: seq<Step>, w: WorkerId, later: Db)
    requires forall s | s in steps :: Legal(s)
    requires IsPick(RunFrom(EMPTY, steps), Some(w))
    ensures var db := RunFrom(EMPTY, steps); Held(db.jobs, w, db.workers[w].epoch) == {}
    ensures var db := RunFrom(EMPTY, steps);
            var row := db.workers[w];
            && row.status == Ready && !row.drainRequested
            && AfterRequestDrain(db, w).workers == db.workers[w := row.(status := Draining, drainRequested := true)]
    ensures AfterRequestDrain(later, w).jobs == later.jobs
    ensures forall v | v in later.workers ::
      v in AfterRequestDrain(later, w).workers && AfterRequestDrain(later, w).workers[v].avail == later.workers[v].avail
  {
    SlotsConserved(steps);
    assert Balanced(RunFrom(EMPTY, steps), w);
  }
}
