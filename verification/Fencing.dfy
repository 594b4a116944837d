/** Epochs as fencing tokens, over whole runs with messages in flight for any length of time. */
module Fencing {
  import opened Rows
  import opened Transactions
  import opened JobSteps
  import opened Invariants
  import opened Samples

  /** The pair handed out by the k-th transaction, if it is a registration that succeeded. */
  function IssuedAt(txs: seq<Tx>, k: nat): Option<(WorkerId, int)>
    requires k < |txs|
  {
    if txs[k].Register? then Issued(Run(txs[..k]), txs[k].inst, txs[k].newId) else None
  }

  function Registrations(txs: seq<Tx>, inst: InstanceId): nat {
    if txs == [] then 0
    else
      var rest, tx := txs[..|txs| - 1], txs[|txs| - 1];
      Registrations(rest, inst) +
        (if tx.Register? && tx.inst == inst && Issued(Run(rest), inst, tx.newId).Some? then 1 else 0)
  }

  /** A worker's epoch is the number of registrations of its instance. */
  lemma {:induction false} EpochCountsRegistrations(txs: seq<Tx>, inst: InstanceId)
    ensures var db := Run(txs);
            if inst in db.instances
            then db.instances[inst] in db.workers && db.workers[db.instances[inst]].epoch == Registrations(txs, inst)
            else Registrations(txs, inst) == 0
  {
    if txs != [] {
      var rest, tx := txs[..|txs| - 1], txs[|txs| - 1];
      EpochCountsRegistrations(rest, inst);
      EveryRunKeepsShape(rest);
      RegisterStep(Run(rest), tx, inst);
    }
  }

  /** Only a registration of the instance itself moves its row's epoch, and by one. */
  lemma RegisterStep(db: Db, tx: Tx, inst: InstanceId)
    requires IndexOk(db)
    ensures var d := Apply(db, tx);
            var counts := tx.Register? && tx.inst == inst && Issued(db, inst, tx.newId).Some?;
            if inst in db.instances
            then inst in d.instances && d.instances[inst] == db.instances[inst] && d.instances[inst] in d.workers
                 && d.workers[d.instances[inst]].epoch == db.workers[db.instances[inst]].epoch + (if counts then 1 else 0)
            else (inst in d.instances <==> counts)
                 && (counts ==> d.instances[inst] in d.workers && d.workers[d.instances[inst]].epoch == 1)
  {
    if inst in db.instances { WorkersStay(db, tx, db.instances[inst]); }
  }

  lemma {:induction false} EpochsGrow(txs: seq<Tx>, i: nat, k: nat, w: WorkerId)
    requires i <= k <= |txs| && w in Run(txs[..i]).workers
    ensures w in Run(txs[..k]).workers && Run(txs[..i]).workers[w].epoch <= Run(txs[..k]).workers[w].epoch
    decreases k
  {
    if i < k {
      EpochsGrow(txs, i, k - 1, w);
      RunStep(txs, k - 1);
      WorkersStay(Run(txs[..k - 1]), txs[k - 1], w);
    }
  }

  /** Right after a registration the row stands at the issued epoch; any later one issues a higher epoch. */
  lemma IssuedIsCurrent(txs: seq<Tx>, k: nat)
    requires k < |txs| && IssuedAt(txs, k).Some?
    ensures var (w, e) := IssuedAt(txs, k).value;
            && AtEpoch(Run(txs[..k + 1]), w, e)
            && (w in Run(txs[..k]).workers ==> Run(txs[..k]).workers[w].epoch < e)
  {
    RunStep(txs, k);
  }

  /** No (worker, epoch) pair is issued twice. */
  lemma NeverIssuedTwice(txs: seq<Tx>, a: nat, b: nat)
    requires a < b < |txs| && IssuedAt(txs, a).Some? && IssuedAt(txs, b).Some?
    ensures IssuedAt(txs, a) != IssuedAt(txs, b)
  {
    var (w, e) := IssuedAt(txs, a).value;
    IssuedIsCurrent(txs, a);
    IssuedIsCurrent(txs, b);
    EpochsGrow(txs, a + 1, b, w);
  }

  /** The worker and epoch a heartbeat flush, assignment, free or death mark carries. */
  function Token(tx: Tx): Option<(WorkerId, int)> {
    match tx
    case Flush(w, e, _, _, _) => Some((w, e))
    case MarkDead(w, e) => Some((w, e))
    case Assign(_, w, e) => Some((w, e))
    case Free(w, e) => Some((w, e))
    case _ => None
  }

  /** Once a worker has registered again, nothing that carries its earlier epoch changes anything. */
  lemma SupersededTokenIsInert(txs: seq<Tx>, a: nat, b: nat, c: nat)
    requires a < b < c < |txs| && IssuedAt(txs, a).Some? && IssuedAt(txs, b).Some?
    requires IssuedAt(txs, a).value.0 == IssuedAt(txs, b).value.0
    requires Token(txs[c]) == IssuedAt(txs, a)
    ensures Run(txs[..c + 1]) == Run(txs[..c])
  {
    var (w, e) := IssuedAt(txs, a).value;
    IssuedIsCurrent(txs, a);
    IssuedIsCurrent(txs, b);
    EpochsGrow(txs, a + 1, b, w);
    EpochsGrow(txs, b + 1, c, w);
    RunStep(txs, c);
  }

  // ---- reports ----

  predicate PlacedAt(txs: seq<Tx>, k: nat, j: JobId)
    requires k < |txs|
  {
    ChangeOf(Run(txs[..k]), txs[k], j).Placed?
  }

  /** The last assignment of job j among the first c transactions. */
  function LastPlacement(txs: seq<Tx>, c: nat, j: JobId): (p: Option<nat>)
    requires c <= |txs|
    ensures p.Some? ==> p.value < c && PlacedAt(txs, p.value, j) && txs[p.value].Assign? && txs[p.value].j == j
  {
    if c == 0 then None
    else if PlacedAt(txs, c - 1, j) then Some(c - 1)
    else LastPlacement(txs, c - 1, j)
  }

  /** A live job carries the worker and epoch of its last assignment. */
  lemma {:induction false} LiveJobMatchesLastPlacement(txs: seq<Tx>, c: nat, j: JobId)
    requires c <= |txs| && j in Run(txs[..c]).jobs && Live(Run(txs[..c]).jobs[j].status)
    ensures LastPlacement(txs, c, j).Some?
    ensures var p, row := LastPlacement(txs, c, j).value, Run(txs[..c]).jobs[j];
            row.worker == Some(txs[p].w) && row.epoch == Some(txs[p].e)
  {
    if c > 0 {
      RunStep(txs, c - 1);
      var db, tx := Run(txs[..c - 1]), txs[c - 1];
      if j in db.jobs {
        JobStep(db, tx, j);
        if !PlacedAt(txs, c - 1, j) { LiveJobMatchesLastPlacement(txs, c - 1, j); }
      } else {
        JobAppears(db, tx, j);
      }
    }
  }

  /**
   * A report carries the epoch of the assignment it was made for. It is applied exactly when the job is live and
   * its newest assignment carries that same epoch number, whichever worker that is.
   */
  lemma ReportAppliedIff(txs: seq<Tx>, c: nat, j: JobId, e: int)
    requires c <= |txs|
    ensures CanReport(Run(txs[..c]), j, e) <==>
      && j in Run(txs[..c]).jobs && Live(Run(txs[..c]).jobs[j].status)
      && LastPlacement(txs, c, j).Some? && txs[LastPlacement(txs, c, j).value].e == e
  {
    if j in Run(txs[..c]).jobs && Live(Run(txs[..c]).jobs[j].status) {
      LiveJobMatchesLastPlacement(txs, c, j);
    }
  }

  /** The same for the heartbeat that starts a job: an epoch other than the newest assignment's never marks it RUNNING. */
  lemma StartAppliedIff(txs: seq<Tx>, c: nat, j: JobId, e: int)
    requires c <= |txs|
    ensures CanStart(Run(txs[..c]), j, e) <==>
      && j in Run(txs[..c]).jobs && Run(txs[..c]).jobs[j].status.Assigned?
      && LastPlacement(txs, c, j).Some? && txs[LastPlacement(txs, c, j).value].e == e
  {
    ReportAppliedIff(txs, c, j, e);
  }

  lemma PlacedAtEpoch(txs: seq<Tx>, k: nat, j: JobId)
    requires k < |txs| && PlacedAt(txs, k, j)
    ensures txs[k].Assign? && AtEpoch(Run(txs[..k]), txs[k].w, txs[k].e)
  {
  }

  /** A registration in between separates the epochs before and after it. */
  lemma EpochPassed(txs: seq<Tx>, a: nat, b: nat, p: nat, w: WorkerId)
    requires a <= b < p <= |txs| && w in Run(txs[..a]).workers
    requires IssuedAt(txs, b).Some? && IssuedAt(txs, b).value.0 == w
    ensures w in Run(txs[..p]).workers && Run(txs[..a]).workers[w].epoch < Run(txs[..p]).workers[w].epoch
  {
    EpochsGrow(txs, a, b, w);
    IssuedIsCurrent(txs, b);
    EpochsGrow(txs, b + 1, p, w);
  }

  /** A worker that was assigned the job again after registering anew cannot have its old report applied. */
  lemma OldReportRefusedAfterReregistration(txs: seq<Tx>, a: nat, b: nat, c: nat, j: JobId)
    requires a < b < c <= |txs|
    requires PlacedAt(txs, a, j)
    requires IssuedAt(txs, b).Some? && IssuedAt(txs, b).value.0 == txs[a].w
    requires var p := LastPlacement(txs, c, j);
             p.Some? && b < p.value && txs[p.value].w == txs[a].w
    ensures !CanReport(Run(txs[..c]), j, txs[a].e)
  {
    var p := LastPlacement(txs, c, j).value;
    PlacedAtEpoch(txs, a, j);
    PlacedAtEpoch(txs, p, j);
    EpochPassed(txs, a, b, p, txs[a].w);
    ReportAppliedIff(txs, c, j, txs[a].e);
  }

  /**
   * The epoch bump alone invalidates nothing: a job assigned before its worker registered anew stays live, and a report
   * under the old epoch is still applied, though it then gives no slot back.
   */
  lemma ReregistrationInvalidatesNothing(db: Db, inst: InstanceId, newId: WorkerId, caps: seq<Capability>, slots: int, now: Time, j: JobId, e: int)
    requires CanReport(db, j, e) && IndexOk(db)
    ensures CanReport(AfterRegister(db, inst, newId, caps, slots, now), j, e)
    ensures KnownInstance(db, inst) && AtEpoch(db, db.instances[inst], e) ==>
      var d := AfterComplete(AfterRegister(db, inst, newId, caps, slots, now), j, e, Succeeded, now);
      d.jobs[j].status.Success? && AfterFree(d, db.instances[inst], e) == d
  {
  }

  // ---- the guard does not name the worker ----

  function StaleRun(): seq<Tx> {
    [Register("a", 1, [], 1, 0), Register("b", 2, [], 1, 0), Create(7, 5, [], 3),
     Assign(7, 1, 1), MarkDead(1, 1), Assign(7, 2, 1)]
  }

  function TwoWorkers(a: Worker, b: Worker, job: Job, rows: map<JobId, seq<Attempt>>): Db {
    Db(map[1 := a, 2 := b], map["a" := 1, "b" := 2], map[7 := job], rows)
  }

  lemma StaleSetup()
    ensures Run(StaleRun()[..3]) == TwoWorkers(OneSlot("a", Ready, 1, None), OneSlot("b", Ready, 1, None), Task(Queued, None), map[])
  {
    var t := StaleRun();
    assert t[..0] == [];
    RunStep(t, 0);
    assert Run(t[..1]) == Db(map[1 := OneSlot("a", Ready, 1, None)], map["a" := 1], map[], map[]);
    RunStep(t, 1);
    assert Run(t[..2]) == Db(map[1 := OneSlot("a", Ready, 1, None), 2 := OneSlot("b", Ready, 1, None)], map["a" := 1, "b" := 2], map[], map[]);
    RunStep(t, 2);
  }

  lemma StaleFirstAssignment()
    ensures Run(StaleRun()[..4]) == TwoWorkers(OneSlot("a", Busy, 0, Some(7)), OneSlot("b", Ready, 1, None), Task(Assigned, Some(1)), map[])
  {
    StaleSetup();
    RunStep(StaleRun(), 3);
  }

  lemma DeathOf1(db: Db)
    requires db == TwoWorkers(OneSlot("a", Busy, 0, Some(7)), OneSlot("b", Ready, 1, None), Task(Assigned, Some(1)), map[])
    ensures var d := AfterDeath(db, 1, 1);
            && d.workers == map[1 := OneSlot("a", Dead, 1, Some(7)), 2 := OneSlot("b", Ready, 1, None)]
            && d.jobs == map[7 := Task(Queued, None)]
  {
    assert Holding(db.jobs, 1) == {7};
  }

  /**
   * Epochs are counted per worker, so "only the current holder's report is accepted" is false: worker 1 dies,
   * the job moves to worker 2 under the same epoch number, and worker 1's late report closes it.
   */
  lemma LateReportClosesAnothersJob()
    ensures var db := Run(StaleRun());
            7 in db.jobs && HeldAt(db.jobs[7], 2, 1) && CanReport(db, 7, 1)
            && AfterComplete(db, 7, 1, Succeeded, 0).jobs[7].status.Success?
  {
    StaleFirstAssignment();
    DeathOf1(Run(StaleRun()[..4]));
    RunStep(StaleRun(), 4);
    RunStep(StaleRun(), 5);
    assert StaleRun()[..6] == StaleRun();
  }
}
