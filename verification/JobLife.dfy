/** Whole-run accounting of jobs: where every assignment went, what the history says, how long a job can live. */
module JobLife {
  import opened Rows
  import opened Transactions
  import opened JobSteps
  import opened Invariants

  /** How many transactions of a run changed job j in one of the given ways. */
  function Tally(txs: seq<Tx>, j: JobId, kinds: set<Change>): nat {
    if txs == [] then 0
    else
      var rest := txs[..|txs| - 1];
      Tally(rest, j, kinds) + (if ChangeOf(Run(rest), txs[|txs| - 1], j) in kinds then 1 else 0)
  }

  const ACCEPTED: set<Change> := {Closed, Delayed, Exhausted}
  const FAILURES: set<Change> := {Delayed, Exhausted}

  function LiveBit(db: Db, j: JobId): nat { if j in db.jobs && Live(db.jobs[j].status) then 1 else 0 }

  /**
   * Per job, every successful assignment ends in exactly one of three ways: a report was accepted for
   * it, its worker died, or the job is live right now.
   */
  lemma {:induction false} AssignmentsAccountedFor(txs: seq<Tx>, j: JobId)
    ensures Tally(txs, j, {Placed}) == Tally(txs, j, ACCEPTED) + Tally(txs, j, {Lost}) + LiveBit(Run(txs), j)
  {
    if txs != [] {
      var rest, tx := txs[..|txs| - 1], txs[|txs| - 1];
      AssignmentsAccountedFor(rest, j);
      if j in Run(rest).jobs { JobStep(Run(rest), tx, j); } else { JobAppears(Run(rest), tx, j); }
    }
  }

  // ---- the same for the whole fleet ----

  function LiveJobs(db: Db): set<JobId> { set j | j in db.jobs && Live(db.jobs[j].status) }

  function PlacedBy(db: Db, tx: Tx): nat { if tx.Assign? && CanAssign(db, tx.j, tx.w, tx.e) then 1 else 0 }

  function AcceptedBy(db: Db, tx: Tx): nat { if (tx.Complete? || tx.RetryOrFail?) && CanReport(db, tx.j, tx.e) then 1 else 0 }

  function LostBy(db: Db, tx: Tx): nat { if tx.MarkDead? && CanMarkDead(db, tx.w, tx.e) then |Holding(db.jobs, tx.w)| else 0 }

  function Total(txs: seq<Tx>, count: (Db, Tx) -> nat): nat {
    if txs == [] then 0
    else
      var rest := txs[..|txs| - 1];
      Total(rest, count) + count(Run(rest), txs[|txs| - 1])
  }

  function Arrivals(db: Db, tx: Tx): set<JobId> { if PlacedBy(db, tx) == 1 then {tx.j} else {} }

  function Departures(db: Db, tx: Tx): set<JobId> {
    if AcceptedBy(db, tx) == 1 then {tx.j}
    else if tx.MarkDead? && CanMarkDead(db, tx.w, tx.e) then Holding(db.jobs, tx.w)
    else {}
  }

  lemma LiveJobStep(db: Db, tx: Tx, j: JobId)
    ensures j in LiveJobs(Apply(db, tx)) <==> (j in LiveJobs(db) || j in Arrivals(db, tx)) && j !in Departures(db, tx)
    ensures j in Arrivals(db, tx) ==> j !in LiveJobs(db) && j !in Departures(db, tx)
    ensures j in Departures(db, tx) ==> j in LiveJobs(db)
  {
    if j in db.jobs { JobStep(db, tx, j); } else { JobAppears(db, tx, j); }
  }

  lemma SetFlow(a: set<JobId>, b: set<JobId>, come: set<JobId>, gone: set<JobId>)
    requires forall j :: j in b <==> (j in a || j in come) && j !in gone
    requires forall j | j in come :: j !in a && j !in gone
    requires forall j | j in gone :: j in a
    ensures |b| == |a| + |come| - |gone|
  {
    assert b == a + come - gone && a !! come && gone <= a;
    assert |b| == |a + come| - |gone|;
  }

  lemma LiveJobsStep(db: Db, tx: Tx)
    ensures |LiveJobs(Apply(db, tx))| == |LiveJobs(db)| + PlacedBy(db, tx) - AcceptedBy(db, tx) - LostBy(db, tx)
  {
    var d := Apply(db, tx);
    assert |LiveJobs(d)| == |LiveJobs(db)| + |Arrivals(db, tx)| - |Departures(db, tx)| by {
      forall j { LiveJobStep(db, tx, j); }
      SetFlow(LiveJobs(db), LiveJobs(d), Arrivals(db, tx), Departures(db, tx));
    }
  }

  /** Total assignments = accepted reports + jobs requeued by worker deaths + jobs live now. */
  lemma {:induction false} FleetAccounting(txs: seq<Tx>)
    ensures Total(txs, PlacedBy) == Total(txs, AcceptedBy) + Total(txs, LostBy) + |LiveJobs(Run(txs))|
  {
    if txs == [] {
      assert LiveJobs(Run(txs)) == {};
    } else {
      var rest := txs[..|txs| - 1];
      FleetAccounting(rest);
      LiveJobsStep(Run(rest), txs[|txs| - 1]);
    }
  }

  // ---- terminal jobs ----

  lemma TerminalStep(db: Db, tx: Tx, j: JobId)
    requires Inv(db) && j in db.jobs && Terminal(db.jobs[j].status)
    ensures j in Apply(db, tx).jobs && Apply(db, tx).jobs[j] == db.jobs[j]
    ensures AttemptsOf(Apply(db, tx).history, j) == AttemptsOf(db.history, j)
  {
    JobStep(db, tx, j);
    HistoryGrows(db, tx, j);
  }

  /** A job in SUCCESS, FAILED or CANCELLED is never changed again, nor is its history. */
  lemma {:induction false} TerminalForever(txs: seq<Tx>, i: nat, k: nat, j: JobId)
    requires i <= k <= |txs|
    requires j in Run(txs[..i]).jobs && Terminal(Run(txs[..i]).jobs[j].status)
    ensures j in Run(txs[..k]).jobs && Run(txs[..k]).jobs[j] == Run(txs[..i]).jobs[j]
    ensures AttemptsOf(Run(txs[..k]).history, j) == AttemptsOf(Run(txs[..i]).history, j)
    decreases k
  {
    if i < k {
      TerminalForever(txs, i, k - 1, j);
      RunStep(txs, k - 1);
      EveryRunKeepsShape(txs[..k - 1]);
      TerminalStep(Run(txs[..k - 1]), txs[k - 1], j);
    }
  }

  // ---- retry budget and history ----

  /** Each history row and each retry stands for one change of the job, over the whole run. */
  lemma {:induction false} HistoryCounts(txs: seq<Tx>, j: JobId)
    ensures var db := Run(txs);
            && |AttemptsOf(db.history, j)| == Tally(txs, j, FAILURES) + Tally(txs, j, {Lost})
            && (j in db.jobs ==> db.jobs[j].retries == Tally(txs, j, {Delayed}))
            && (j !in db.jobs ==> Tally(txs, j, {Delayed}) == 0)
            && Tally(txs, j, FAILURES) == Tally(txs, j, {Delayed}) + (if j in db.jobs && db.jobs[j].status.Failed? then 1 else 0)
  {
    if txs != [] {
      var rest, tx := txs[..|txs| - 1], txs[|txs| - 1];
      HistoryCounts(rest, j);
      EveryRunKeepsShape(rest);
      HistoryGrows(Run(rest), tx, j);
      if j in Run(rest).jobs { JobStep(Run(rest), tx, j); } else { JobAppears(Run(rest), tx, j); }
    }
  }

  /**
   * Though two functions write history rows, a job's attempt numbers are 1..n with
   * n = retries + rows written for dead workers + (1 if FAILED); the retries stay within the budget, and the
   * job is FAILED exactly after maxRetries + 1 accepted failure reports, however many workers died.
   */
  lemma RetryBudget(txs: seq<Tx>, j: JobId)
    requires j in Run(txs).jobs
    ensures var job, rows := Run(txs).jobs[j], AttemptsOf(Run(txs).history, j);
            var deaths := |rows| - Reports(rows);
            && (forall k | 0 <= k < |rows| :: rows[k].number == k + 1)
            && |rows| == job.retries + deaths + (if job.status.Failed? then 1 else 0)
            && deaths == Tally(txs, j, {Lost})
            && job.retries <= job.maxRetries
            && (job.status.Failed? <==> Tally(txs, j, FAILURES) == job.maxRetries + 1)
  {
    EveryRunKeepsShape(txs);
    HistoryCounts(txs, j);
    assert JobOk(Run(txs).jobs[j]);
    assert Numbered(AttemptsOf(Run(txs).history, j));
  }

  /** A job that parks has its retry due between 2s and 60s ahead as long as its budget is at most 33. */
  lemma ParkedBackoff(db: Db, tx: Tx, j: JobId)
    requires Inv(db) && ChangeOf(db, tx, j).Delayed? && db.jobs[j].maxRetries <= 33
    ensures var row := Apply(db, tx).jobs[j];
            row.retryAt.Some? && tx.now + 2 * SECOND <= row.retryAt.value <= tx.now + 60 * SECOND
  {
    JobStep(db, tx, j);
    assert JobOk(db.jobs[j]);
    Backoff.BackoffMonotone(db.jobs[j].retries + 1, db.jobs[j].retries + 1);
  }

  /**
   * A job that parks is due min(2^n, 60) seconds after the report, n being the number of retries it now counts, if and only if
   * that n is one for which the 64-bit arithmetic holds; in particular whenever max_retries is at most 33.
   */
  lemma ParkedExactly(db: Db, tx: Tx, j: JobId)
    requires Inv(db) && ChangeOf(db, tx, j).Delayed?
    ensures j in Apply(db, tx).jobs && Apply(db, tx).jobs[j].retries >= 1
    ensures var row := Apply(db, tx).jobs[j];
            var seconds := if Backoff.Pow2(row.retries) < 60 then Backoff.Pow2(row.retries) else 60;
            && row.retries == db.jobs[j].retries + 1
            && (row.retryAt == Some(tx.now + seconds * SECOND) <==> Backoff.Representable(row.retries))
            && (row.maxRetries <= 33 ==> Backoff.Representable(row.retries))
  {
    JobStep(db, tx, j);
    assert JobOk(db.jobs[j]);
    Backoff.BackoffExact(db.jobs[j].retries + 1);
    Backoff.IdealIsMin(db.jobs[j].retries + 1);
  }

  // ---- bounded life ----

  /** An upper bound on the status changes a job can still go through if no worker dies. */
  function Rank(r: Job): int {
    4 * (r.maxRetries - r.retries) +
      match r.status
      case Retrying => 4
      case Queued => 3
      case Assigned => 2
      case Running => 1
      case _ => -4 * (r.maxRetries - r.retries)
  }

  function StatusChanges(txs: seq<Tx>, j: JobId): nat {
    if txs == [] then 0
    else
      var rest := txs[..|txs| - 1];
      StatusChanges(rest, j) +
        (if j in Run(rest).jobs && j in Run(txs).jobs && Run(txs).jobs[j].status != Run(rest).jobs[j].status then 1 else 0)
  }

  /** The rank falls at every status change but a death, which raises it by at most 2. */
  lemma RankStep(db: Db, tx: Tx, j: JobId)
    requires j in db.jobs && j in Apply(db, tx).jobs && JobOk(db.jobs[j])
    ensures var a, b, c := db.jobs[j], Apply(db, tx).jobs[j], ChangeOf(db, tx, j);
            && 0 <= Rank(a) && a.maxRetries == b.maxRetries
            && (c.Untouched? <==> b.status == a.status)
            && Rank(b) + (if b.status == a.status then 0 else 1) <= Rank(a) + (if c.Lost? then 3 else 0)
  {
    JobStep(db, tx, j);
  }

  lemma {:induction false} RankBudget(txs: seq<Tx>, j: JobId)
    requires j in Run(txs).jobs
    ensures StatusChanges(txs, j) + Rank(Run(txs).jobs[j]) <= 4 * Run(txs).jobs[j].maxRetries + 3 + 3 * Tally(txs, j, {Lost})
  {
    var rest := txs[..|txs| - 1];
    if j in Run(rest).jobs {
      RankBudget(rest, j);
      EveryRunKeepsShape(rest);
      RankStep(Run(rest), txs[|txs| - 1], j);
    } else {
      NoChangesBeforeSubmission(rest, j);
      JobAppears(Run(rest), txs[|txs| - 1], j);
    }
  }

  lemma {:induction false} NoChangesBeforeSubmission(txs: seq<Tx>, j: JobId)
    requires j !in Run(txs).jobs
    ensures StatusChanges(txs, j) == 0
  {
    if txs != [] {
      var rest := txs[..|txs| - 1];
      if j in Run(rest).jobs { JobsStay(Run(rest), txs[|txs| - 1], j); }
      NoChangesBeforeSubmission(rest, j);
    }
  }

  /** No run changes a job's status more than 4 * maxRetries + 3 + 3 * deaths times. */
  lemma BoundedLife(txs: seq<Tx>, j: JobId)
    requires j in Run(txs).jobs
    ensures StatusChanges(txs, j) <= 4 * Run(txs).jobs[j].maxRetries + 3 + 3 * Tally(txs, j, {Lost})
  {
    RankBudget(txs, j);
    EveryRunKeepsShape(txs);
    assert JobOk(Run(txs).jobs[j]);
  }
}
