/** One uninterrupted reaper sweep: what it leaves behind, and the loop that does it. */
module Sweep {
  import opened Rows
  import opened Transactions
  import opened Invariants
  import opened Slots
  import SplitReports
  import Provenance

  /** ListStale's WHERE clause, with its cut-off already computed. */
  predicate IsStale(row: Worker, cutoff: Time) {
    Reapable(row.status) && row.lastHeartbeat.Some? && row.lastHeartbeat.value < cutoff
  }

  function Stale(db: Db, cutoff: Time): set<WorkerId> {
    set w | w in db.workers && IsStale(db.workers[w], cutoff)
  }

  predicate HeldByAny(row: Job, dead: set<WorkerId>) {
    Live(row.status) && row.worker.Some? && row.worker.value in dead
  }

  /** The tables once all the workers of a set have been marked dead. */
  function Swept(db: Db, dead: set<WorkerId>): Db {
    Db(map w | w in db.workers :: if w in dead then DeadRow(db.workers[w]) else db.workers[w],
       db.instances,
       map j | j in db.jobs :: if HeldByAny(db.jobs[j], dead) then Orphaned(db.jobs[j]) else db.jobs[j],
       map j | j in db.history.Keys + OrphansOf(db, dead) ::
         if j in OrphansOf(db, dead) then WithDeath(AttemptsOf(db.history, j), db.jobs[j].worker.value) else db.history[j])
  }

  function OrphansOf(db: Db, dead: set<WorkerId>): set<JobId> {
    set j | j in db.jobs && HeldByAny(db.jobs[j], dead)
  }

  /** Marking one more worker dead. */
  lemma SweepOneMore(db: Db, dead: set<WorkerId>, w: WorkerId)
    requires w in db.workers && w !in dead && Reapable(db.workers[w].status)
    ensures AfterDeath(Swept(db, dead), w, db.workers[w].epoch) == Swept(db, dead + {w})
  {
    var s, t := Swept(db, dead), Swept(db, dead + {w});
    var d := AfterDeath(s, w, db.workers[w].epoch);
    assert CanMarkDead(s, w, db.workers[w].epoch);
    SweptHolding(db, dead, w);
    assert OrphansOf(db, dead + {w}) == OrphansOf(db, dead) + Holding(s.jobs, w);
    assert d.workers == t.workers;
    SweptJobs(db, dead, w);
    SweptHistory(db, dead, w);
  }

  lemma SweptHolding(db: Db, dead: set<WorkerId>, w: WorkerId)
    requires w !in dead
    ensures Holding(Swept(db, dead).jobs, w) == Holding(db.jobs, w)
  {
    var s := Swept(db, dead);
    forall j | j in db.jobs
      ensures HeldBy(s.jobs[j], w) <==> HeldBy(db.jobs[j], w)
    {
    }
  }

  lemma SweptJobs(db: Db, dead: set<WorkerId>, w: WorkerId)
    requires w !in dead
    ensures JobsOrphaned(Swept(db, dead).jobs, Holding(db.jobs, w)) == Swept(db, dead + {w}).jobs
  {
    var a, b := JobsOrphaned(Swept(db, dead).jobs, Holding(db.jobs, w)), Swept(db, dead + {w}).jobs;
    assert a.Keys == b.Keys;
    forall j | j in db.jobs
      ensures a[j] == b[j]
    {
      assert j in Holding(db.jobs, w) <==> HeldBy(db.jobs[j], w);
    }
  }

  lemma SweptHistory(db: Db, dead: set<WorkerId>, w: WorkerId)
    requires w !in dead
    ensures HistoryOrphaned(Swept(db, dead).history, Holding(db.jobs, w), w) == Swept(db, dead + {w}).history
  {
    var h := Swept(db, dead).history;
    var a, b := HistoryOrphaned(h, Holding(db.jobs, w), w), Swept(db, dead + {w}).history;
    forall j
      ensures j in Holding(db.jobs, w) ==> j !in OrphansOf(db, dead) && j in OrphansOf(db, dead + {w})
      ensures j in OrphansOf(db, dead + {w}) <==> j in OrphansOf(db, dead) || j in Holding(db.jobs, w)
    {
    }
    assert a.Keys == b.Keys;
    forall j | j in a
      ensures a[j] == b[j]
    {
      if j in Holding(db.jobs, w) {
        assert AttemptsOf(h, j) == AttemptsOf(db.history, j);
        assert db.jobs[j].worker == Some(w);
      }
    }
  }

  /**
   * After one sweep, from the end of any interleaving, no live job sits on a worker whose heartbeat is older than the cut-off; exactly the live jobs of
   * the swept workers went back to QUEUED, those of older epochs included, and no other job changed.
   */
  lemma SweepReapsAll(moves: seq<SplitReports.Move>, cutoff: Time)
    requires forall m | m in moves :: SplitReports.AgentMove(m)
    ensures var db := SplitReports.Run(moves).db;
            var dead := Stale(db, cutoff);
            var d := Swept(db, dead);
            && d.jobs.Keys == db.jobs.Keys
            && (forall j | j in d.jobs && Live(d.jobs[j].status) ::
                  && d.jobs[j] == db.jobs[j] && d.jobs[j].worker.Some? && d.jobs[j].worker.value in d.workers
                  && var row := d.workers[d.jobs[j].worker.value];
                     Reapable(row.status) && row.lastHeartbeat.Some? && row.lastHeartbeat.value >= cutoff)
            && (forall j | j in d.jobs ::
                  if HeldByAny(db.jobs[j], dead) then d.jobs[j].status.Queued? && d.jobs[j].worker.None? else d.jobs[j] == db.jobs[j])
  {
    SplitReports.InvRun(moves);
    SplitReports.DeadHoldsNothingSplit(moves);
    var db := SplitReports.Run(moves).db;
    var dead := Stale(db, cutoff);
    var d := Swept(db, dead);
    forall j | j in d.jobs && Live(d.jobs[j].status)
      ensures d.jobs[j] == db.jobs[j] && d.jobs[j].worker.Some? && d.jobs[j].worker.value in d.workers
      ensures var row := d.workers[d.jobs[j].worker.value];
              Reapable(row.status) && row.lastHeartbeat.Some? && row.lastHeartbeat.value >= cutoff
    {
      assert HolderReapable(db, db.jobs[j]);
      assert WorkerOk(db.workers[db.jobs[j].worker.value]);
    }
  }

  /** What a sweep does to a worker it finds stale, and to the jobs the worker holds. */
  predicate Reaped(db: Db, d: Db, w: WorkerId)
    requires w in db.workers
  {
    && w in d.workers && d.workers[w] == db.workers[w].(status := Dead, avail := db.workers[w].slots)
    && forall j | j in db.jobs && HeldBy(db.jobs[j], w) ::
         && j in d.jobs && d.jobs[j] == db.jobs[j].(status := Queued, worker := None, epoch := None, startedAt := None)
         && var rows := AttemptsOf(db.history, j);
            AttemptsOf(d.history, j) == rows + [Attempt(|rows| + 1, Some(w), WorkerDied)]
  }

  predicate Spared(db: Db, d: Db, w: WorkerId)
    requires w in db.workers
  {
    && w in d.workers && d.workers[w] == db.workers[w]
    && forall j | j in db.jobs && db.jobs[j].worker == Some(w) ::
         j in d.jobs && d.jobs[j] == db.jobs[j] && AttemptsOf(d.history, j) == AttemptsOf(db.history, j)
  }

  /**
   * After any run of transactions a sweep reaps the workers, OFFLINE and DEAD ones apart, whose newest flush or registration
   * lies before the cut-off, and leaves every other worker, its jobs and their history as they are.
   */
  lemma SweepReapsIff(txs: seq<Tx>, cutoff: Time, w: WorkerId)
    requires w in Run(txs).workers
    ensures var db := Run(txs);
            var d := Swept(db, Stale(db, cutoff));
            var seen := Provenance.LastSeen(txs, w);
            && seen.Some?
            && if db.workers[w].status != Dead && db.workers[w].status != Offline && seen.value < cutoff then Reaped(db, d, w) else Spared(db, d, w)
  {
    EveryRunKeepsShape(txs);
    Provenance.LastHeartbeatIsLastSeen(txs, w);
    assert WorkerOk(Run(txs).workers[w]);
    var db := Run(txs);
    SweptRow(db, Stale(db, cutoff), w);
  }

  lemma SweptRow(db: Db, dead: set<WorkerId>, w: WorkerId)
    requires w in db.workers
    ensures if w in dead then Reaped(db, Swept(db, dead), w) else Spared(db, Swept(db, dead), w)
  {
    var d := Swept(db, dead);
    forall j | j in db.jobs && db.jobs[j].worker == Some(w)
      ensures j in OrphansOf(db, dead) <==> w in dead && Live(db.jobs[j].status)
    {
    }
  }
}
