/** How long an assignment waits in the cache for its worker's next heartbeat. */
module Handover {
  import opened Rows
  import opened Transactions
  import opened Invariants
  import opened Slots
  import opened Plane
  import opened Heartbeats

  /** Assigned and not yet handed over: cache, worker row and job row all say so. */
  predicate Pending(p: Plane, w: WorkerId, j: JobId) {
    && w in p.cache && w in p.db.workers && j in p.db.jobs
    && p.cache[w].status == Some(Busy) && p.cache[w].job == Some(j)
    && p.db.workers[w].status == Busy && p.db.workers[w].currentJob == Some(j)
    && p.db.jobs[j].status == Assigned && HeldAt(p.db.jobs[j], w, p.db.workers[w].epoch)
  }

  /**
   * What ends the wait: the worker is heard, registers, is swept or evicted; a report is accepted for the job, or frees the worker
   * of another one; or some worker at the same epoch number claims to run the job.
   */
  predicate Ends(p: Plane, ev: Event, w: WorkerId, j: JobId)
    requires w in p.db.workers
  {
    match ev
    case RegisterWorker(inst, _, _, _, _) => inst == p.db.workers[w].instance
    case Heartbeat(b, _) =>
      Answer(p, b).Ack? && (b.w == w || (DbStatus(b.status) == Busy && b.job == Some(j) && b.e == p.db.workers[w].epoch))
    case ReportResult(k, e, _, _, _) =>
      CanReport(p.db, k, e) && (k == j || (p.db.jobs[k].worker == Some(w) && AtEpoch(p.db, w, e)))
    case SweepOne(v, _) => v == w
    case Evict(v) => v == w
    case _ => false
  }

  lemma PendingBeat(p: Plane, b: Beat, now: Time, w: WorkerId, j: JobId)
    requires Fresh(p) && Pending(p, w, j)
    ensures Pending(Beaten(p, b, now), w, j) <==> !Ends(p, Heartbeat(b, now), w, j)
  {
    var seen := Lookup(p.cache, b.w);
    if BeatAccepted(p.db, seen, b) {
      BeatWorkers(p.db, seen, b, now);
      BeatJob(p.db, seen, b, now, j);
    }
  }

  lemma BeatJob(db: Db, seen: Option<Entry>, b: Beat, now: Time, j: JobId)
    requires BeatAccepted(db, seen, b) && j in db.jobs
    ensures var d := AfterBeat(db, seen, b, now);
            && j in d.jobs
            && d.jobs[j] == if DbStatus(b.status) == Busy && b.job == Some(j) && db.jobs[j].status == Assigned && db.jobs[j].epoch == Some(b.e)
                            then db.jobs[j].(status := Running, startedAt := Some(now)) else db.jobs[j]
  {
  }

  lemma PendingReport(p: Plane, k: JobId, e: int, reported: Option<JobStatus>, message: string, now: Time, w: WorkerId, j: JobId)
    requires Sound(p.db) && Pending(p, w, j)
    ensures Pending(Happen(p, ReportResult(k, e, reported, message, now)), w, j) <==> !Ends(p, ReportResult(k, e, reported, message, now), w, j)
  {
    ReportWorkers(p.db, k, e, reported, message, now);
    if CanReport(p.db, k, e) {
      Recorded(p.db, k, e, reported, p.db.jobs[k].worker, message, now);
      ReportJobs(p.db, k, e, reported, message, now);
    } else {
      ReportRefused(p.db, k, e, reported, message, now);
    }
  }

  lemma ReportJobs(db: Db, k: JobId, e: int, reported: Option<JobStatus>, message: string, now: Time)
    requires CanReport(db, k, e)
    ensures var d := AfterReport(db, k, e, reported, message, now);
            k in d.jobs && !Live(d.jobs[k].status) && d.jobs == db.jobs[k := d.jobs[k]]
  {
    Recorded(db, k, e, reported, db.jobs[k].worker, message, now);
  }

  lemma PendingSweep(p: Plane, v: WorkerId, e: int, w: WorkerId, j: JobId)
    requires Pending(p, w, j)
    ensures Pending(Happen(p, SweepOne(v, e)), w, j) <==> v != w
  {
  }

  lemma PendingRegister(p: Plane, ev: Event, w: WorkerId, j: JobId)
    requires IndexOk(p.db) && Pending(p, w, j) && ev.RegisterWorker?
    ensures Pending(Happen(p, ev), w, j) <==> ev.inst != p.db.workers[w].instance
  {
    if ev.inst in p.db.instances { assert p.db.workers[p.db.instances[ev.inst]].instance == ev.inst; }
  }

  lemma PendingOther(p: Plane, ev: Event, w: WorkerId, j: JobId)
    requires Pending(p, w, j)
    requires ev.AssignOne? || ev.DrainWorker? || ev.ResumeWorker? || ev.Submit? || ev.Release? || ev.Evict?
    ensures Pending(Happen(p, ev), w, j) <==> !Ends(p, ev, w, j)
  {
  }

  /** An event ends the wait exactly if it is one of those: assignments, submissions, drains and resumes do not. */
  lemma PendingIff(p: Plane, ev: Event, w: WorkerId, j: JobId)
    requires Sound(p.db) && Fresh(p) && Pending(p, w, j)
    ensures Pending(Happen(p, ev), w, j) <==> !Ends(p, ev, w, j)
  {
    match ev
    case Heartbeat(b, now) => PendingBeat(p, b, now, w, j);
    case ReportResult(k, e, reported, message, now) => PendingReport(p, k, e, reported, message, now, w, j);
    case SweepOne(v, e) => PendingSweep(p, v, e, w, j);
    case RegisterWorker(_, _, _, _, _) => PendingRegister(p, ev, w, j);
    case _ => PendingOther(p, ev, w, j);
  }

  predicate EndsAt(events: seq<Event>, n: nat, w: WorkerId, j: JobId)
    requires n < |events|
  {
    w in History(events[..n]).db.workers && Ends(History(events[..n]), events[n], w, j)
  }

  /** The i-th event assigns job j to worker w. */
  predicate AssignsAt(events: seq<Event>, i: nat, w: WorkerId, j: JobId)
    requires i < |events|
  {
    events[i].AssignOne? && events[i].j == j && events[i].w == w && CanAssign(History(events[..i]).db, j, w, events[i].e)
  }

  lemma {:induction false} StaysPending(events: seq<Event>, i: nat, k: nat, w: WorkerId, j: JobId)
    requires i < k <= |events| && forall ev | ev in events :: AgentEvent(ev)
    requires AssignsAt(events, i, w, j)
    requires forall n | i < n < k :: !EndsAt(events, n, w, j)
    ensures Pending(History(events[..k]), w, j)
    decreases k
  {
    if k == i + 1 {
      PendingFrom(events, i, w, j);
    } else {
      StaysPending(events, i, k - 1, w, j);
      PendingAt(events, k - 1, w, j);
    }
  }

  lemma PendingFrom(events: seq<Event>, i: nat, w: WorkerId, j: JobId)
    requires i < |events| && AssignsAt(events, i, w, j)
    ensures Pending(History(events[..i + 1]), w, j)
  {
    assert events[..i + 1] == events[..i] + [events[i]];
    HistorySnoc(events[..i], events[i]);
    AssignMakesPending(History(events[..i]), j, w, events[i].e, events[i].avail);
  }

  lemma PendingAt(events: seq<Event>, k: nat, w: WorkerId, j: JobId)
    requires k < |events| && forall ev | ev in events :: AgentEvent(ev)
    requires Pending(History(events[..k]), w, j) && !EndsAt(events, k, w, j)
    ensures Pending(History(events[..k + 1]), w, j)
  {
    assert events[..k + 1] == events[..k] + [events[k]];
    HistorySnoc(events[..k], events[k]);
    PlaneSound(events[..k]);
    FreshRun(events[..k]);
    PendingIff(History(events[..k]), events[k], w, j);
  }

  lemma AssignMakesPending(p: Plane, j: JobId, w: WorkerId, e: int, avail: int)
    requires CanAssign(p.db, j, w, e)
    ensures Pending(Happen(p, AssignOne(j, w, e, avail)), w, j)
  {
  }

  /** Until one of those happens, a heartbeat of the worker that reports no job is handed the assignment. */
  lemma AssignmentWaits(events: seq<Event>, i: nat, k: nat, w: WorkerId, j: JobId, b: Beat)
    requires i < k <= |events| && forall ev | ev in events :: AgentEvent(ev)
    requires AssignsAt(events, i, w, j)
    requires forall n | i < n < k :: !EndsAt(events, n, w, j)
    requires b.w == w && b.job.None? && AtEpoch(History(events[..k]).db, w, b.e)
    ensures var r := Answer(History(events[..k]), b); r.Ack? && r.assignment == Some(j)
  {
    StaysPending(events, i, k, w, j);
    FreshRun(events[..k]);
  }
}
