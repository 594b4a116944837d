/** The handlers and the reaper as they run: calls on the tables and the cache, in the source's order. */
module Server {
  import opened Rows
  import opened Transactions
  import opened Slots
  import opened Plane
  import opened Sweep
  import opened Store

  class WorkerCache {
    var entries: Cache

    constructor ()
      ensures entries == map[]
    {
      entries := map[];
    }

    method SetState(w: WorkerId, s: State)
      modifies this
      ensures entries == Put(old(entries), w, s)
    {
      var drain := false;
      if w in entries { drain := entries[w].drain; }
      entries := entries[w := Entry(s.epoch, Some(s.status), s.job, s.avail, s.lastFlush, drain)];
    }

    method SetDrainRequested(w: WorkerId, b: bool)
      modifies this
      ensures entries == PutDrain(old(entries), w, b)
    {
      if w in entries {
        entries := entries[w := entries[w].(drain := b)];
      } else {
        entries := entries[w := Entry(0, None, None, 0, 0, b)];
      }
    }

    method GetState(w: WorkerId) returns (seen: Option<Entry>)
      ensures seen == Lookup(entries, w)
    {
      if w in entries { return Some(entries[w]); }
      seen := None;
    }

    method Delete(w: WorkerId)
      modifies this
      ensures entries == old(entries) - {w}
    {
      entries := entries - {w};
    }
  }

  /** A sweep element on top of the ones already done. */
  lemma SweepOnePlane(db: Db, entries: Cache, done: set<WorkerId>, w: WorkerId)
    requires w in db.workers && w !in done && Reapable(db.workers[w].status)
    ensures Happen(Plane(Swept(db, done), entries - done), SweepOne(w, db.workers[w].epoch))
         == Plane(Swept(db, done + {w}), entries - (done + {w}))
  {
    SweepOneMore(db, done, w);
    assert entries - done - {w} == entries - (done + {w});
  }

  class ControlServer {
    const store: Tables
    const cache: WorkerCache

    constructor (store: Tables, cache: WorkerCache)
      ensures this.store == store && this.cache == cache
    {
      this.store, this.cache := store, cache;
    }

    function View(): Plane
      reads store, cache
    {
      Plane(store.View(), cache.entries)
    }

    /** Register, then seed the cache so that the first heartbeat finds it warm. */
    method RegisterWorker(inst: InstanceId, newId: WorkerId, caps: seq<Capability>, slots: int, now: Time)
      returns (issued: Option<(WorkerId, int)>)
      modifies store, cache
      ensures View() == Registered(old(View()), inst, newId, caps, slots, now)
      ensures issued == Issued(old(View()).db, inst, newId)
    {
      issued := store.Register(inst, newId, caps, slots, now);
      if issued.Some? {
        var seed := if slots <= 0 then 1 else slots;
        cache.SetState(issued.value.0, State(issued.value.1, Ready, None, seed, 0));
      }
    }

    /** The assignment push: cached as BUSY with a job the worker does not report yet, and still ASSIGNED. */
    method PendingAssignment(seen: Option<Entry>, b: Beat) returns (assignment: Option<JobId>)
      ensures assignment == Push(View().db, seen, b)
    {
      assignment := None;
      if seen.Some? && seen.value.status == Some(Busy) && seen.value.job.Some? && b.job.None? {
        var j := seen.value.job.value;
        if j in store.jobs && store.jobs[j].status == Assigned { assignment := Some(j); }
      }
    }

    method HandleHeartbeat(b: Beat, now: Time) returns (reply: Reply)
      modifies store, cache
      ensures View() == Beaten(old(View()), b, now)
      ensures reply == BeatReply(old(View()).db, Lookup(old(View()).cache, b.w), b)
    {
      var seen := cache.GetState(b.w);
      var knownEpoch, drain;
      if seen.Some? {
        knownEpoch, drain := seen.value.epoch, seen.value.drain;
      } else {
        if b.w !in store.workers { return UnknownWorker; }
        var row := store.workers[b.w];
        if row.status == Dead || row.status == Offline { return UnknownWorker; }
        knownEpoch, drain := row.epoch, row.drainRequested;
      }
      if b.e != knownEpoch { return StaleEpoch; }
      var newStatus := DbStatus(b.status);
      var assignment := PendingAssignment(seen, b);
      if newStatus == Busy && b.job.Some? {
        var _ := store.MarkRunning(b.job.value, knownEpoch, now);
      }
      var statusChanged := seen.Some? && Some(newStatus) != seen.value.status;
      var dueForFlush := seen.None? || Unix(now) - seen.value.lastFlush >= COALESCE;
      var lastFlush := if seen.Some? then seen.value.lastFlush else 0;
      if statusChanged || dueForFlush {
        var failed := b.job.Some? && b.job.value !in store.jobs;
        var _ := store.UpdateHeartbeat(b.w, knownEpoch, newStatus, b.job, now);
        if !failed { lastFlush := Unix(now); }
      }
      cache.SetState(b.w, State(knownEpoch, newStatus, b.job, b.avail, lastFlush));
      reply := Ack(assignment, drain);
    }

    /** Get, record, free, correct the cache. The answer says whether the report was discarded; None: no such job. */
    method ReportJobResult(j: JobId, e: int, reported: Option<JobStatus>, message: string, now: Time)
      returns (discarded: Option<bool>)
      modifies store, cache
      ensures View().db == AfterReport(old(View()).db, j, e, reported, message, now)
      ensures View().cache == ReportCache(old(View()), j, e, now)
      ensures discarded == if j in old(View()).db.jobs then Some(!CanReport(old(View()).db, j, e)) else None
      ensures discarded == Some(false) && (reported == Some(Success) || reported == Some(Cancelled)) ==>
        j in store.jobs && store.jobs[j].status == reported.value && store.jobs[j].finishedAt == Some(now)
      ensures discarded == Some(false) && reported != Some(Success) && reported != Some(Cancelled) ==>
        j in store.jobs && store.jobs[j].status == if old(store.jobs)[j].retries < old(store.jobs)[j].maxRetries then Retrying else Failed
    {
      if j !in store.jobs { return None; }
      var holder := store.jobs[j].worker;
      var completed;
      if reported == Some(Success) {
        completed := store.Complete(j, e, Succeeded, now);
      } else if reported == Some(Cancelled) {
        completed := store.Complete(j, e, Withdrawn, now);
      } else {
        completed := store.RetryOrFail(j, e, holder, message, now);
      }
      if !completed { return Some(true); }
      if holder.Some? {
        var freed := store.FreeWorker(holder.value, e);
        if freed.Some? {
          cache.SetState(holder.value, State(e, freed.value.1, None, freed.value.0, Unix(now)));
        }
      }
      discarded := Some(false);
    }

    /** The tail of processMessage: the assignment transaction, then the cache entry that makes the push fire. */
    method Assign(j: JobId, w: WorkerId, e: int, avail: int) returns (ok: bool)
      modifies store, cache
      ensures View() == Happen(old(View()), AssignOne(j, w, e, avail))
      ensures ok == CanAssign(old(View()).db, j, w, e)
    {
      ok := store.AssignJob(j, w, e);
      if ok { cache.SetState(w, State(e, Busy, Some(j), avail - 1, 0)); }
    }

    /** The drain endpoint, and the autoscaler's drain of its pick: update the row, mirror it into the cache. */
    method Drain(w: WorkerId) returns (ok: bool)
      modifies store, cache
      ensures View() == Happen(old(View()), DrainWorker(w))
      ensures ok == CanDrain(old(View()).db, w)
    {
      var r := store.RequestDrain(w);
      if r.Some? {
        cache.SetState(w, State(r.value.epoch, r.value.status, r.value.currentJob, r.value.avail, 0));
        cache.SetDrainRequested(w, true);
      }
      ok := r.Some?;
    }

    method Resume(w: WorkerId) returns (ok: bool)
      modifies store, cache
      ensures View() == Happen(old(View()), ResumeWorker(w))
      ensures ok == CanDrain(old(View()).db, w)
    {
      var r := store.ResumeDrain(w);
      if r.Some? {
        cache.SetState(w, State(r.value.epoch, r.value.status, r.value.currentJob, r.value.avail, 0));
        cache.SetDrainRequested(w, false);
      }
      ok := r.Some?;
    }

    /** One element of a sweep. */
    method Reap(w: WorkerId, e: int)
      modifies store, cache
      ensures View() == Happen(old(View()), SweepOne(w, e))
    {
      store.MarkDeadAndRequeue(w, e);
      cache.Delete(w);
    }

    /** The reaper's sweep: the stale workers are listed once and taken in the database's order. */
    method SweepAll(now: Time, timeoutSeconds: int)
      modifies store, cache
      ensures var dead := Stale(old(View()).db, now - timeoutSeconds * SECOND);
              View() == Plane(Swept(old(View()).db, dead), old(View()).cache - dead)
      ensures forall w | w in old(store.workers) && old(store.workers)[w].lastHeartbeat.Some? ::
        var row := old(store.workers)[w];
        && w in store.workers
        && if Reapable(row.status) && now - row.lastHeartbeat.value > timeoutSeconds * SECOND
           then store.workers[w].status == Dead && w !in cache.entries
           else store.workers[w] == row
    {
      ghost var db, entries := store.View(), cache.entries;
      var stale := Stale(store.View(), now - timeoutSeconds * SECOND);
      var listed := store.workers;
      ghost var done: set<WorkerId> := {};
      assert Swept(db, {}) == db;
      var todo := stale;
      while todo != {}
        invariant done + todo == stale && done !! todo && stale <= listed.Keys
        invariant View() == Plane(Swept(db, done), entries - done)
        decreases todo
      {
        var w :| w in todo;
        SweepOnePlane(db, entries, done, w);
        Reap(w, listed[w].epoch);
        todo, done := todo - {w}, done + {w};
      }
    }
  }
}
