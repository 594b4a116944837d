/**
 * The gRPC handlers, the reaper and the drain endpoints over the tables and the Redis worker cache.
 * Nothing on the tables depends on the cache being right. With each handler call and sweep element one step, a DEAD worker
 * comes back only by registering again; SplitReports shows what a free delayed past the death does to that.
 */
module Plane {
  import opened Rows
  import opened Transactions
  import opened Invariants
  import opened Slots

  // ---- the cache ----

  /** The worker:{id}:state hash; an unset status reads as the empty string, None here. */
  datatype Entry = Entry(epoch: int, status: Option<WorkerStatus>, job: Option<JobId>, avail: int, lastFlush: int, drain: bool)

  /** The fields SetState writes: all but drain_requested. */
  datatype State = State(epoch: int, status: WorkerStatus, job: Option<JobId>, avail: int, lastFlush: int)

  type Cache = map<WorkerId, Entry>

  function Lookup(cache: Cache, w: WorkerId): Option<Entry> { if w in cache then Some(cache[w]) else None }

  function Put(cache: Cache, w: WorkerId, s: State): Cache {
    cache[w := Entry(s.epoch, Some(s.status), s.job, s.avail, s.lastFlush, w in cache && cache[w].drain)]
  }

  function PutDrain(cache: Cache, w: WorkerId, b: bool): Cache {
    cache[w := if w in cache then cache[w].(drain := b) else Entry(0, None, None, 0, 0, b)]
  }

  // ---- heartbeats ----

  datatype Beat = Beat(w: WorkerId, e: int, status: Option<WorkerStatus>, job: Option<JobId>, avail: int)
  datatype Reply = UnknownWorker | StaleEpoch | Ack(assignment: Option<JobId>, drain: bool)

  const COALESCE: int := 15

  function Unix(now: Time): int { now / SECOND }

  /** workerStatusToDB: an unspecified status is written as REGISTERING. */
  function DbStatus(s: Option<WorkerStatus>): WorkerStatus { if s.None? then Registering else s.value }

  /** The epoch and drain flag a heartbeat is checked against: the cache's answer, else the tables'. */
  function Known(db: Db, seen: Option<Entry>, w: WorkerId): Option<(int, bool)> {
    match seen
    case Some(c) => Some((c.epoch, c.drain))
    case None =>
      if w in db.workers && Reapable(db.workers[w].status) then Some((db.workers[w].epoch, db.workers[w].drainRequested)) else None
  }

  predicate BeatAccepted(db: Db, seen: Option<Entry>, b: Beat) {
    Known(db, seen, b.w).Some? && Known(db, seen, b.w).value.0 == b.e
  }

  predicate Flushes(seen: Option<Entry>, b: Beat, now: Time) {
    seen.None? || seen.value.status != Some(DbStatus(b.status)) || Unix(now) - seen.value.lastFlush >= COALESCE
  }

  /** What a heartbeat does to the tables, given whatever the cache answered. */
  function AfterBeat(db: Db, seen: Option<Entry>, b: Beat, now: Time): Db {
    if !BeatAccepted(db, seen, b) then db
    else
      var d := if DbStatus(b.status).Busy? && b.job.Some? then AfterMarkRunning(db, b.job.value, b.e, now) else db;
      if Flushes(seen, b, now) then AfterFlush(d, b.w, b.e, DbStatus(b.status), b.job, now) else d
  }

  /** The flush reports an error, and leaves the coalescing clock alone, only when it names an unknown job. */
  function NewFlushTime(db: Db, seen: Option<Entry>, b: Beat, now: Time): int {
    if Flushes(seen, b, now) && (b.job.None? || b.job.value in db.jobs) then Unix(now)
    else if seen.Some? then seen.value.lastFlush else 0
  }

  function BeatState(db: Db, seen: Option<Entry>, b: Beat, now: Time): State {
    State(b.e, DbStatus(b.status), b.job, b.avail, NewFlushTime(db, seen, b, now))
  }

  /** The pending assignment handed over with the reply: only while the job is still ASSIGNED. */
  function Push(db: Db, seen: Option<Entry>, b: Beat): Option<JobId> {
    if seen.Some? && seen.value.status == Some(Busy) && seen.value.job.Some? && b.job.None?
       && seen.value.job.value in db.jobs && db.jobs[seen.value.job.value].status.Assigned?
    then seen.value.job else None
  }

  function BeatReply(db: Db, seen: Option<Entry>, b: Beat): Reply {
    if Known(db, seen, b.w).None? then UnknownWorker
    else if !BeatAccepted(db, seen, b) then StaleEpoch
    else Ack(Push(db, seen, b), Known(db, seen, b.w).value.1)
  }

  // ---- Redis may be wrong ----

  /** A heartbeat with an arbitrary cache answer is at most two transactions with the heartbeat's own arguments. */
  function BeatSteps(db: Db, seen: Option<Entry>, b: Beat, now: Time): seq<Step> {
    if !BeatAccepted(db, seen, b) then []
    else
      (if DbStatus(b.status).Busy? && b.job.Some? then [Sql(MarkRunning(b.job.value, b.e, now))] else [])
      + (if Flushes(seen, b, now) then [Sql(Flush(b.w, b.e, DbStatus(b.status), b.job, now))] else [])
  }

  lemma RunFromTwo(db: Db, s: Step, t: Step)
    ensures RunFrom(db, [s]) == Do(db, s) && RunFrom(db, [s] + [t]) == Do(Do(db, s), t)
  {
    assert [s][..0] == [] && ([s] + [t])[..1] == [s];
  }

  lemma BeatIsSteps(db: Db, seen: Option<Entry>, b: Beat, now: Time)
    ensures AfterBeat(db, seen, b, now) == RunFrom(db, BeatSteps(db, seen, b, now))
    ensures forall s | s in BeatSteps(db, seen, b, now) :: Legal(s) && (Reapable(DbStatus(b.status)) ==> FromAgent(s))
  {
    if BeatAccepted(db, seen, b) {
      var flush := Sql(Flush(b.w, b.e, DbStatus(b.status), b.job, now));
      if DbStatus(b.status).Busy? && b.job.Some? {
        RunFromTwo(db, Sql(MarkRunning(b.job.value, b.e, now)), flush);
        assert [Sql(MarkRunning(b.job.value, b.e, now))] + [] == [Sql(MarkRunning(b.job.value, b.e, now))];
      } else {
        RunFromTwo(db, flush, flush);
        assert [] + [flush] == [flush];
      }
    }
  }

  /** Everything the tables promise, in one predicate. */
  predicate Sound(db: Db) { Inv(db) && Conserved(db) && HoldersReapable(db) }

  lemma SoundDo(db: Db, s: Step)
    requires Sound(db) && Legal(s) && FromAgent(s)
    ensures Sound(Do(db, s))
  {
    InvDo(db, s);
    HoldersDo(db, s);
    match s
    case Sql(tx) => ConservedSql(db, tx);
    case Report(j, e, reported, message, now) => ConservedReport(db, j, e, reported, message, now);
  }

  lemma {:induction false} SoundRun(db: Db, steps: seq<Step>)
    requires Sound(db) && forall s | s in steps :: Legal(s) && FromAgent(s)
    ensures Sound(RunFrom(db, steps))
  {
    if steps != [] {
      SoundRun(db, steps[..|steps| - 1]);
      assert steps[|steps| - 1] in steps;
      SoundDo(RunFrom(db, steps[..|steps| - 1]), steps[|steps| - 1]);
    }
  }

  lemma SoundBeat(db: Db, seen: Option<Entry>, b: Beat, now: Time)
    requires Sound(db) && Reapable(DbStatus(b.status))
    ensures Sound(AfterBeat(db, seen, b, now))
  {
    BeatIsSteps(db, seen, b, now);
    SoundRun(db, BeatSteps(db, seen, b, now));
  }

  /** Steps of a control plane whose cache may answer anything and whose loops may call with any arguments. */
  datatype WildStep = Plain(s: Step) | WildBeat(seen: Option<Entry>, b: Beat, now: Time)

  predicate WildLegal(x: WildStep) {
    match x
    case Plain(s) => Legal(s) && FromAgent(s)
    case WildBeat(_, b, _) => Reapable(DbStatus(b.status))
  }

  function WildRun(steps: seq<WildStep>): Db {
    if steps == [] then EMPTY
    else
      var db := WildRun(steps[..|steps| - 1]);
      match steps[|steps| - 1]
      case Plain(s) => Do(db, s)
      case WildBeat(seen, b, now) => AfterBeat(db, seen, b, now)
  }

  /**
   * Row shape, slot conservation, history and "a DEAD worker holds no live job" survive every run in which each
   * cache read returns an arbitrary value and every caller passes arbitrary, possibly stale, arguments.
   */
  lemma {:induction false} RedisMayBeWrong(steps: seq<WildStep>)
    requires forall x | x in steps :: WildLegal(x)
    ensures Sound(WildRun(steps))
  {
    if steps != [] {
      var rest, x := steps[..|steps| - 1], steps[|steps| - 1];
      RedisMayBeWrong(rest);
      assert x in steps;
      match x
      case Plain(s) => SoundDo(WildRun(rest), s);
      case WildBeat(seen, b, now) => SoundBeat(WildRun(rest), seen, b, now);
    }
  }

  // ---- the plane with its real cache ----

  datatype Plane = Plane(db: Db, cache: Cache)

  datatype Event =
    | RegisterWorker(inst: InstanceId, newId: WorkerId, caps: seq<Capability>, slots: int, now: Time)
    | Heartbeat(b: Beat, now: Time)
    | ReportResult(j: JobId, e: int, reported: Option<JobStatus>, message: string, now: Time)
    | AssignOne(j: JobId, w: WorkerId, e: int, avail: int)
    | SweepOne(w: WorkerId, e: int)
    | DrainWorker(w: WorkerId)
    | ResumeWorker(w: WorkerId)
    | Submit(j: JobId, priority: int, caps: seq<Capability>, maxRetries: int)
    | Release(j: JobId)
    | Evict(w: WorkerId)

  function Registered(p: Plane, inst: InstanceId, newId: WorkerId, caps: seq<Capability>, slots: int, now: Time): Plane {
    var issued := Issued(p.db, inst, newId);
    Plane(AfterRegister(p.db, inst, newId, caps, slots, now),
          if issued.None? then p.cache
          else Put(p.cache, issued.value.0, State(issued.value.1, Ready, None, AtLeastOne(slots, 1), 0)))
  }

  function Beaten(p: Plane, b: Beat, now: Time): Plane {
    var seen := Lookup(p.cache, b.w);
    if !BeatAccepted(p.db, seen, b) then p
    else Plane(AfterBeat(p.db, seen, b, now), Put(p.cache, b.w, BeatState(p.db, seen, b, now)))
  }

  /** After an accepted report whose worker is still at the report's epoch, the cache shows it free. */
  function ReportCache(p: Plane, j: JobId, e: int, now: Time): Cache {
    if CanReport(p.db, j, e) && p.db.jobs[j].worker.Some? && AtEpoch(p.db, p.db.jobs[j].worker.value, e) then
      var w := p.db.jobs[j].worker.value;
      var row := FreedRow(p.db.workers[w]);
      Put(p.cache, w, State(e, row.status, None, row.avail, Unix(now)))
    else p.cache
  }

  function DrainCache(p: Plane, d: Db, w: WorkerId, b: bool): Cache {
    if CanDrain(p.db, w) && w in d.workers then
      var row := d.workers[w];
      PutDrain(Put(p.cache, w, State(row.epoch, row.status, row.currentJob, row.avail, 0)), w, b)
    else p.cache
  }

  function Happen(p: Plane, ev: Event): Plane {
    match ev
    case RegisterWorker(inst, newId, caps, slots, now) => Registered(p, inst, newId, caps, slots, now)
    case Heartbeat(b, now) => Beaten(p, b, now)
    case ReportResult(j, e, reported, message, now) =>
      Plane(AfterReport(p.db, j, e, reported, message, now), ReportCache(p, j, e, now))
    case AssignOne(j, w, e, avail) =>
      Plane(AfterAssign(p.db, j, w, e),
            if CanAssign(p.db, j, w, e) then Put(p.cache, w, State(e, Busy, Some(j), avail - 1, 0)) else p.cache)
    case SweepOne(w, e) => Plane(AfterDeath(p.db, w, e), p.cache - {w})
    case DrainWorker(w) => Plane(AfterRequestDrain(p.db, w), DrainCache(p, AfterRequestDrain(p.db, w), w, true))
    case ResumeWorker(w) => Plane(AfterResumeDrain(p.db, w), DrainCache(p, AfterResumeDrain(p.db, w), w, false))
    case Submit(j, priority, caps, maxRetries) => p.(db := AfterCreate(p.db, j, priority, caps, maxRetries))
    case Release(j) => p.(db := AfterRequeue(p.db, j))
    case Evict(w) => p.(cache := p.cache - {w})
  }

  function History(events: seq<Event>): Plane {
    if events == [] then Plane(EMPTY, map[]) else Happen(History(events[..|events| - 1]), events[|events| - 1])
  }

  lemma HistorySnoc(events: seq<Event>, ev: Event)
    ensures History(events + [ev]) == Happen(History(events), ev)
  {
    assert (events + [ev])[..|events|] == events;
  }

  /** The transaction of an event that issues exactly one by itself. */
  function EventTx(ev: Event): Option<Tx> {
    match ev
    case RegisterWorker(inst, newId, caps, slots, now) => Some(Register(inst, newId, caps, slots, now))
    case AssignOne(j, w, e, _) => Some(Assign(j, w, e))
    case SweepOne(w, e) => Some(MarkDead(w, e))
    case DrainWorker(w) => Some(RequestDrain(w))
    case ResumeWorker(w) => Some(ResumeDrain(w))
    case Submit(j, priority, caps, maxRetries) => Some(Create(j, priority, caps, maxRetries))
    case Release(j) => Some(Requeue(j))
    case _ => None
  }

  lemma HappenTx(p: Plane, ev: Event)
    requires EventTx(ev).Some?
    ensures Happen(p, ev).db == Apply(p.db, EventTx(ev).value)
    ensures Standalone(EventTx(ev).value) && !EventTx(ev).value.Flush?
  {
  }

  /** The table steps of an event. */
  function EventSteps(p: Plane, ev: Event): seq<Step> {
    match ev
    case Heartbeat(b, now) => BeatSteps(p.db, Lookup(p.cache, b.w), b, now)
    case ReportResult(j, e, reported, message, now) => [Report(j, e, reported, message, now)]
    case Evict(_) => []
    case _ => [Sql(EventTx(ev).value)]
  }

  predicate AgentEvent(ev: Event) { ev.Heartbeat? ==> Reapable(DbStatus(ev.b.status)) }

  lemma EventIsSteps(p: Plane, ev: Event)
    ensures Happen(p, ev).db == RunFrom(p.db, EventSteps(p, ev))
    ensures AgentEvent(ev) ==> forall s | s in EventSteps(p, ev) :: Legal(s) && FromAgent(s)
  {
    if ev.Heartbeat? {
      BeatIsSteps(p.db, Lookup(p.cache, ev.b.w), ev.b, ev.now);
    } else if ev.ReportResult? {
      var s := Report(ev.j, ev.e, ev.reported, ev.message, ev.now);
      RunFromTwo(p.db, s, s);
    } else if !ev.Evict? {
      HappenTx(p, ev);
      RunFromTwo(p.db, Sql(EventTx(ev).value), Sql(EventTx(ev).value));
    }
  }

  predicate DeadUncached(p: Plane) { forall w | w in p.db.workers && p.db.workers[w].status.Dead? :: w !in p.cache }

  /** An accepted report frees the holder if it is still at the report's epoch, and the holder is not DEAD. */
  lemma ReportWorkers(db: Db, j: JobId, e: int, reported: Option<JobStatus>, message: string, now: Time)
    requires Sound(db)
    ensures if CanReport(db, j, e) then
              var h := db.jobs[j].worker;
              h.Some? && h.value in db.workers && Reapable(db.workers[h.value].status)
              && AfterReport(db, j, e, reported, message, now).workers
                 == if AtEpoch(db, h.value, e) then db.workers[h.value := FreedRow(db.workers[h.value])] else db.workers
            else AfterReport(db, j, e, reported, message, now).workers == db.workers
  {
    if CanReport(db, j, e) {
      Recorded(db, j, e, reported, db.jobs[j].worker, message, now);
      assert HolderReapable(db, db.jobs[j]);
    }
  }

  lemma ReportCacheStep(p: Plane, j: JobId, e: int, reported: Option<JobStatus>, message: string, now: Time, w: WorkerId)
    requires Sound(p.db) && DeadUncached(p)
    requires var d := AfterReport(p.db, j, e, reported, message, now); w in d.workers && d.workers[w].status.Dead?
    ensures w !in ReportCache(p, j, e, now)
  {
    ReportWorkers(p.db, j, e, reported, message, now);
  }

  lemma DrainCacheStep(p: Plane, d: Db, w: WorkerId, b: bool, v: WorkerId)
    requires DeadUncached(p) && (d == AfterRequestDrain(p.db, w) || d == AfterResumeDrain(p.db, w))
    requires v in d.workers && d.workers[v].status.Dead?
    ensures v !in DrainCache(p, d, w, b)
  {
  }

  lemma RegisterCacheStep(p: Plane, inst: InstanceId, newId: WorkerId, caps: seq<Capability>, slots: int, now: Time, w: WorkerId)
    requires DeadUncached(p)
    requires var d := AfterRegister(p.db, inst, newId, caps, slots, now); w in d.workers && d.workers[w].status.Dead?
    ensures w !in Registered(p, inst, newId, caps, slots, now).cache
  {
  }

  lemma BeatCacheStep(p: Plane, b: Beat, now: Time, w: WorkerId)
    requires DeadUncached(p) && Reapable(DbStatus(b.status))
    requires w in Beaten(p, b, now).db.workers && Beaten(p, b, now).db.workers[w].status.Dead?
    ensures w !in Beaten(p, b, now).cache
  {
    var seen := Lookup(p.cache, b.w);
    if BeatAccepted(p.db, seen, b) { BeatKeepsDead(p.db, seen, b, now, w); }
  }

  /** No event leaves a DEAD worker with a cache entry. */
  lemma CacheStep(p: Plane, ev: Event, w: WorkerId)
    requires Sound(p.db) && DeadUncached(p) && AgentEvent(ev)
    requires w in Happen(p, ev).db.workers && Happen(p, ev).db.workers[w].status.Dead?
    ensures w !in Happen(p, ev).cache
  {
    match ev
    case RegisterWorker(inst, newId, caps, slots, now) => RegisterCacheStep(p, inst, newId, caps, slots, now, w);
    case Heartbeat(b, now) => BeatCacheStep(p, b, now, w);
    case ReportResult(j, e, reported, message, now) => ReportCacheStep(p, j, e, reported, message, now, w);
    case DrainWorker(v) => DrainCacheStep(p, AfterRequestDrain(p.db, v), v, true, w);
    case ResumeWorker(v) => DrainCacheStep(p, AfterResumeDrain(p.db, v), v, false, w);
    case _ =>
  }

  /** A worker DEAD after an accepted agent heartbeat was so before, and it was not this heartbeat's worker unless the cache said otherwise. */
  lemma BeatKeepsDead(db: Db, seen: Option<Entry>, b: Beat, now: Time, w: WorkerId)
    requires Reapable(DbStatus(b.status)) && BeatAccepted(db, seen, b)
    requires w in AfterBeat(db, seen, b, now).workers && AfterBeat(db, seen, b, now).workers[w].status.Dead?
    ensures w in db.workers && db.workers[w].status.Dead? && (w == b.w ==> seen.Some?)
  {
  }

  lemma PlaneStep(p: Plane, ev: Event)
    requires Sound(p.db) && DeadUncached(p) && AgentEvent(ev)
    ensures Sound(Happen(p, ev).db) && DeadUncached(Happen(p, ev))
  {
    EventIsSteps(p, ev);
    SoundRun(p.db, EventSteps(p, ev));
    forall w | w in Happen(p, ev).db.workers && Happen(p, ev).db.workers[w].status.Dead?
      ensures w !in Happen(p, ev).cache
    {
      CacheStep(p, ev, w);
    }
  }

  /** In every reachable state the tables are sound and a DEAD worker has no cache entry. */
  lemma {:induction false} PlaneSound(events: seq<Event>)
    requires forall ev | ev in events :: AgentEvent(ev)
    ensures Sound(History(events).db) && DeadUncached(History(events))
  {
    if events != [] {
      PlaneSound(events[..|events| - 1]);
      assert events[|events| - 1] in events;
      PlaneStep(History(events[..|events| - 1]), events[|events| - 1]);
    }
  }

  /** Every guard but the heartbeat flush's and FreeWorker's keeps a DEAD row out. */
  lemma DeadRowSql(db: Db, tx: Tx, w: WorkerId)
    requires IndexOk(db) && w in db.workers && db.workers[w].status.Dead?
    requires !tx.Flush? && !tx.Free? && (tx.Register? ==> tx.inst != db.workers[w].instance)
    ensures w in Apply(db, tx).workers && Apply(db, tx).workers[w] == db.workers[w]
  {
    if tx.Register? && tx.inst in db.instances { assert db.workers[db.instances[tx.inst]].instance == tx.inst; }
  }

  lemma DeadRowBeat(p: Plane, b: Beat, now: Time, w: WorkerId)
    requires DeadUncached(p) && w in p.db.workers && p.db.workers[w].status.Dead?
    ensures w in Beaten(p, b, now).db.workers && Beaten(p, b, now).db.workers[w] == p.db.workers[w]
  {
  }

  /** One event other than the worker's own registration leaves a DEAD worker's row exactly as it is. */
  lemma DeadRowFrozen(p: Plane, ev: Event, w: WorkerId)
    requires Sound(p.db) && DeadUncached(p)
    requires w in p.db.workers && p.db.workers[w].status.Dead?
    requires ev.RegisterWorker? ==> ev.inst != p.db.workers[w].instance
    ensures w in Happen(p, ev).db.workers && Happen(p, ev).db.workers[w] == p.db.workers[w]
  {
    if ev.Heartbeat? {
      DeadRowBeat(p, ev.b, ev.now, w);
    } else if ev.ReportResult? {
      ReportWorkers(p.db, ev.j, ev.e, ev.reported, ev.message, ev.now);
    } else if !ev.Evict? {
      HappenTx(p, ev);
      DeadRowSql(p.db, EventTx(ev).value, w);
    }
  }

  /**
   * With handlers atomic, DEAD is left only by Register: until its instance registers again the worker's row does not change at all, it holds
   * no live job, and each of its heartbeats is answered "must re-register".
   */
  lemma {:induction false} DeadUntilRegistered(events: seq<Event>, i: nat, k: nat, w: WorkerId)
    requires i <= k <= |events| && forall ev | ev in events :: AgentEvent(ev)
    requires w in History(events[..i]).db.workers && History(events[..i]).db.workers[w].status.Dead?
    requires forall n | i <= n < k && events[n].RegisterWorker? :: events[n].inst != History(events[..i]).db.workers[w].instance
    ensures var p := History(events[..k]);
            && w in p.db.workers && p.db.workers[w] == History(events[..i]).db.workers[w]
            && Holding(p.db.jobs, w) == {}
            && forall b: Beat | b.w == w :: BeatReply(p.db, Lookup(p.cache, w), b).UnknownWorker?
    decreases k
  {
    if i < k {
      DeadUntilRegistered(events, i, k - 1, w);
      var p := History(events[..k - 1]);
      PlaneSound(events[..k - 1]);
      DeadRowFrozen(p, events[k - 1], w);
      assert events[..k][..k - 1] == events[..k - 1];
    }
    PlaneSound(events[..k]);
    var q := History(events[..k]);
    forall j | j in q.db.jobs ensures !HeldBy(q.db.jobs[j], w) {
      if Live(q.db.jobs[j].status) { assert HolderReapable(q.db, q.db.jobs[j]); }
    }
  }

  /** What the theorem rests on: a heartbeat revives a DEAD row exactly when a cache entry at its epoch survived. */
  lemma HeartbeatRevivesIff(db: Db, seen: Option<Entry>, b: Beat, now: Time)
    requires b.w in db.workers && db.workers[b.w].status.Dead?
    ensures !AfterBeat(db, seen, b, now).workers[b.w].status.Dead? <==>
      && seen.Some? && seen.value.epoch == b.e == db.workers[b.w].epoch
      && Flushes(seen, b, now) && !DbStatus(b.status).Dead? && (b.job.None? || b.job.value in db.jobs)
  {
  }
}
