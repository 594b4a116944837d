/**
 * What a heartbeat is answered, over every run of handler calls; and whether the heartbeats a worker has had acknowledged
 * keep it out of the reaper's reach although most of them never get to Postgres.
 */
module Heartbeats {
  import opened Rows
  import opened Transactions
  import opened Invariants
  import opened Slots
  import opened Plane
  import opened Sweep
  import opened Samples

  // ---- the cache knows the epoch ----

  predicate Fresh(p: Plane) { forall w | w in p.cache :: w in p.db.workers && p.cache[w].epoch == p.db.workers[w].epoch }

  lemma ReportEpochs(db: Db, j: JobId, e: int, reported: Option<JobStatus>, message: string, now: Time, w: WorkerId)
    requires w in db.workers
    ensures var d := AfterReport(db, j, e, reported, message, now);
            w in d.workers && d.workers[w].epoch == db.workers[w].epoch && d.workers[w].lastHeartbeat == db.workers[w].lastHeartbeat
            && d.workers[w].instance == db.workers[w].instance
  {
    if CanReport(db, j, e) {
      Recorded(db, j, e, reported, db.jobs[j].worker, message, now);
    } else {
      ReportRefused(db, j, e, reported, message, now);
    }
  }

  lemma FreshReport(p: Plane, j: JobId, e: int, reported: Option<JobStatus>, message: string, now: Time)
    requires Fresh(p)
    ensures Fresh(Happen(p, ReportResult(j, e, reported, message, now)))
  {
    var n := Happen(p, ReportResult(j, e, reported, message, now));
    forall w | w in n.cache
      ensures w in n.db.workers && n.cache[w].epoch == n.db.workers[w].epoch
    {
      assert w in p.db.workers;
      ReportEpochs(p.db, j, e, reported, message, now, w);
    }
  }

  lemma FreshBeat(p: Plane, b: Beat, now: Time)
    requires Fresh(p)
    ensures Fresh(Beaten(p, b, now))
  {
  }

  lemma FreshOther(p: Plane, ev: Event)
    requires Fresh(p) && !ev.ReportResult? && !ev.Heartbeat?
    ensures Fresh(Happen(p, ev))
  {
  }

  lemma {:induction false} FreshRun(events: seq<Event>)
    ensures Fresh(History(events))
  {
    if events != [] {
      var p, ev := History(events[..|events| - 1]), events[|events| - 1];
      FreshRun(events[..|events| - 1]);
      match ev
      case ReportResult(j, e, reported, message, now) => FreshReport(p, j, e, reported, message, now);
      case Heartbeat(b, now) => FreshBeat(p, b, now);
      case _ => FreshOther(p, ev);
    }
  }

  function Answer(p: Plane, b: Beat): Reply { BeatReply(p.db, Lookup(p.cache, b.w), b) }

  /** In every run an acknowledged heartbeat carries the current epoch of its worker's row. */
  lemma AckCarriesCurrentEpoch(events: seq<Event>, b: Beat)
    requires Answer(History(events), b).Ack?
    ensures AtEpoch(History(events).db, b.w, b.e)
  {
    FreshRun(events);
  }

  // ---- every answer ----

  predicate NoneOffline(db: Db) { forall w | w in db.workers :: db.workers[w].status != Offline }

  lemma NoneOfflineStep(p: Plane, ev: Event)
    requires Sound(p.db) && NoneOffline(p.db) && AgentEvent(ev)
    ensures NoneOffline(Happen(p, ev).db)
  {
    match ev
    case ReportResult(j, e, reported, message, now) => ReportWorkers(p.db, j, e, reported, message, now);
    case Heartbeat(b, now) => NoneOfflineBeat(p.db, Lookup(p.cache, b.w), b, now);
    case _ => NoneOfflineOther(p, ev);
  }

  lemma NoneOfflineBeat(db: Db, seen: Option<Entry>, b: Beat, now: Time)
    requires NoneOffline(db) && Reapable(DbStatus(b.status))
    ensures NoneOffline(AfterBeat(db, seen, b, now))
  {
  }

  lemma NoneOfflineOther(p: Plane, ev: Event)
    requires NoneOffline(p.db) && !ev.ReportResult? && !ev.Heartbeat?
    ensures NoneOffline(Happen(p, ev).db)
  {
  }

  lemma {:induction false} NoneOfflineRun(events: seq<Event>)
    requires forall ev | ev in events :: AgentEvent(ev)
    ensures NoneOffline(History(events).db)
  {
    if events != [] {
      var rest := events[..|events| - 1];
      NoneOfflineRun(rest);
      PlaneSound(rest);
      assert events[|events| - 1] in events;
      NoneOfflineStep(History(rest), events[|events| - 1]);
    }
  }

  /**
   * In every run, whatever is cached: a heartbeat is told to register if its worker is unknown or DEAD, refused as stale if the
   * row has another epoch, and acknowledged otherwise.
   */
  lemma AnswerIff(events: seq<Event>, b: Beat)
    requires forall ev | ev in events :: AgentEvent(ev)
    ensures var db, r := History(events).db, Answer(History(events), b);
            var known := b.w in db.workers && db.workers[b.w].status != Dead;
            && (r.UnknownWorker? <==> !known)
            && (r.StaleEpoch? <==> known && db.workers[b.w].epoch != b.e)
            && (r.Ack? <==> known && db.workers[b.w].epoch == b.e)
  {
    FreshRun(events);
    PlaneSound(events);
    NoneOfflineRun(events);
  }

  lemma EpochStep(p: Plane, ev: Event, w: WorkerId)
    requires w in p.db.workers
    ensures w in Happen(p, ev).db.workers && p.db.workers[w].epoch <= Happen(p, ev).db.workers[w].epoch
  {
    if ev.ReportResult? { ReportEpochs(p.db, ev.j, ev.e, ev.reported, ev.message, ev.now, w); }
  }

  lemma {:induction false} EpochsGrow(events: seq<Event>, i: nat, k: nat, w: WorkerId)
    requires i <= k <= |events| && w in History(events[..i]).db.workers
    ensures w in History(events[..k]).db.workers
    ensures History(events[..i]).db.workers[w].epoch <= History(events[..k]).db.workers[w].epoch
    decreases k
  {
    if i < k {
      EpochsGrow(events, i, k - 1, w);
      assert events[..k] == events[..k - 1] + [events[k - 1]];
      HistorySnoc(events[..k - 1], events[k - 1]);
      EpochStep(History(events[..k - 1]), events[k - 1], w);
    }
  }

  lemma RegisterBumps(p: Plane, ev: Event, w: WorkerId)
    requires IndexOk(p.db) && w in p.db.workers && ev.RegisterWorker? && ev.inst == p.db.workers[w].instance
    ensures w in Happen(p, ev).db.workers && Happen(p, ev).db.workers[w].epoch == p.db.workers[w].epoch + 1
  {
  }

  /** Once a worker has registered again, no heartbeat under an earlier epoch is acknowledged any more. */
  lemma SupersededBeatRefused(events: seq<Event>, i: nat, k: nat, b: Beat)
    requires i < k <= |events| && forall ev | ev in events :: AgentEvent(ev)
    requires b.w in History(events[..i]).db.workers && b.e <= History(events[..i]).db.workers[b.w].epoch
    requires events[i].RegisterWorker? && events[i].inst == History(events[..i]).db.workers[b.w].instance
    ensures !Answer(History(events[..k]), b).Ack?
  {
    PlaneSound(events[..i]);
    assert events[..i + 1] == events[..i] + [events[i]];
    HistorySnoc(events[..i], events[i]);
    RegisterBumps(History(events[..i]), events[i], b.w);
    EpochsGrow(events, i + 1, k, b.w);
    FreshRun(events[..k]);
  }

  // ---- the coalescing clock ----

  /** Rows have been seen, not before the epoch of the clock; no cache entry claims a flush later than the row shows. */
  predicate Clocked(p: Plane) {
    && (forall w | w in p.db.workers :: SeenRow(p.db.workers[w]))
    && (forall w | w in p.cache :: w in p.db.workers && p.cache[w].lastFlush <= Unix(SeenAt(p.db.workers[w])))
  }

  predicate SeenRow(row: Worker) { row.lastHeartbeat.Some? && row.lastHeartbeat.value >= 0 }

  function SeenAt(row: Worker): Time { if row.lastHeartbeat.Some? then row.lastHeartbeat.value else 0 }

  predicate Timely(ev: Event) { (ev.RegisterWorker? || ev.Heartbeat? || ev.ReportResult?) ==> ev.now >= 0 }

  /** A report that frees its worker sets the cached flush time without touching last_heartbeat. */
  predicate Backdates(p: Plane, ev: Event) {
    && ev.ReportResult? && CanReport(p.db, ev.j, ev.e) && p.db.jobs[ev.j].worker.Some?
    && var w := p.db.jobs[ev.j].worker.value;
       AtEpoch(p.db, w, ev.e) && Unix(SeenAt(p.db.workers[w])) < Unix(ev.now)
  }

  /** The flush goes through exactly if it is due and names no unknown job; it is then that the row is seen. */
  lemma BeatWorkers(db: Db, seen: Option<Entry>, b: Beat, now: Time)
    requires BeatAccepted(db, seen, b) && AtEpoch(db, b.w, b.e)
    ensures var flushed := Flushes(seen, b, now) && (b.job.None? || b.job.value in db.jobs);
            AfterBeat(db, seen, b, now).workers == if flushed
              then db.workers[b.w := db.workers[b.w].(status := DbStatus(b.status), currentJob := b.job, lastHeartbeat := Some(now))]
              else db.workers
  {
  }

  lemma ClockWritten(p: Plane, n: Plane, w: WorkerId, s: State)
    requires Clocked(p) && w in p.db.workers && n.cache == Put(p.cache, w, s)
    requires n.db.workers.Keys == p.db.workers.Keys && forall v | v in p.db.workers && v != w :: n.db.workers[v] == p.db.workers[v]
    requires SeenRow(n.db.workers[w]) && s.lastFlush <= Unix(SeenAt(n.db.workers[w]))
    ensures Clocked(n)
  {
  }

  lemma ClockBeat(p: Plane, b: Beat, now: Time)
    requires Fresh(p) && Clocked(p) && now >= 0
    ensures Clocked(Beaten(p, b, now))
  {
    var seen := Lookup(p.cache, b.w);
    if BeatAccepted(p.db, seen, b) {
      BeatWorkers(p.db, seen, b, now);
      assert SeenRow(p.db.workers[b.w]);
      ClockWritten(p, Beaten(p, b, now), b.w, BeatState(p.db, seen, b, now));
    }
  }

  lemma ClockReport(p: Plane, j: JobId, e: int, reported: Option<JobStatus>, message: string, now: Time)
    requires Clocked(p) && Sound(p.db)
    ensures Clocked(Happen(p, ReportResult(j, e, reported, message, now))) <==> !Backdates(p, ReportResult(j, e, reported, message, now))
  {
    ReportWorkers(p.db, j, e, reported, message, now);
    var d := AfterReport(p.db, j, e, reported, message, now);
    if CanReport(p.db, j, e) {
      ClockFreed(p, d, j, e, now);
    } else {
      ClockSame(p, d);
    }
  }

  lemma ClockSame(p: Plane, d: Db)
    requires Clocked(p) && d.workers == p.db.workers
    ensures Clocked(Plane(d, p.cache))
  {
  }

  lemma ClockFreed(p: Plane, d: Db, j: JobId, e: int, now: Time)
    requires Clocked(p) && CanReport(p.db, j, e)
    requires var h := p.db.jobs[j].worker;
             h.Some? && d.workers == if AtEpoch(p.db, h.value, e) then p.db.workers[h.value := FreedRow(p.db.workers[h.value])] else p.db.workers
    ensures var w := p.db.jobs[j].worker.value;
            Clocked(Plane(d, ReportCache(p, j, e, now))) <==> (AtEpoch(p.db, w, e) ==> Unix(now) <= Unix(SeenAt(p.db.workers[w])))
  {
    var w := p.db.jobs[j].worker.value;
    var n := Plane(d, ReportCache(p, j, e, now));
    if AtEpoch(p.db, w, e) {
      assert w in n.cache && n.cache[w].lastFlush == Unix(now);
    } else {
      ClockSame(p, d);
    }
  }

  lemma ClockRegister(p: Plane, inst: InstanceId, newId: WorkerId, caps: seq<Capability>, slots: int, now: Time)
    requires Clocked(p) && now >= 0
    ensures Clocked(Registered(p, inst, newId, caps, slots, now))
  {
  }

  lemma ClockOther(p: Plane, ev: Event)
    requires Clocked(p) && !ev.ReportResult? && !ev.Heartbeat? && !ev.RegisterWorker?
    ensures Clocked(Happen(p, ev))
  {
  }

  /** From there, an event makes the cache claim a flush the row has not seen exactly if it is such a report. */
  lemma ClockIff(p: Plane, ev: Event)
    requires Sound(p.db) && Fresh(p) && Clocked(p) && Timely(ev)
    ensures Clocked(Happen(p, ev)) <==> !Backdates(p, ev)
  {
    match ev
    case ReportResult(j, e, reported, message, now) => ClockReport(p, j, e, reported, message, now);
    case Heartbeat(b, now) => ClockBeat(p, b, now);
    case RegisterWorker(inst, newId, caps, slots, now) => ClockRegister(p, inst, newId, caps, slots, now);
    case _ => ClockOther(p, ev);
  }

  predicate NeverBackdates(events: seq<Event>) {
    events == [] || (NeverBackdates(events[..|events| - 1]) && !Backdates(History(events[..|events| - 1]), events[|events| - 1]))
  }

  lemma {:induction false} ClockRun(events: seq<Event>)
    requires NeverBackdates(events) && forall ev | ev in events :: AgentEvent(ev) && Timely(ev)
    ensures Clocked(History(events))
  {
    if events != [] {
      var rest := events[..|events| - 1];
      ClockRun(rest);
      PlaneSound(rest);
      FreshRun(rest);
      assert events[|events| - 1] in events;
      ClockIff(History(rest), events[|events| - 1]);
    }
  }

  /** An acknowledged heartbeat that names no unknown job leaves a row seen less than a coalescing interval ago. */
  lemma BeatLeavesSeen(p: Plane, b: Beat, now: Time)
    requires Fresh(p) && Clocked(p) && now >= 0 && Answer(p, b).Ack? && (b.job.None? || b.job.value in p.db.jobs)
    ensures var n := Beaten(p, b, now); b.w in n.db.workers && now - SeenAt(n.db.workers[b.w]) < 15 * SECOND
    ensures var n := Beaten(p, b, now); n.db.workers[b.w].lastHeartbeat.Some?
  {
    var seen := Lookup(p.cache, b.w);
    if Flushes(seen, b, now) {
      BeatWorkers(p.db, seen, b, now);
    } else {
      WholeSeconds(now, SeenAt(p.db.workers[b.w]));
    }
  }

  lemma WholeSeconds(now: Time, seen: Time)
    ensures Unix(now) - Unix(seen) < 15 ==> now - seen < 15 * SECOND
  {
  }

  /**
   * In every run without such a report, a worker whose heartbeat was just acknowledged is left alone by every sweep until
   * the timeout, less the coalescing interval, has passed.
   */
  lemma AcknowledgedIsSpared(events: seq<Event>, b: Beat, now: Time, later: Time, timeoutSeconds: int)
    requires NeverBackdates(events) && forall ev | ev in events :: AgentEvent(ev) && Timely(ev)
    requires now >= 0 && Answer(History(events), b).Ack? && (b.job.None? || b.job.value in History(events).db.jobs)
    requires later - now <= (timeoutSeconds - 15) * SECOND
    ensures b.w !in Stale(History(events + [Heartbeat(b, now)]).db, later - timeoutSeconds * SECOND)
  {
    ClockRun(events);
    FreshRun(events);
    HistorySnoc(events, Heartbeat(b, now));
    BeatLeavesSeen(History(events), b, now);
  }

  // ---- status changes reach the row ----

  /** Every cached status is the row's. */
  predicate Mirrors(p: Plane) {
    forall w | w in p.cache :: w in p.db.workers && p.cache[w].status == Some(p.db.workers[w].status)
  }

  /** A heartbeat with a new status whose flush fails, because the job it names does not exist. */
  predicate Misnames(p: Plane, ev: Event) {
    && ev.Heartbeat? && Answer(p, ev.b).Ack? && ev.b.job.Some? && ev.b.job.value !in p.db.jobs
    && ev.b.w in p.db.workers && p.db.workers[ev.b.w].status != DbStatus(ev.b.status)
  }

  lemma MirrorBeat(p: Plane, b: Beat, now: Time)
    requires Fresh(p) && Mirrors(p)
    ensures Mirrors(Beaten(p, b, now)) <==> !Misnames(p, Heartbeat(b, now))
  {
    var seen := Lookup(p.cache, b.w);
    if BeatAccepted(p.db, seen, b) {
      BeatWorkers(p.db, seen, b, now);
      var n := Beaten(p, b, now);
      assert b.w in n.cache && n.cache[b.w].status == Some(DbStatus(b.status));
      if b.w in p.cache { assert p.cache[b.w].status == Some(p.db.workers[b.w].status); }
    }
  }

  lemma MirrorReport(p: Plane, j: JobId, e: int, reported: Option<JobStatus>, message: string, now: Time)
    requires Sound(p.db) && Mirrors(p)
    ensures Mirrors(Happen(p, ReportResult(j, e, reported, message, now)))
  {
    ReportWorkers(p.db, j, e, reported, message, now);
  }

  lemma MirrorOther(p: Plane, ev: Event)
    requires Mirrors(p) && DeadUncached(Happen(p, ev)) && !ev.ReportResult? && !ev.Heartbeat?
    ensures Mirrors(Happen(p, ev))
  {
  }

  /** An event leaves some cached status different from its row exactly if it is such a heartbeat. */
  lemma MirrorIff(p: Plane, ev: Event)
    requires Sound(p.db) && DeadUncached(p) && Fresh(p) && Mirrors(p) && AgentEvent(ev)
    ensures Mirrors(Happen(p, ev)) <==> !Misnames(p, ev)
  {
    match ev
    case ReportResult(j, e, reported, message, now) => MirrorReport(p, j, e, reported, message, now);
    case Heartbeat(b, now) => MirrorBeat(p, b, now);
    case _ =>
      PlaneStep(p, ev);
      MirrorOther(p, ev);
  }

  predicate NeverMisnames(events: seq<Event>) {
    events == [] || (NeverMisnames(events[..|events| - 1]) && !Misnames(History(events[..|events| - 1]), events[|events| - 1]))
  }

  lemma {:induction false} MirrorRun(events: seq<Event>)
    requires NeverMisnames(events) && forall ev | ev in events :: AgentEvent(ev)
    ensures Mirrors(History(events))
  {
    if events != [] {
      var rest := events[..|events| - 1];
      MirrorRun(rest);
      PlaneSound(rest);
      FreshRun(rest);
      assert events[|events| - 1] in events;
      MirrorIff(History(rest), events[|events| - 1]);
    }
  }

  /**
   * Though most heartbeats are coalesced away, in every run without such a heartbeat Postgres sees each status change at once:
   * after an acknowledged heartbeat the row has the status it reported, REGISTERING standing for an unspecified one.
   */
  lemma StatusReachesRow(events: seq<Event>, b: Beat, now: Time)
    requires NeverMisnames(events + [Heartbeat(b, now)]) && (forall ev | ev in events :: AgentEvent(ev)) && AgentEvent(Heartbeat(b, now))
    requires Answer(History(events), b).Ack?
    ensures var db := History(events + [Heartbeat(b, now)]).db;
            b.w in db.workers && db.workers[b.w].status == if b.status.None? then Registering else b.status.value
  {
    MirrorRun(events + [Heartbeat(b, now)]);
    HistorySnoc(events, Heartbeat(b, now));
  }

  // ---- cached capacity ----

  /** Every cached capacity is the row's. */
  predicate Counted(p: Plane) {
    forall w | w in p.cache :: w in p.db.workers && p.cache[w].avail == p.db.workers[w].avail
  }

  /** The two writers that do not take the number from the row: a heartbeat, and an assignment with the listing's number. */
  predicate Miscounts(p: Plane, ev: Event) {
    || (ev.Heartbeat? && Answer(p, ev.b).Ack? && ev.b.w in p.db.workers && ev.b.avail != p.db.workers[ev.b.w].avail)
    || (ev.AssignOne? && CanAssign(p.db, ev.j, ev.w, ev.e) && ev.avail != p.db.workers[ev.w].avail)
  }

  lemma CountedBeat(p: Plane, b: Beat, now: Time)
    requires Fresh(p) && Counted(p)
    ensures Counted(Beaten(p, b, now)) <==> !Miscounts(p, Heartbeat(b, now))
  {
    var seen := Lookup(p.cache, b.w);
    if BeatAccepted(p.db, seen, b) {
      BeatWorkers(p.db, seen, b, now);
      assert b.w in Beaten(p, b, now).cache;
    }
  }

  lemma CountedReport(p: Plane, j: JobId, e: int, reported: Option<JobStatus>, message: string, now: Time)
    requires Sound(p.db) && Counted(p)
    ensures Counted(Happen(p, ReportResult(j, e, reported, message, now)))
  {
    ReportWorkers(p.db, j, e, reported, message, now);
  }

  lemma CountedAssign(p: Plane, j: JobId, w: WorkerId, e: int, avail: int)
    requires Counted(p)
    ensures Counted(Happen(p, AssignOne(j, w, e, avail))) <==> !Miscounts(p, AssignOne(j, w, e, avail))
  {
    if CanAssign(p.db, j, w, e) { assert w in Happen(p, AssignOne(j, w, e, avail)).cache; }
  }

  lemma CountedOther(p: Plane, ev: Event)
    requires Counted(p) && !ev.Heartbeat? && !ev.ReportResult? && !ev.AssignOne?
    ensures Counted(Happen(p, ev))
  {
  }

  /** An event leaves some cached capacity different from its row exactly if it is one of those with another number. */
  lemma CountedIff(p: Plane, ev: Event)
    requires Sound(p.db) && Fresh(p) && Counted(p)
    ensures Counted(Happen(p, ev)) <==> !Miscounts(p, ev)
  {
    match ev
    case Heartbeat(b, now) => CountedBeat(p, b, now);
    case ReportResult(j, e, reported, message, now) => CountedReport(p, j, e, reported, message, now);
    case AssignOne(j, w, e, avail) => CountedAssign(p, j, w, e, avail);
    case _ => CountedOther(p, ev);
  }

  // ---- a worker reaped between two acknowledged heartbeats ----

  function Sent(status: WorkerStatus, job: Option<JobId>): Beat { Beat(1, 1, Some(status), job, 0) }

  function Worked(): seq<Event> {
    [RegisterWorker("a", 1, [], 1, 0)] + [Submit(7, 5, [], 3)] + [AssignOne(7, 1, 1, 1)]
    + [Heartbeat(Sent(Ready, None), 1 * SECOND)] + [Heartbeat(Sent(Busy, Some(7)), 6 * SECOND)]
  }

  /** The result comes 20s into the run; one second later the worker, idle again, is heard and acknowledged. */
  function Reported(): seq<Event> {
    Worked() + [ReportResult(7, 1, Some(Success), "", 20 * SECOND)] + [Heartbeat(Sent(Ready, None), 21 * SECOND)]
  }

  function Solo(row: Worker, job: Job, entry: Entry): Plane { Plane(Db(map[1 := row], map["a" := 1], map[7 := job], map[]), map[1 := entry]) }

  function At(row: Worker, seen: Time): Worker { row.(lastHeartbeat := Some(seen)) }

  function Cached(status: WorkerStatus, job: Option<JobId>, avail: int, flushed: int): Entry { Entry(1, Some(status), job, avail, flushed, false) }

  function Started7(): Job { Task(Running, Some(1)).(startedAt := Some(6 * SECOND)) }

  lemma AssignedState()
    ensures History([RegisterWorker("a", 1, [], 1, 0)] + [Submit(7, 5, [], 3)] + [AssignOne(7, 1, 1, 1)])
         == Solo(OneSlot("a", Busy, 0, Some(7)), Task(Assigned, Some(1)), Cached(Busy, Some(7), 0, 0))
  {
    var t1: seq<Event> := [RegisterWorker("a", 1, [], 1, 0)];
    var t2 := t1 + [Submit(7, 5, [], 3)];
    HistorySnoc([], t1[0]);
    assert [] + t1 == t1;
    HistorySnoc(t1, Submit(7, 5, [], 3));
    assert History(t2) == Solo(OneSlot("a", Ready, 1, None), Task(Queued, None), Cached(Ready, None, 1, 0));
    HistorySnoc(t2, AssignOne(7, 1, 1, 1));
  }

  lemma FirstBeat()
    ensures Happen(Solo(OneSlot("a", Busy, 0, Some(7)), Task(Assigned, Some(1)), Cached(Busy, Some(7), 0, 0)), Heartbeat(Sent(Ready, None), 1 * SECOND))
         == Solo(At(OneSlot("a", Ready, 0, None), 1 * SECOND), Task(Assigned, Some(1)), Cached(Ready, None, 0, 1))
  {
  }

  lemma SecondBeat()
    ensures Happen(Solo(At(OneSlot("a", Ready, 0, None), 1 * SECOND), Task(Assigned, Some(1)), Cached(Ready, None, 0, 1)), Heartbeat(Sent(Busy, Some(7)), 6 * SECOND))
         == Solo(At(OneSlot("a", Busy, 0, Some(7)), 6 * SECOND), Started7(), Cached(Busy, Some(7), 0, 6))
  {
  }

  lemma TheReport()
    ensures Happen(Solo(At(OneSlot("a", Busy, 0, Some(7)), 6 * SECOND), Started7(), Cached(Busy, Some(7), 0, 6)), ReportResult(7, 1, Some(Success), "", 20 * SECOND))
         == Solo(At(OneSlot("a", Ready, 1, None), 6 * SECOND), Started7().(status := Success, finishedAt := Some(20 * SECOND)), Cached(Ready, None, 1, 20))
  {
  }

  lemma ThirdBeat(job: Job)
    ensures var p := Solo(At(OneSlot("a", Ready, 1, None), 6 * SECOND), job, Cached(Ready, None, 1, 20));
            Answer(p, Sent(Ready, None)).Ack? && Happen(p, Heartbeat(Sent(Ready, None), 21 * SECOND)).db == p.db
  {
  }

  lemma WorkedState()
    ensures History(Worked()) == Solo(At(OneSlot("a", Busy, 0, Some(7)), 6 * SECOND), Started7(), Cached(Busy, Some(7), 0, 6))
  {
    AssignedState();
    var t3 := [RegisterWorker("a", 1, [], 1, 0)] + [Submit(7, 5, [], 3)] + [AssignOne(7, 1, 1, 1)];
    HistorySnoc(t3, Heartbeat(Sent(Ready, None), 1 * SECOND));
    FirstBeat();
    HistorySnoc(t3 + [Heartbeat(Sent(Ready, None), 1 * SECOND)], Heartbeat(Sent(Busy, Some(7)), 6 * SECOND));
    SecondBeat();
  }

  /**
   * With the report the hypothesis fails, and so does the conclusion: the report sets the flush clock, the heartbeat after it is
   * acknowledged and coalesced away, and six seconds later a sweep with the default timeout of 20s reaps the worker.
   */
  lemma AcknowledgedYetReaped()
    ensures Answer(History(Worked() + [ReportResult(7, 1, Some(Success), "", 20 * SECOND)]), Sent(Ready, None)).Ack?
    ensures 1 in Stale(History(Reported()).db, 27 * SECOND - 20 * SECOND)
  {
    WorkedState();
    TheReport();
    HistorySnoc(Worked(), ReportResult(7, 1, Some(Success), "", 20 * SECOND));
    ThirdBeat(Started7().(status := Success, finishedAt := Some(20 * SECOND)));
    HistorySnoc(Worked() + [ReportResult(7, 1, Some(Success), "", 20 * SECOND)], Heartbeat(Sent(Ready, None), 21 * SECOND));
  }
}
