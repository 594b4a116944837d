/**
 * The assignment push, handler call by handler call: a heartbeat's reply hands over the job the cache names. The cache is not the job row, so the
 * question is when the two agree on whose job it is.
 */
module Push {
  import opened Rows
  import opened Transactions
  import opened JobSteps
  import opened Invariants
  import opened Slots
  import opened Plane
  import opened Samples

  /** A claim to be BUSY on a job is backed if the job row says the same, or the job is closed for good. */
  predicate Backed(db: Db, w: WorkerId, e: int, status: Option<WorkerStatus>, job: Option<JobId>) {
    status == Some(Busy) && job.Some? ==> job.value in db.jobs && Bound(db.jobs[job.value], w, e)
  }

  predicate Bound(row: Job, w: WorkerId, e: int) { HeldAt(row, w, e) || Terminal(row.status) }

  /** The cache knows the row's epoch, and what it says is backed. */
  predicate EntryOk(p: Plane, w: WorkerId)
    requires w in p.cache
  {
    w in p.db.workers && p.cache[w].epoch == p.db.workers[w].epoch && Backed(p.db, w, p.cache[w].epoch, p.cache[w].status, p.cache[w].job)
  }

  predicate RowOk(db: Db, w: WorkerId)
    requires w in db.workers
  {
    Backed(db, w, db.workers[w].epoch, Some(db.workers[w].status), db.workers[w].currentJob)
  }

  predicate Backing(p: Plane) {
    && (forall w | w in p.cache :: EntryOk(p, w))
    && (forall w | w in p.db.workers :: RowOk(p.db, w))
  }

  /** An accepted heartbeat whose claim is not backed: its worker has reported the job's end but not forgotten the job. */
  predicate Strays(p: Plane, ev: Event) {
    ev.Heartbeat? && StrayBeat(p, ev.b)
  }

  predicate StrayBeat(p: Plane, b: Beat) {
    BeatAccepted(p.db, Lookup(p.cache, b.w), b) && !Backed(p.db, b.w, b.e, Some(DbStatus(b.status)), b.job)
  }

  // ---- what leaves a claim backed ----

  /** Every claim that was backed in one database is backed in the other, worker `but` apart. */
  predicate Carries(db: Db, d: Db, but: Option<WorkerId>) {
    forall w, j | j in db.jobs && Some(w) != but && w in db.workers && Bound(db.jobs[j], w, db.workers[w].epoch) ::
      j in d.jobs && Bound(d.jobs[j], w, db.workers[w].epoch)
  }

  /** Rows and entries of all workers but one are as they were. */
  predicate Elsewhere(p: Plane, n: Plane, but: Option<WorkerId>) {
    && (forall w | w in n.cache && Some(w) != but :: w in p.cache && n.cache[w] == p.cache[w])
    && (forall w | w in n.db.workers && Some(w) != but :: w in p.db.workers && n.db.workers[w] == p.db.workers[w])
    && p.db.workers.Keys <= n.db.workers.Keys
  }

  lemma BackingElsewhere(p: Plane, n: Plane, but: Option<WorkerId>)
    requires Backing(p) && Carries(p.db, n.db, but) && Elsewhere(p, n, but)
    requires but.Some? && but.value in n.cache ==> EntryOk(n, but.value)
    requires but.Some? && but.value in n.db.workers ==> RowOk(n.db, but.value)
    ensures Backing(n)
  {
    forall w | w in n.cache ensures EntryOk(n, w) {
      if Some(w) != but { assert EntryOk(p, w); }
    }
    forall w | w in n.db.workers ensures RowOk(n.db, w) {
      if Some(w) != but { assert RowOk(p.db, w); }
    }
  }

  /** Only an accepted failure report or a death unbinds a job from its holder. */
  lemma BoundStays(db: Db, tx: Tx, j: JobId, w: WorkerId, e: int)
    requires j in db.jobs && JobOk(db.jobs[j]) && Bound(db.jobs[j], w, e)
    requires !ChangeOf(db, tx, j).Delayed? && !ChangeOf(db, tx, j).Lost?
    ensures j in Apply(db, tx).jobs && Bound(Apply(db, tx).jobs[j], w, e)
  {
    JobStep(db, tx, j);
  }

  lemma CarriesTx(db: Db, tx: Tx)
    requires Inv(db) && !tx.RetryOrFail? && !tx.MarkDead?
    ensures Carries(db, Apply(db, tx), None)
  {
    forall w, j | j in db.jobs && w in db.workers && Bound(db.jobs[j], w, db.workers[w].epoch)
      ensures j in Apply(db, tx).jobs && Bound(Apply(db, tx).jobs[j], w, db.workers[w].epoch)
    {
      BoundStays(db, tx, j, w, db.workers[w].epoch);
    }
  }

  lemma CarriesDeath(db: Db, w: WorkerId, e: int)
    requires Inv(db)
    ensures Carries(db, AfterDeath(db, w, e), Some(w))
  {
    forall v, j | j in db.jobs && v != w && v in db.workers && Bound(db.jobs[j], v, db.workers[v].epoch)
      ensures j in AfterDeath(db, w, e).jobs && Bound(AfterDeath(db, w, e).jobs[j], v, db.workers[v].epoch)
    {
      BoundStays(db, MarkDead(w, e), j, v, db.workers[v].epoch);
    }
  }

  // ---- event by event ----

  lemma BackingRegister(p: Plane, inst: InstanceId, newId: WorkerId, caps: seq<Capability>, slots: int, now: Time)
    requires Inv(p.db) && Backing(p)
    ensures Backing(Registered(p, inst, newId, caps, slots, now))
  {
    var n := Registered(p, inst, newId, caps, slots, now);
    var issued := Issued(p.db, inst, newId);
    CarriesTx(p.db, Register(inst, newId, caps, slots, now));
    BackingElsewhere(p, n, if issued.Some? then Some(issued.value.0) else None);
  }

  lemma BackingAssign(p: Plane, j: JobId, w: WorkerId, e: int, avail: int)
    requires Inv(p.db) && Backing(p)
    ensures Backing(Happen(p, AssignOne(j, w, e, avail)))
  {
    if CanAssign(p.db, j, w, e) {
      CarriesTx(p.db, Assign(j, w, e));
      BackingElsewhere(p, Happen(p, AssignOne(j, w, e, avail)), Some(w));
    }
  }

  lemma BackingSweep(p: Plane, w: WorkerId, e: int)
    requires Inv(p.db) && Backing(p)
    ensures Backing(Happen(p, SweepOne(w, e)))
  {
    if CanMarkDead(p.db, w, e) {
      CarriesDeath(p.db, w, e);
      BackingElsewhere(p, Happen(p, SweepOne(w, e)), Some(w));
    } else {
      BackingElsewhere(p, Happen(p, SweepOne(w, e)), None);
    }
  }

  /** Neither call makes a worker BUSY, and the cache is given the row's own claim. */
  lemma DrainClaims(p: Plane, tx: Tx, w: WorkerId, b: bool)
    requires CanDrain(p.db, w) && (tx == RequestDrain(w) || tx == ResumeDrain(w))
    ensures var n := Plane(Apply(p.db, tx), DrainCache(p, Apply(p.db, tx), w, b));
            && Elsewhere(p, n, Some(w)) && n.db.jobs == p.db.jobs && w in n.cache && w in n.db.workers
            && (RowOk(p.db, w) ==> EntryOk(n, w) && RowOk(n.db, w))
  {
  }

  lemma BackingDrain(p: Plane, tx: Tx, w: WorkerId, b: bool)
    requires Inv(p.db) && Backing(p) && (tx == RequestDrain(w) || tx == ResumeDrain(w))
    ensures Backing(Plane(Apply(p.db, tx), DrainCache(p, Apply(p.db, tx), w, b)))
  {
    if CanDrain(p.db, w) {
      CarriesTx(p.db, tx);
      DrainClaims(p, tx, w, b);
      assert RowOk(p.db, w);
      BackingElsewhere(p, Plane(Apply(p.db, tx), DrainCache(p, Apply(p.db, tx), w, b)), Some(w));
    }
  }

  /** Submission and release touch neither a bound job nor a worker. */
  lemma BackingJobs(p: Plane, tx: Tx)
    requires Inv(p.db) && Backing(p) && (tx.Create? || tx.Requeue?)
    ensures Backing(p.(db := Apply(p.db, tx)))
  {
    CarriesTx(p.db, tx);
    BackingElsewhere(p, p.(db := Apply(p.db, tx)), None);
  }

  /** A report unbinds the job from its holder only; if the holder has moved on, nothing it now claims is this job. */
  lemma CarriesReport(db: Db, j: JobId, e: int, reported: Option<JobStatus>, message: string, now: Time, but: Option<WorkerId>)
    requires Inv(db) && CanReport(db, j, e)
    requires var h := db.jobs[j].worker; h.Some? && but == if AtEpoch(db, h.value, e) then h else None
    ensures Carries(db, AfterReport(db, j, e, reported, message, now), but)
  {
    Recorded(db, j, e, reported, db.jobs[j].worker, message, now);
    assert AfterReport(db, j, e, reported, message, now).jobs == Apply(db, RecordTx(j, e, reported, db.jobs[j].worker, message, now)).jobs;
  }

  /** The freed holder claims nothing; everybody else is as before. */
  lemma FreedElsewhere(p: Plane, n: Plane, w: WorkerId, s: State)
    requires w in p.db.workers && n.db.workers == p.db.workers[w := FreedRow(p.db.workers[w])]
    requires n.cache == Put(p.cache, w, s) && s.epoch == p.db.workers[w].epoch && s.status == FreedRow(p.db.workers[w]).status
    ensures Elsewhere(p, n, Some(w)) && EntryOk(n, w) && RowOk(n.db, w)
  {
  }

  lemma BackingFreed(p: Plane, n: Plane, w: WorkerId, s: State)
    requires Backing(p) && Carries(p.db, n.db, Some(w))
    requires w in p.db.workers && n.db.workers == p.db.workers[w := FreedRow(p.db.workers[w])]
    requires n.cache == Put(p.cache, w, s) && s.epoch == p.db.workers[w].epoch && s.status == FreedRow(p.db.workers[w]).status
    ensures Backing(n)
  {
    FreedElsewhere(p, n, w, s);
    BackingElsewhere(p, n, Some(w));
  }

  lemma BackingSameWorkers(p: Plane, n: Plane)
    requires Backing(p) && Carries(p.db, n.db, None) && n.db.workers == p.db.workers && n.cache.Keys <= p.cache.Keys
    requires forall w | w in n.cache :: n.cache[w] == p.cache[w]
    ensures Backing(n)
  {
    BackingElsewhere(p, n, None);
  }

  lemma BackingReport(p: Plane, j: JobId, e: int, reported: Option<JobStatus>, message: string, now: Time)
    requires Sound(p.db) && Backing(p)
    ensures Backing(Plane(AfterReport(p.db, j, e, reported, message, now), ReportCache(p, j, e, now)))
  {
    var n := Plane(AfterReport(p.db, j, e, reported, message, now), ReportCache(p, j, e, now));
    ReportWorkers(p.db, j, e, reported, message, now);
    if CanReport(p.db, j, e) {
      var w := p.db.jobs[j].worker.value;
      if AtEpoch(p.db, w, e) {
        CarriesReport(p.db, j, e, reported, message, now, Some(w));
        var row := FreedRow(p.db.workers[w]);
        BackingFreed(p, n, w, State(e, row.status, None, row.avail, Unix(now)));
      } else {
        CarriesReport(p.db, j, e, reported, message, now, None);
        BackingSameWorkers(p, n);
      }
    } else {
      ReportRefused(p.db, j, e, reported, message, now);
    }
  }

  predicate SameBonds(db: Db, d: Db) {
    && d.jobs.Keys == db.jobs.Keys
    && forall j | j in db.jobs :: SameBond(db.jobs[j], d.jobs[j])
  }

  /** Alike in everything Bound looks at. */
  predicate SameBond(a: Job, b: Job) {
    a.worker == b.worker && a.epoch == b.epoch && (Live(a.status) <==> Live(b.status)) && (Terminal(a.status) <==> Terminal(b.status))
  }

  lemma MarkRunningKeepsBonds(db: Db, j: JobId, e: int, now: Time)
    ensures SameBonds(db, AfterMarkRunning(db, j, e, now))
  {
  }

  /** A heartbeat's own transactions bind and unbind nothing. */
  lemma BeatKeepsBonds(db: Db, seen: Option<Entry>, b: Beat, now: Time)
    ensures SameBonds(db, AfterBeat(db, seen, b, now))
  {
    if b.job.Some? { MarkRunningKeepsBonds(db, b.job.value, b.e, now); }
  }

  lemma SameBondsCarry(db: Db, d: Db, but: Option<WorkerId>)
    requires SameBonds(db, d)
    ensures Carries(db, d, but)
    ensures forall w, e, s, job :: Backed(db, w, e, s, job) <==> Backed(d, w, e, s, job)
  {
    forall w, e, s, job
      ensures Backed(db, w, e, s, job) <==> Backed(d, w, e, s, job)
    {
      if job.Some? && job.value in db.jobs { assert SameBond(db.jobs[job.value], d.jobs[job.value]); }
    }
  }

  /** What an accepted heartbeat writes is its own claim, in the cache always and in the row if it flushes. */
  lemma BeatClaims(p: Plane, b: Beat, now: Time)
    requires BeatAccepted(p.db, Lookup(p.cache, b.w), b) && AtEpoch(p.db, b.w, b.e)
    ensures var n := Beaten(p, b, now);
            && Elsewhere(p, n, Some(b.w)) && b.w in n.cache && b.w in n.db.workers
            && (EntryOk(n, b.w) <==> Backed(n.db, b.w, b.e, Some(DbStatus(b.status)), b.job))
            && n.db.workers[b.w].epoch == b.e
            && (|| (n.db.workers[b.w].status == DbStatus(b.status) && n.db.workers[b.w].currentJob == b.job)
                || n.db.workers[b.w] == p.db.workers[b.w])
  {
  }

  /** A heartbeat leaves every claim backed exactly if its own claim is. */
  lemma HeartbeatKeepsBackingIff(p: Plane, b: Beat, now: Time)
    requires Inv(p.db) && Backing(p)
    ensures Backing(Beaten(p, b, now)) <==> !StrayBeat(p, b)
  {
    var seen := Lookup(p.cache, b.w);
    if BeatAccepted(p.db, seen, b) {
      var n := Beaten(p, b, now);
      assert b.w in p.db.workers && p.db.workers[b.w].epoch == b.e by {
        if b.w in p.cache { assert EntryOk(p, b.w); }
      }
      BeatKeepsBonds(p.db, seen, b, now);
      SameBondsCarry(p.db, n.db, Some(b.w));
      assert RowOk(p.db, b.w);
      BeatClaims(p, b, now);
      if !StrayBeat(p, b) { BackingElsewhere(p, n, Some(b.w)); }
    }
  }

  lemma BackingStepIff(p: Plane, ev: Event)
    requires Sound(p.db) && Backing(p)
    ensures Backing(Happen(p, ev)) <==> !Strays(p, ev)
  {
    if ev.Heartbeat? { HeartbeatKeepsBackingIff(p, ev.b, ev.now); } else { BackingOther(p, ev); }
  }

  lemma BackingOther(p: Plane, ev: Event)
    requires Sound(p.db) && Backing(p) && !ev.Heartbeat?
    ensures Backing(Happen(p, ev))
  {
    if ev.RegisterWorker? || ev.AssignOne? || ev.SweepOne? {
      BackingWorkerEvents(p, ev);
    } else if ev.DrainWorker? || ev.ResumeWorker? {
      BackingDrainEvents(p, ev);
    } else if ev.ReportResult? {
      BackingReport(p, ev.j, ev.e, ev.reported, ev.message, ev.now);
    } else {
      BackingQuietEvents(p, ev);
    }
  }

  lemma BackingWorkerEvents(p: Plane, ev: Event)
    requires Inv(p.db) && Backing(p) && (ev.RegisterWorker? || ev.AssignOne? || ev.SweepOne?)
    ensures Backing(Happen(p, ev))
  {
    match ev
    case RegisterWorker(inst, newId, caps, slots, now) => BackingRegister(p, inst, newId, caps, slots, now);
    case AssignOne(j, w, e, avail) => BackingAssign(p, j, w, e, avail);
    case SweepOne(w, e) => BackingSweep(p, w, e);
  }

  lemma BackingDrainEvents(p: Plane, ev: Event)
    requires Inv(p.db) && Backing(p) && (ev.DrainWorker? || ev.ResumeWorker?)
    ensures Backing(Happen(p, ev))
  {
    var tx := EventTx(ev).value;
    DrainHappens(p, ev);
    BackingDrain(p, tx, ev.w, ev.DrainWorker?);
  }

  lemma DrainHappens(p: Plane, ev: Event)
    requires ev.DrainWorker? || ev.ResumeWorker?
    ensures var d := Apply(p.db, EventTx(ev).value); Happen(p, ev) == Plane(d, DrainCache(p, d, ev.w, ev.DrainWorker?))
  {
  }

  lemma BackingEvict(p: Plane, w: WorkerId)
    requires Backing(p)
    ensures Backing(p.(cache := p.cache - {w}))
  {
    BackingSameWorkers(p, p.(cache := p.cache - {w}));
  }

  lemma BackingQuietEvents(p: Plane, ev: Event)
    requires Inv(p.db) && Backing(p) && (ev.Submit? || ev.Release? || ev.Evict?)
    ensures Backing(Happen(p, ev))
  {
    if ev.Evict? {
      BackingEvict(p, ev.w);
    } else {
      JobsHappen(p, ev);
      BackingJobs(p, EventTx(ev).value);
    }
  }

  lemma JobsHappen(p: Plane, ev: Event)
    requires ev.Submit? || ev.Release?
    ensures Happen(p, ev) == p.(db := Apply(p.db, EventTx(ev).value))
  {
  }

  predicate NeverStrays(events: seq<Event>) {
    events == [] || (NeverStrays(events[..|events| - 1]) && !Strays(History(events[..|events| - 1]), events[|events| - 1]))
  }

  lemma {:induction false} BackingRun(events: seq<Event>)
    requires NeverStrays(events) && forall ev | ev in events :: AgentEvent(ev)
    ensures Backing(History(events))
  {
    if events != [] {
      var rest := events[..|events| - 1];
      BackingRun(rest);
      PlaneSound(rest);
      BackingStepIff(History(rest), events[|events| - 1]);
    }
  }

  /**
   * In every run without a stray heartbeat, a job handed over with a reply is ASSIGNED to the very worker that sent the
   * heartbeat, under the epoch the reply carries.
   */
  lemma PushGoesToHolder(events: seq<Event>, b: Beat)
    requires NeverStrays(events) && forall ev | ev in events :: AgentEvent(ev)
    requires var p := History(events);
             var r := BeatReply(p.db, Lookup(p.cache, b.w), b); r.Ack? && r.assignment.Some?
    ensures var p := History(events);
            var j := BeatReply(p.db, Lookup(p.cache, b.w), b).assignment.value;
            j in p.db.jobs && p.db.jobs[j].status.Assigned? && HeldAt(p.db.jobs[j], b.w, b.e)
  {
    BackingRun(events);
    assert EntryOk(History(events), b.w);
  }

  /** The job a heartbeat would be handed at the end of a run. */
  function Pushed(p: Plane, b: Beat): Option<JobId> {
    var r := BeatReply(p.db, Lookup(p.cache, b.w), b);
    if r.Ack? then r.assignment else None
  }

  /** So in no state would two workers be handed the same job. */
  lemma OneReceiver(events: seq<Event>, b: Beat, c: Beat)
    requires NeverStrays(events) && forall ev | ev in events :: AgentEvent(ev)
    requires Pushed(History(events), b).Some? && Pushed(History(events), b) == Pushed(History(events), c)
    ensures b.w == c.w
  {
    PushGoesToHolder(events, b);
    PushGoesToHolder(events, c);
  }

  // ---- a stray heartbeat hands one job to two workers ----

  function Idle(w: WorkerId): Beat { Beat(w, 1, Some(Ready), None, 1) }

  function Handed(): seq<Event> {
    [RegisterWorker("a", 1, [], 1, 0)] + [RegisterWorker("b", 2, [], 1, 0)] + [Submit(7, 5, [], 3)] + [AssignOne(7, 1, 1, 1)]
  }

  /** Worker 1 is handed the job, reports its failure, and heartbeats once more before its agent has called finishJob. */
  function Returned(): seq<Event> {
    Handed() + [Heartbeat(Idle(1), 0)] + [ReportResult(7, 1, Some(Failed), "", 0)] + [Heartbeat(Beat(1, 1, Some(Busy), Some(7), 0), 0)]
  }

  function Retried(): seq<Event> { Returned() + [Release(7)] + [AssignOne(7, 2, 1, 1)] }

  function Cached(status: WorkerStatus, job: Option<JobId>, avail: int): Entry { Entry(1, Some(status), job, avail, 0, false) }

  function Pair(a: Worker, b: Worker, job: Job, rows: map<JobId, seq<Attempt>>, x: Entry, y: Entry): Plane {
    Plane(Db(map[1 := a, 2 := b], map["a" := 1, "b" := 2], map[7 := job], rows), map[1 := x, 2 := y])
  }

  function AfterHanded(): Plane {
    Pair(OneSlot("a", Busy, 0, Some(7)), OneSlot("b", Ready, 1, None), Task(Assigned, Some(1)), map[], Cached(Busy, Some(7), 0), Cached(Ready, None, 1))
  }

  lemma HandedState()
    ensures History(Handed()) == AfterHanded()
  {
    var t1: seq<Event> := [RegisterWorker("a", 1, [], 1, 0)];
    var t2 := t1 + [RegisterWorker("b", 2, [], 1, 0)];
    var t3 := t2 + [Submit(7, 5, [], 3)];
    HistorySnoc([], t1[0]);
    assert [] + t1 == t1;
    assert History(t1) == Plane(Db(map[1 := OneSlot("a", Ready, 1, None)], map["a" := 1], map[], map[]), map[1 := Cached(Ready, None, 1)]);
    HistorySnoc(t1, RegisterWorker("b", 2, [], 1, 0));
    HistorySnoc(t2, Submit(7, 5, [], 3));
    assert History(t3) == Pair(OneSlot("a", Ready, 1, None), OneSlot("b", Ready, 1, None), Task(Queued, None), map[], Cached(Ready, None, 1), Cached(Ready, None, 1));
    HistorySnoc(t3, AssignOne(7, 1, 1, 1));
  }

  function OneFailure(): map<JobId, seq<Attempt>> { map[7 := [Attempt(1, Some(1), Reported(""))]] }

  function Parked7(): Job { Task(Retrying, None).(retries := 1, retryAt := Some(Backoff.RetryBackoff(1))) }

  function AfterPush(): Plane {
    Pair(OneSlot("a", Ready, 0, None), OneSlot("b", Ready, 1, None), Task(Assigned, Some(1)), map[], Cached(Ready, None, 1), Cached(Ready, None, 1))
  }

  function AfterFailed(): Plane {
    Pair(OneSlot("a", Ready, 1, None), OneSlot("b", Ready, 1, None), Parked7(), OneFailure(), Cached(Ready, None, 1), Cached(Ready, None, 1))
  }

  function AfterReturned(): Plane {
    Pair(OneSlot("a", Busy, 1, Some(7)), OneSlot("b", Ready, 1, None), Parked7(), OneFailure(), Cached(Busy, Some(7), 0), Cached(Ready, None, 1))
  }

  lemma PushState(p: Plane)
    requires p == AfterHanded()
    ensures Happen(p, Heartbeat(Idle(1), 0)) == AfterPush() && Pushed(p, Idle(1)) == Some(7)
  {
  }

  lemma FailureRecorded(db: Db)
    requires db == AfterPush().db
    ensures AfterFailure(db, 7, 1, Some(1), "", 0) == db.(jobs := AfterFailed().db.jobs, history := OneFailure())
  {
    var row := Attempt(1, Some(1), Reported(""));
    assert AttemptsOf(db.history, 7) == [] && [] + [row] == [row];
    assert db.history[7 := [row]] == OneFailure();
  }

  lemma FailedState(p: Plane)
    requires p == AfterPush()
    ensures Happen(p, ReportResult(7, 1, Some(Failed), "", 0)) == AfterFailed()
  {
    FailureRecorded(p.db);
  }

  lemma StrayState(p: Plane)
    requires p == AfterFailed()
    ensures Happen(p, Heartbeat(Beat(1, 1, Some(Busy), Some(7), 0), 0)) == AfterReturned()
  {
  }

  lemma ReturnedState()
    ensures History(Returned()) == AfterReturned()
  {
    HandedState();
    var t1 := Handed() + [Heartbeat(Idle(1), 0)];
    HistorySnoc(Handed(), Heartbeat(Idle(1), 0));
    PushState(AfterHanded());
    var t2 := t1 + [ReportResult(7, 1, Some(Failed), "", 0)];
    HistorySnoc(t1, ReportResult(7, 1, Some(Failed), "", 0));
    FailedState(AfterPush());
    HistorySnoc(t2, Heartbeat(Beat(1, 1, Some(Busy), Some(7), 0), 0));
    StrayState(AfterFailed());
  }

  lemma RetriedState(p: Plane)
    requires p == AfterReturned()
    ensures var n := Happen(Happen(p, Release(7)), AssignOne(7, 2, 1, 1));
            Pushed(n, Idle(1)) == Some(7) && Pushed(n, Idle(2)) == Some(7)
  {
    assert Happen(p, Release(7)).db.jobs == map[7 := Task(Queued, None).(retries := 1)];
  }

  /**
   * Without the hypothesis it fails: a worker heartbeats BUSY between reporting a failure and forgetting the job; the
   * job is retried on a second worker; and the next idle heartbeat of either is handed the job.
   */
  lemma TwoReceivers()
    ensures var p := History(Retried());
            Pushed(p, Idle(1)) == Some(7) && Pushed(p, Idle(2)) == Some(7)
  {
    ReturnedState();
    HistorySnoc(Returned(), Release(7));
    HistorySnoc(Returned() + [Release(7)], AssignOne(7, 2, 1, 1));
    RetriedState(AfterReturned());
  }
}
