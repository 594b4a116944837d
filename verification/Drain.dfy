/** Graceful removal: what a drain request guarantees on the tables, and how long the cache remembers it. */
module Drain {
  import opened Rows
  import opened Transactions
  import opened Slots
  import opened Plane
  import opened Samples

  // ---- the tables ----

  /** Asked to drain and not offered as a candidate. */
  predicate Quiet(row: Worker) { row.drainRequested && !row.status.Ready? }

  /** The three ways out: the operator resumes, the worker registers anew, or a heartbeat flush writes READY over it. */
  predicate Undoes(db: Db, tx: Tx, w: WorkerId) {
    || (tx == ResumeDrain(w) && CanDrain(db, w))
    || (tx.Register? && Issued(db, tx.inst, tx.newId).Some? && Issued(db, tx.inst, tx.newId).value.0 == w)
    || (tx.Flush? && tx.w == w && CanFlush(db, w, tx.e, tx.job) && tx.status.Ready?)
  }

  /** A quiet worker stays quiet through a transaction if and only if it is none of those. */
  lemma QuietStaysIff(db: Db, tx: Tx, w: WorkerId)
    requires w in db.workers && Quiet(db.workers[w])
    ensures w in Apply(db, tx).workers
    ensures Quiet(Apply(db, tx).workers[w]) <==> !Undoes(db, tx, w)
  {
  }

  lemma RequestMakesQuiet(db: Db, w: WorkerId)
    requires CanDrain(db, w)
    ensures QuietIn(Apply(db, RequestDrain(w)), w)
  {
  }

  predicate QuietIn(db: Db, w: WorkerId) { w in db.workers && Quiet(db.workers[w]) }

  lemma QuietStep(db: Db, tx: Tx, w: WorkerId)
    requires QuietIn(db, w) && !Undoes(db, tx, w)
    ensures QuietIn(Apply(db, tx), w)
  {
    QuietStaysIff(db, tx, w);
  }

  predicate UndoneAt(txs: seq<Tx>, n: nat, w: WorkerId)
    requires n < |txs|
  {
    Undoes(Run(txs[..n]), txs[n], w)
  }

  lemma QuietAt(txs: seq<Tx>, k: nat, w: WorkerId)
    requires k < |txs| && QuietIn(Run(txs[..k]), w) && !UndoneAt(txs, k, w)
    ensures QuietIn(Run(txs[..k + 1]), w)
  {
    RunStep(txs, k);
    QuietStep(Run(txs[..k]), txs[k], w);
  }

  lemma {:induction false} DrainedStaysQuiet(txs: seq<Tx>, i: nat, k: nat, w: WorkerId)
    requires i < k <= |txs| && txs[i] == RequestDrain(w) && CanDrain(Run(txs[..i]), w)
    requires forall n | i < n < k :: !UndoneAt(txs, n, w)
    ensures QuietIn(Run(txs[..k]), w)
    decreases k
  {
    if k == i + 1 {
      RunStep(txs, i);
      RequestMakesQuiet(Run(txs[..i]), w);
    } else {
      DrainedStaysQuiet(txs, i, k - 1, w);
      QuietAt(txs, k - 1, w);
    }
  }

  /**
   * After an accepted drain request no assignment to the worker takes effect, its current job's end included, until
   * one of the three happens.
   */
  lemma DrainedGetsNoWork(txs: seq<Tx>, i: nat, k: nat, w: WorkerId)
    requires i < k < |txs| && txs[i] == RequestDrain(w) && CanDrain(Run(txs[..i]), w)
    requires forall n | i < n < k :: !UndoneAt(txs, n, w)
    requires txs[k].Assign? && txs[k].w == w
    ensures Run(txs[..k + 1]) == Run(txs[..k])
  {
    DrainedStaysQuiet(txs, i, k, w);
    RunStep(txs, k);
  }

  /** Resuming right after requesting restores the row exactly if it was neither asked to drain nor DRAINING. */
  lemma ResumeUndoesRequestIff(db: Db, w: WorkerId)
    requires CanDrain(db, w)
    ensures AfterResumeDrain(AfterRequestDrain(db, w), w) == db <==>
      !db.workers[w].drainRequested && !db.workers[w].status.Draining?
  {
    var d := AfterResumeDrain(AfterRequestDrain(db, w), w);
    if !db.workers[w].drainRequested && !db.workers[w].status.Draining? {
      assert d.workers == db.workers;
    }
  }

  // ---- the cache ----

  predicate Remembers(cache: Cache, w: WorkerId) { w in cache && cache[w].drain }

  /** An accepted drain of w. */
  predicate Sets(p: Plane, ev: Event, w: WorkerId) { ev == DrainWorker(w) && CanDrain(p.db, w) }

  /** An eviction, a sweep of w, an accepted resume. */
  predicate Clears(p: Plane, ev: Event, w: WorkerId) {
    ev == Evict(w) || (ev.SweepOne? && ev.w == w) || (ev == ResumeWorker(w) && CanDrain(p.db, w))
  }

  /** SetState and SetDrainRequested write disjoint fields, so nothing else touches the flag. */
  lemma RemembersStepIff(p: Plane, ev: Event, w: WorkerId)
    ensures Remembers(Happen(p, ev).cache, w) <==> Sets(p, ev, w) || (Remembers(p.cache, w) && !Clears(p, ev, w))
  {
  }

  predicate SetsAt(events: seq<Event>, i: nat, w: WorkerId)
    requires i < |events|
  {
    Sets(History(events[..i]), events[i], w)
  }

  predicate ClearsAt(events: seq<Event>, i: nat, w: WorkerId)
    requires i < |events|
  {
    Clears(History(events[..i]), events[i], w)
  }

  /** Of the events that touch w's flag among the first k, the last was a drain. */
  predicate DrainedLast(events: seq<Event>, k: nat, w: WorkerId)
    requires k <= |events|
  {
    exists i | 0 <= i < k :: SetsAt(events, i, w) && forall n | i < n < k :: !ClearsAt(events, n, w)
  }

  lemma DrainedLastStep(events: seq<Event>, k: nat, w: WorkerId)
    requires k < |events|
    ensures DrainedLast(events, k + 1, w) <==> SetsAt(events, k, w) || (DrainedLast(events, k, w) && !ClearsAt(events, k, w))
  {
    if DrainedLast(events, k, w) && !ClearsAt(events, k, w) {
      var i :| 0 <= i < k && SetsAt(events, i, w) && forall n | i < n < k :: !ClearsAt(events, n, w);
      assert forall n | i < n < k + 1 :: !ClearsAt(events, n, w);
    }
    if DrainedLast(events, k + 1, w) && !SetsAt(events, k, w) {
      var i :| 0 <= i < k + 1 && SetsAt(events, i, w) && forall n | i < n < k + 1 :: !ClearsAt(events, n, w);
      assert i < k && !ClearsAt(events, k, w);
    }
  }

  /** Over any run the cached flag is set exactly if the last event that touches it was a drain. */
  lemma {:induction false} RemembersIff(events: seq<Event>, k: nat, w: WorkerId)
    requires k <= |events|
    ensures Remembers(History(events[..k]).cache, w) <==> DrainedLast(events, k, w)
    decreases k
  {
    if k > 0 {
      RemembersIff(events, k - 1, w);
      HistoryStep(events, k - 1);
      RemembersStepIff(History(events[..k - 1]), events[k - 1], w);
      DrainedLastStep(events, k - 1, w);
    }
  }

  lemma HistoryStep(events: seq<Event>, k: nat)
    requires k < |events|
    ensures History(events[..k + 1]) == Happen(History(events[..k]), events[k])
  {
    assert events[..k + 1] == events[..k] + [events[k]];
    HistorySnoc(events[..k], events[k]);
  }

  /** So a worker whose entry is cached is told to drain exactly then. */
  lemma CachedWorkerToldIff(events: seq<Event>, b: Beat)
    requires var p := History(events); b.w in p.cache && BeatReply(p.db, Lookup(p.cache, b.w), b).Ack?
    ensures var p := History(events);
            BeatReply(p.db, Lookup(p.cache, b.w), b).drain <==> DrainedLast(events, |events|, b.w)
  {
    assert events[..|events|] == events;
    RemembersIff(events, |events|, b.w);
  }

  // ---- the cache against the row ----

  /** Every cached flag says what its row says. */
  predicate Agrees(p: Plane) {
    forall w | w in p.cache :: w in p.db.workers && p.cache[w].drain == p.db.workers[w].drainRequested
  }

  /** The worker whose cache entry an event writes without its drain flag. */
  function Written(p: Plane, ev: Event): Option<WorkerId> {
    match ev
    case RegisterWorker(inst, newId, _, _, _) =>
      var issued := Issued(p.db, inst, newId); if issued.Some? then Some(issued.value.0) else None
    case Heartbeat(b, _) => if BeatAccepted(p.db, Lookup(p.cache, b.w), b) then Some(b.w) else None
    case ReportResult(j, e, _, _, _) =>
      if CanReport(p.db, j, e) && p.db.jobs[j].worker.Some? && AtEpoch(p.db, p.db.jobs[j].worker.value, e)
      then p.db.jobs[j].worker else None
    case AssignOne(j, w, e, _) => if CanAssign(p.db, j, w, e) then Some(w) else None
    case _ => None
  }

  /** It writes one afresh for a worker whose entry was gone and whose row asks it to drain. */
  predicate Forgets(p: Plane, ev: Event) {
    Written(p, ev).Some? && Written(p, ev).value !in p.cache
    && Written(p, ev).value in p.db.workers && p.db.workers[Written(p, ev).value].drainRequested
  }

  lemma AgreesRegister(p: Plane, inst: InstanceId, newId: WorkerId, caps: seq<Capability>, slots: int, now: Time)
    requires Agrees(p)
    ensures Agrees(Registered(p, inst, newId, caps, slots, now)) <==> !Forgets(p, RegisterWorker(inst, newId, caps, slots, now))
  {
    var n := Registered(p, inst, newId, caps, slots, now);
    if Forgets(p, RegisterWorker(inst, newId, caps, slots, now)) { assert Issued(p.db, inst, newId).value.0 in n.cache; }
  }

  lemma AgreesBeat(p: Plane, b: Beat, now: Time)
    requires Agrees(p)
    ensures Agrees(Beaten(p, b, now)) <==> !Forgets(p, Heartbeat(b, now))
  {
    var n := Beaten(p, b, now);
    if Forgets(p, Heartbeat(b, now)) { assert b.w in n.cache; }
  }

  lemma AgreesReport(p: Plane, j: JobId, e: int, reported: Option<JobStatus>, message: string, now: Time)
    requires Sound(p.db) && Agrees(p)
    ensures Agrees(Happen(p, ReportResult(j, e, reported, message, now))) <==> !Forgets(p, ReportResult(j, e, reported, message, now))
  {
    ReportWorkers(p.db, j, e, reported, message, now);
    if CanReport(p.db, j, e) {
      AgreesReported(p, AfterReport(p.db, j, e, reported, message, now), j, e, now);
    } else {
      AgreesUnwritten(p, AfterReport(p.db, j, e, reported, message, now));
    }
  }

  lemma AgreesUnwritten(p: Plane, d: Db)
    requires Agrees(p) && d.workers == p.db.workers
    ensures Agrees(Plane(d, p.cache))
  {
  }

  lemma AgreesReported(p: Plane, d: Db, j: JobId, e: int, now: Time)
    requires Agrees(p) && CanReport(p.db, j, e)
    requires var h := p.db.jobs[j].worker;
             h.Some? && d.workers == if AtEpoch(p.db, h.value, e) then p.db.workers[h.value := FreedRow(p.db.workers[h.value])] else p.db.workers
    ensures var w := p.db.jobs[j].worker.value;
            Agrees(Plane(d, ReportCache(p, j, e, now))) <==> (AtEpoch(p.db, w, e) ==> w in p.cache || !p.db.workers[w].drainRequested)
  {
    var w := p.db.jobs[j].worker.value;
    if AtEpoch(p.db, w, e) {
      var row := FreedRow(p.db.workers[w]);
      AgreesAfterPut(p, Plane(d, ReportCache(p, j, e, now)), w, State(e, row.status, None, row.avail, Unix(now)));
    } else {
      AgreesUnwritten(p, d);
    }
  }

  lemma AgreesAfterPut(p: Plane, n: Plane, w: WorkerId, s: State)
    requires Agrees(p) && w in p.db.workers && n.cache == Put(p.cache, w, s)
    requires n.db.workers.Keys == p.db.workers.Keys
    requires forall v | v in p.db.workers :: n.db.workers[v].drainRequested == p.db.workers[v].drainRequested
    ensures Agrees(n) <==> w in p.cache || !p.db.workers[w].drainRequested
  {
    assert w in n.cache;
  }

  lemma AgreesAssign(p: Plane, j: JobId, w: WorkerId, e: int, avail: int)
    requires Agrees(p)
    ensures Agrees(Happen(p, AssignOne(j, w, e, avail))) <==> !Forgets(p, AssignOne(j, w, e, avail))
  {
    var n := Happen(p, AssignOne(j, w, e, avail));
    if Forgets(p, AssignOne(j, w, e, avail)) { assert w in n.cache; }
  }

  lemma AgreesOther(p: Plane, ev: Event)
    requires Agrees(p) && !ev.RegisterWorker? && !ev.Heartbeat? && !ev.ReportResult? && !ev.AssignOne?
    ensures Agrees(Happen(p, ev))
  {
  }

  /** From agreement, an event leaves some cached flag different from its row exactly if it is one that forgets. */
  lemma AgreesIff(p: Plane, ev: Event)
    requires Sound(p.db) && Agrees(p)
    ensures Agrees(Happen(p, ev)) <==> !Forgets(p, ev)
  {
    match ev
    case RegisterWorker(inst, newId, caps, slots, now) => AgreesRegister(p, inst, newId, caps, slots, now);
    case Heartbeat(b, now) => AgreesBeat(p, b, now);
    case ReportResult(j, e, reported, message, now) => AgreesReport(p, j, e, reported, message, now);
    case AssignOne(j, w, e, avail) => AgreesAssign(p, j, w, e, avail);
    case _ => AgreesOther(p, ev);
  }

  predicate NeverForgets(events: seq<Event>) {
    events == [] || (NeverForgets(events[..|events| - 1]) && !Forgets(History(events[..|events| - 1]), events[|events| - 1]))
  }

  lemma {:induction false} AgreesRun(events: seq<Event>)
    requires NeverForgets(events) && forall ev | ev in events :: AgentEvent(ev)
    ensures Agrees(History(events))
  {
    if events != [] {
      var rest := events[..|events| - 1];
      AgreesRun(rest);
      PlaneSound(rest);
      AgreesIff(History(rest), events[|events| - 1]);
    }
  }

  /** In every run without such an event, each acknowledged heartbeat tells its worker what the row says. */
  lemma ToldIffRequested(events: seq<Event>, b: Beat)
    requires NeverForgets(events) && forall ev | ev in events :: AgentEvent(ev)
    requires var p := History(events); BeatReply(p.db, Lookup(p.cache, b.w), b).Ack?
    ensures var p := History(events);
            b.w in p.db.workers && BeatReply(p.db, Lookup(p.cache, b.w), b).drain == p.db.workers[b.w].drainRequested
  {
    AgreesRun(events);
  }

  // ---- a run that forgets ----

  function Evicted(): seq<Event> { [RegisterWorker("a", 1, [], 1, 0)] + [DrainWorker(1)] + [Evict(1)] }

  /** What the draining, idle agent sends. */
  function StillHere(): Beat { Beat(1, 1, Some(WorkerStatus.Draining), None, 1) }

  function DrainingRow(): Worker { OneSlot("a", WorkerStatus.Draining, 1, None).(drainRequested := true) }

  lemma EvictedState()
    ensures History(Evicted()) == Plane(Db(map[1 := DrainingRow()], map["a" := 1], map[], map[]), map[])
  {
    var t1: seq<Event> := [RegisterWorker("a", 1, [], 1, 0)];
    HistorySnoc([], t1[0]);
    assert [] + t1 == t1;
    HistorySnoc(t1, DrainWorker(1));
    HistorySnoc(t1 + [DrainWorker(1)], Evict(1));
  }

  /**
   * A lost entry is not repaired: the first heartbeat after it is answered from the tables and says drain; the entry it
   * writes carries no flag, so the next one is told to go on working, although the row still asks for the drain.
   */
  lemma EvictionForgetsDrain()
    ensures var p := History(Evicted()); BeatReply(p.db, Lookup(p.cache, 1), StillHere()) == Ack(None, true)
    ensures var p := History(Evicted() + [Heartbeat(StillHere(), 0)]);
            && BeatReply(p.db, Lookup(p.cache, 1), StillHere()) == Ack(None, false)
            && 1 in p.db.workers && p.db.workers[1].drainRequested
  {
    EvictedState();
    HistorySnoc(Evicted(), Heartbeat(StillHere(), 0));
  }
}
