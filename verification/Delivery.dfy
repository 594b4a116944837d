/** Which QUEUED periods have a stream entry, exactly; and what a capability with a comma does. */
module Delivery {
  import opened Rows
  import opened Transactions
  import opened JobSteps
  import opened Invariants
  import opened Codec
  import opened Queue
  import opened Samples

  // ---- entries, owed and silent periods never overlap ----

  predicate Unbooked(q: Q, jp: (JobId, nat)) { jp !in q.owed && jp !in q.silent }

  predicate Booked(q: Q) {
    && (forall jp | jp in q.silent :: jp.0 in q.periods && jp.1 <= q.periods[jp.0])
    && (forall jp | jp in q.owed :: jp !in q.silent)
    && (forall x | x in q.entries && q.entries[x].job.Some? :: Unbooked(q, (q.entries[x].job.value, q.entries[x].period)))
  }

  /** A period that opens has a number not used before. */
  lemma NewIsNew(q: Q, tx: Tx, jp: (JobId, nat))
    requires jp in NewPeriods(q.db, WithTx(q, tx))
    ensures jp.0 in q.periods ==> q.periods[jp.0] < jp.1
  {
  }

  lemma PeriodsGrow(q: Q, tx: Tx, j: JobId)
    requires q.periods.Keys == q.db.jobs.Keys && j in q.periods
    ensures j in WithTx(q, tx).periods && q.periods[j] <= WithTx(q, tx).periods[j]
  {
    JobsStay(q.db, tx, j);
  }

  lemma NewBounded(q: Q, t: Q, jp: (JobId, nat))
    requires jp in NewPeriods(q.db, t)
    ensures jp.0 in t.periods && jp.1 <= t.periods[jp.0]
  {
  }

  lemma BookedTx(q: Q, tx: Tx, n: Q)
    requires Core(q) && Booked(q)
    requires var t := WithTx(q, tx);
             || n == t.(owed := q.owed + NewPeriods(q.db, t))
             || n == t.(silent := q.silent + NewPeriods(q.db, t))
    ensures Booked(n)
  {
    var opening := NewPeriods(q.db, WithTx(q, tx));
    forall jp | jp in opening
      ensures jp !in q.owed && jp !in q.silent && jp.0 in n.periods && jp.1 <= n.periods[jp.0]
    {
      NewIsNew(q, tx, jp);
      NewBounded(q, WithTx(q, tx), jp);
    }
    forall jp | jp in n.silent
      ensures jp.0 in n.periods && jp.1 <= n.periods[jp.0]
    {
      if jp in q.silent { PeriodsGrow(q, tx, jp.0); }
    }
    forall x | x in n.entries && n.entries[x].job.Some?
      ensures Unbooked(n, (n.entries[x].job.value, n.entries[x].period))
    {
      EntryUnbooked(q, tx, n, x);
    }
  }

  lemma EntryUnbooked(q: Q, tx: Tx, n: Q, x: EntryId)
    requires Core(q) && Booked(q) && x in q.entries && q.entries[x].job.Some?
    requires n.owed <= q.owed + NewPeriods(q.db, WithTx(q, tx)) && n.silent <= q.silent + NewPeriods(q.db, WithTx(q, tx))
    ensures Unbooked(n, (q.entries[x].job.value, q.entries[x].period))
  {
    var jp := (q.entries[x].job.value, q.entries[x].period);
    assert EntryOk(q, q.entries[x]) && Unbooked(q, jp);
    if jp in NewPeriods(q.db, WithTx(q, tx)) { NewIsNew(q, tx, jp); }
  }

  lemma BookedTry(q: Q, l: LoopId, pc: Pc)
    requires Core(q) && Booked(q) && pc.Choosing?
    ensures Booked(AfterTry(q, l, pc))
  {
    var tx := Assign(pc.j, pc.w, pc.e);
    var n := AfterTry(q, l, pc);
    forall jp | jp in n.silent ensures jp.0 in n.periods && jp.1 <= n.periods[jp.0] { PeriodsGrow(q, tx, jp.0); }
    forall x | x in n.entries && n.entries[x].job.Some?
      ensures Unbooked(n, (n.entries[x].job.value, n.entries[x].period))
    {
      assert Unbooked(q, (q.entries[x].job.value, q.entries[x].period));
    }
  }

  lemma BookedEnqueue(q: Q, j: JobId, p: nat, x: EntryId, ok: bool)
    requires Core(q) && Booked(q)
    ensures Booked(AfterEnqueue(q, j, p, x, ok))
  {
    var n := AfterEnqueue(q, j, p, x, ok);
    if n != q {
      assert (j, p) in q.owed;
      forall y | y in n.entries && n.entries[y].job.Some?
        ensures Unbooked(n, (n.entries[y].job.value, n.entries[y].period))
      {
        if y in q.entries { assert Unbooked(q, (q.entries[y].job.value, q.entries[y].period)); }
      }
    }
  }

  /** Nothing else touches the books. */
  lemma BookedSame(q: Q, n: Q)
    requires Booked(q) && n.periods == q.periods && n.owed == q.owed && n.silent == q.silent
    requires forall x | x in n.entries && n.entries[x].job.Some? :: x in q.entries && n.entries[x] == q.entries[x]
    ensures Booked(n)
  {
    forall x | x in n.entries && n.entries[x].job.Some?
      ensures Unbooked(n, (n.entries[x].job.value, n.entries[x].period))
    {
      assert Unbooked(q, (q.entries[x].job.value, q.entries[x].period));
    }
  }

  lemma BookedNext(q: Q, a: Act)
    requires Core(q) && Booked(q)
    ensures Booked(Next(q, a))
  {
    match a
    case Sql(tx) => if !tx.Assign? && !tx.Create? && !tx.Requeue? { BookedTx(q, tx, Next(q, a)); }
    case Submit(j, priority, caps, maxRetries) => BookedTx(q, Create(j, priority, caps, maxRetries), Next(q, a));
    case MarkDue(j) => BookedTx(q, Requeue(j), Next(q, a));
    case Enqueue(j, p, x, ok) => BookedEnqueue(q, j, p, x, ok);
    case TryAssign(l) => if l in q.loops && q.loops[l].Choosing? { BookedTry(q, l, q.loops[l]); }
    case _ => BookedLoops(q, a);
  }

  lemma BookedLoops(q: Q, a: Act)
    requires Booked(q) && (a.Malformed? || a.Deliver? || a.List? || a.Ack? || a.Stop?)
    ensures Booked(Next(q, a))
  {
    BookedSame(q, Next(q, a));
  }

  lemma {:induction false} BookedRun(acts: seq<Act>)
    ensures Booked(Queue.Run(acts))
  {
    if acts != [] {
      BookedRun(acts[..|acts| - 1]);
      QInvRun(acts[..|acts| - 1]);
      BookedNext(Queue.Run(acts[..|acts| - 1]), acts[|acts| - 1]);
    }
  }

  /**
   * After every run, a QUEUED job has an unacknowledged entry for its current period if and only if the period's enqueue has
   * been called and did not fail, and the period is not one that nobody enqueues.
   */
  lemma QueuedJobHasEntryIff(acts: seq<Act>, j: JobId)
    requires IsQueued(Queue.Run(acts).db, j)
    ensures var q := Queue.Run(acts);
            j in q.periods && (HasEntry(q, j, q.periods[j]) <==> Unbooked(q, (j, q.periods[j])))
  {
    QueuedJobHasEntry(acts, j);
    BookedRun(acts);
    var q := Queue.Run(acts);
    if HasEntry(q, j, q.periods[j]) {
      var x :| x in q.entries && x !in q.acked && q.entries[x].job == Some(j) && q.entries[x].period == q.periods[j];
      assert Unbooked(q, (q.entries[x].job.value, q.entries[x].period));
    }
  }

  /** The transactions that nobody follows with an enqueue open a period exactly for the jobs of a worker they mark dead. */
  lemma SilentOpeningsAreDeaths(db: Db, tx: Tx, j: JobId)
    requires !tx.Create? && !tx.Requeue?
    ensures Opens(db, Apply(db, tx), j) <==> ChangeOf(db, tx, j).Lost?
  {
    if j in db.jobs { JobStep(db, tx, j); } else { JobAppears(db, tx, j); }
  }

  // ---- the handlers and loops as runs of this machine ----

  /** A delivery that nothing interrupts: read the job, list, assign, acknowledge. */
  function Round(q: Q, l: LoopId, x: EntryId, cs: seq<Candidate>, best: Option<nat>): Q {
    Next(Next(Next(Next(q, Deliver(l, x)), List(l, cs, best)), TryAssign(l)), Ack(l, true))
  }

  /**
   * It comes to what processMessage does: the job is assigned to the best candidate if it is QUEUED and the guards hold, and the
   * entry is acknowledged exactly if that succeeded or there was nothing to assign.
   */
  lemma UninterruptedRound(q: Q, l: LoopId, x: EntryId, cs: seq<Candidate>, best: Option<nat>)
    requires l !in q.loops && x in q.entries && x !in q.acked
    requires IsListing(q.db, Decode(q.entries[x].caps), cs) && IsBest(cs, best)
    ensures var n, job := Round(q, l, x, cs, best), q.entries[x].job;
            var wanted := job.Some? && IsQueued(q.db, job.value);
            var placed := wanted && best.Some? && CanAssign(q.db, job.value, cs[best.value].id, cs[best.value].epoch);
            && n.db == (if placed then AfterAssign(q.db, job.value, cs[best.value].id, cs[best.value].epoch) else q.db)
            && (x in n.acked <==> !wanted || placed) && n.entries == q.entries && n.loops == q.loops
  {
    var job := q.entries[x].job;
    var q1 := Next(q, Deliver(l, x));
    var q2 := Next(q1, List(l, cs, best));
    if job.Some? && IsQueued(q.db, job.value) {
      assert q1 == q.(loops := q.loops[l := Listing(x, job.value)]);
      if best.Some? {
        var c := cs[best.value];
        assert q2.loops == q.loops[l := Choosing(x, job.value, c.id, c.epoch)] && q2.db == q.db;
        RoundTries(q2, l, x, q.loops);
      } else {
        assert q2.loops == q.loops;
      }
    } else {
      assert q1 == q.(loops := q.loops[l := Acking(x)]) && q2 == q1 && Next(q2, TryAssign(l)) == q1;
    }
  }

  /**
   * Nothing stands in the way of a QUEUED job but the lack of a worker: if some READY worker with a free slot covers the decoded
   * requirements, an uninterrupted round assigns the job, to a worker with at least as large a free fraction.
   */
  lemma RoundPlaces(q: Q, l: LoopId, x: EntryId, cs: seq<Candidate>, best: Option<nat>, w: WorkerId)
    requires Inv(q.db) && l !in q.loops && x in q.entries && x !in q.acked
    requires q.entries[x].job.Some? && IsQueued(q.db, q.entries[x].job.value)
    requires IsListing(q.db, Decode(q.entries[x].caps), cs) && IsBest(cs, best)
    requires w in q.db.workers && q.db.workers[w].status == Ready && q.db.workers[w].avail > 0
    requires Covers(q.db.workers[w].caps, Decode(q.entries[x].caps))
    ensures var n, j := Round(q, l, x, cs, best), q.entries[x].job.value;
            && x in n.acked && j in n.db.jobs && n.db.jobs[j].status == Assigned && n.db.jobs[j].worker.Some?
            && var v := n.db.jobs[j].worker.value;
               && v in q.db.workers && q.db.workers[v].slots > 0 && q.db.workers[w].slots > 0
               && q.db.workers[w].avail as real / q.db.workers[w].slots as real <= q.db.workers[v].avail as real / q.db.workers[v].slots as real
  {
    UninterruptedRound(q, l, x, cs, best);
    var i :| 0 <= i < |cs| && cs[i].id == w;
    assert WorkerOk(q.db.workers[w]);
    assert cs[i].slots > 0;
    assert FreeFraction(cs[i]) <= FreeFraction(cs[best.value]);
  }

  lemma RoundTries(q: Q, l: LoopId, x: EntryId, others: map<LoopId, Pc>)
    requires l !in others && l in q.loops && q.loops[l].Choosing? && q.loops[l].x == x && q.loops == others[l := q.loops[l]] && x !in q.acked
    ensures var n, pc := Next(Next(q, TryAssign(l)), Ack(l, true)), q.loops[l];
            && n.db == AfterAssign(q.db, pc.j, pc.w, pc.e)
            && (x in n.acked <==> CanAssign(q.db, pc.j, pc.w, pc.e)) && n.entries == q.entries && n.loops == others
  {
  }

  /** Releasing one due job: RETRYING becomes QUEUED, and if the enqueue succeeds its entry carries its own capabilities. */
  lemma UninterruptedRelease(q: Q, j: JobId, x: EntryId, ok: bool)
    requires q.periods.Keys == q.db.jobs.Keys && j in q.db.jobs && x !in q.entries && CanRequeue(q.db, j)
    ensures var n := Next(Next(q, MarkDue(j)), Enqueue(j, q.periods[j] + 1, x, ok));
            && n.db == AfterRequeue(q.db, j)
            && n.entries == if ok then q.entries[x := Message(Some(j), Join(q.db.jobs[j].caps), q.periods[j] + 1)] else q.entries
  {
    var t := WithTx(q, Requeue(j));
    assert Opens(q.db, t.db, j) && t.periods[j] == q.periods[j] + 1;
    assert (j, t.periods[j]) in NewPeriods(q.db, t);
  }

  // ---- one job from submission to assignment ----

  lemma RunSnoc(acts: seq<Act>, a: Act)
    ensures Queue.Run(acts + [a]) == Next(Queue.Run(acts), a)
  {
    assert (acts + [a])[..|acts|] == acts;
  }

  /** A worker with capabilities `have` registers, and a job that needs `need` is submitted and enqueued. */
  function Enqueued(have: seq<Capability>, need: seq<Capability>): seq<Act> {
    [Sql(Register("a", 1, have, 1, 0))] + [Submit(7, 5, need, 3)] + [Enqueue(7, 1, 0, true)]
  }

  function TheOne(have: seq<Capability>): Candidate { Candidate(1, 1, have, 1, 1) }

  /** A loop is delivered the entry, lists the worker and assigns the job. */
  function Placed1(have: seq<Capability>, need: seq<Capability>): seq<Act> {
    Enqueued(have, need) + [Deliver(0, 0)] + [List(0, [TheOne(have)], Some(0))] + [TryAssign(0)]
  }

  function Single(row: Worker, job: Job): Db { Db(map[1 := row], map["a" := 1], map[7 := job], map[]) }

  function WithLoops(db: Db, need: seq<Capability>, loops: map<LoopId, Pc>): Q {
    Q(db, map[7 := 1], map[0 := Message(Some(7), Join(need), 1)], {}, {}, {}, loops)
  }

  function ReadyRow(have: seq<Capability>): Worker { OneSlot("a", Ready, 1, None).(caps := have) }

  function BusyRow(have: seq<Capability>): Worker { OneSlot("a", Busy, 0, Some(7)).(caps := have) }

  lemma EnqueuedState(have: seq<Capability>, need: seq<Capability>)
    ensures Queue.Run(Enqueued(have, need)) == WithLoops(Single(ReadyRow(have), Task(Queued, None).(caps := need)), need, map[])
  {
    var t1: seq<Act> := [Sql(Register("a", 1, have, 1, 0))];
    var t2 := t1 + [Submit(7, 5, need, 3)];
    RunSnoc([], t1[0]);
    assert [] + t1 == t1;
    RegisteredState(have);
    RunSnoc(t1, Submit(7, 5, need, 3));
    SubmittedState(have, need);
    RunSnoc(t2, Enqueue(7, 1, 0, true));
  }

  function Fresh(have: seq<Capability>): Q {
    INIT.(db := Db(map[1 := ReadyRow(have)], map["a" := 1], map[], map[]))
  }

  lemma RegisteredState(have: seq<Capability>)
    ensures Next(INIT, Sql(Register("a", 1, have, 1, 0))) == Fresh(have)
  {
    var t := WithTx(INIT, Register("a", 1, have, 1, 0));
    assert t.db == Fresh(have).db && t.periods == map[];
    assert NewPeriods(INIT.db, t) == {};
  }

  lemma SubmittedState(have: seq<Capability>, need: seq<Capability>)
    ensures Next(Fresh(have), Submit(7, 5, need, 3))
         == Q(Single(ReadyRow(have), Task(Queued, None).(caps := need)), map[7 := 1], map[], {}, {(7, 1)}, {}, map[])
  {
    var t := WithTx(Fresh(have), Create(7, 5, need, 3));
    assert t.db == Single(ReadyRow(have), Task(Queued, None).(caps := need));
    assert t.periods == map[7 := 1];
    assert NewPeriods(Fresh(have).db, t) == {(7, 1)};
  }

  lemma ListedState(have: seq<Capability>, need: seq<Capability>)
    requires Covers(have, Decode(Join(need)))
    ensures var q := WithLoops(Single(ReadyRow(have), Task(Queued, None).(caps := need)), need, map[0 := Listing(0, 7)]);
            Next(q, List(0, [TheOne(have)], Some(0))) == q.(loops := map[0 := Choosing(0, 7, 1, 1)])
  {
    var cs := [TheOne(have)];
    var db := Single(ReadyRow(have), Task(Queued, None).(caps := need));
    assert IsListing(db, Decode(Join(need)), cs) by { assert cs[0].id == 1; }
    assert IsBest(cs, Some(0));
  }

  lemma TriedState(have: seq<Capability>, need: seq<Capability>)
    ensures Next(WithLoops(Single(ReadyRow(have), Task(Queued, None).(caps := need)), need, map[0 := Choosing(0, 7, 1, 1)]), TryAssign(0))
         == WithLoops(Single(BusyRow(have), Task(Assigned, Some(1)).(caps := need)), need, map[0 := Acking(0)])
  {
    var q := WithLoops(Single(ReadyRow(have), Task(Queued, None).(caps := need)), need, map[0 := Choosing(0, 7, 1, 1)]);
    AssignedDb(have, need);
    assert WithTx(q, Assign(7, 1, 1)).periods == map[7 := 1];
  }

  lemma AssignedDb(have: seq<Capability>, need: seq<Capability>)
    ensures var db := Single(ReadyRow(have), Task(Queued, None).(caps := need));
            && CanAssign(db, 7, 1, 1)
            && Apply(db, Assign(7, 1, 1)) == Single(BusyRow(have), Task(Assigned, Some(1)).(caps := need))
  {
  }

  lemma PlacedState(have: seq<Capability>, need: seq<Capability>)
    requires Covers(have, Decode(Join(need)))
    ensures Queue.Run(Placed1(have, need)) == WithLoops(Single(BusyRow(have), Task(Assigned, Some(1)).(caps := need)), need, map[0 := Acking(0)])
  {
    EnqueuedState(have, need);
    var t1 := Enqueued(have, need) + [Deliver(0, 0)];
    var t2 := t1 + [List(0, [TheOne(have)], Some(0))];
    RunSnoc(Enqueued(have, need), Deliver(0, 0));
    assert Queue.Run(t1) == WithLoops(Single(ReadyRow(have), Task(Queued, None).(caps := need)), need, map[0 := Listing(0, 7)]);
    RunSnoc(t1, List(0, [TheOne(have)], Some(0)));
    ListedState(have, need);
    RunSnoc(t2, TryAssign(0));
    TriedState(have, need);
  }

  // ---- a QUEUED job without an entry ----

  /** The loop acknowledges, and then the worker is marked dead. */
  function Orphan(): seq<Act> { Placed1([], []) + [Ack(0, true)] + [Sql(MarkDead(1, 1))] }

  lemma AckedState(q: Q)
    requires q == WithLoops(Single(BusyRow([]), Task(Assigned, Some(1)).(caps := [])), [], map[0 := Acking(0)])
    ensures Next(q, Ack(0, true)) == WithLoops(Single(BusyRow([]), Task(Assigned, Some(1))), [], map[]).(acked := {0})
  {
  }

  lemma ReapedState(q: Q)
    requires q == WithLoops(Single(BusyRow([]), Task(Assigned, Some(1))), [], map[]).(acked := {0})
    ensures var n := Next(q, Sql(MarkDead(1, 1)));
            IsQueued(n.db, 7) && n.periods == map[7 := 2] && n.silent == {(7, 2)} && n.entries == q.entries && n.acked == q.acked
  {
    assert Holding(q.db.jobs, 1) == {7};
    var t := WithTx(q, MarkDead(1, 1));
    assert t.db.jobs == map[7 := Task(Queued, None)];
    assert t.periods == map[7 := 2];
    assert NewPeriods(q.db, t) == {(7, 2)};
  }

  /** The reaper requeues a job and enqueues nothing: it is QUEUED, and every entry there is has been acknowledged. */
  lemma ReapedJobHasNoEntry()
    ensures var q := Queue.Run(Orphan()); IsQueued(q.db, 7) && forall x | x in q.entries :: x in q.acked
  {
    PlacedState([], []);
    RunSnoc(Placed1([], []), Ack(0, true));
    AckedState(Queue.Run(Placed1([], [])));
    RunSnoc(Placed1([], []) + [Ack(0, true)], Sql(MarkDead(1, 1)));
    ReapedState(Queue.Run(Placed1([], []) + [Ack(0, true)]));
  }

  // ---- capabilities that do not survive the queue ----

  /** Live at its holder's current epoch, requiring `need`, and the holder lacks some of it. */
  predicate Misplaced(db: Db, j: JobId, need: seq<Capability>) {
    && j in db.jobs && db.jobs[j].caps == need && Live(db.jobs[j].status)
    && db.jobs[j].worker.Some? && db.jobs[j].epoch.Some? && AtEpoch(db, db.jobs[j].worker.value, db.jobs[j].epoch.value)
    && !Covers(db.workers[db.jobs[j].worker.value].caps, need)
  }

  lemma MisplacedRun(have: seq<Capability>, need: seq<Capability>)
    requires Covers(have, Decode(Join(need))) && !Covers(have, need)
    ensures Misplaced(Queue.Run(Placed1(have, need)).db, 7, need)
  {
    PlacedState(have, need);
  }

  predicate Misplaces(acts: seq<Act>, j: JobId, need: seq<Capability>) { Misplaced(Queue.Run(acts).db, j, need) }

  /** No run misplaces a job that requires `need` if and only if the list survives the queue's encoding. */
  lemma CapabilitySafetyIff(need: seq<Capability>)
    ensures (forall acts, j :: !Misplaces(acts, j, need)) <==> Encodable(need)
  {
    if Encodable(need) {
      forall acts, j
        ensures !Misplaces(acts, j, need)
      {
        if Misplaces(acts, j, need) { CapabilitySafety(acts, j); }
      }
    } else {
      FilterSoundIff(need);
      var have: seq<Capability> :| Covers(have, Decode(Join(need))) && !Covers(have, need);
      MisplacedRun(have, need);
      assert Misplaces(Placed1(have, need), 7, need);
    }
  }

  /** The smallest case: a job that requires "a,b" runs on a worker with "a" and "b". */
  lemma CommaMisplaces()
    ensures Misplaced(Queue.Run(Placed1(["a", "b"], ["a,b"])).db, 7, ["a,b"])
  {
    SplitPrefix("a", "b");
    SplitPrefix("b", "");
    assert "a" + "," + "b" == "a,b";
    assert Decode(Join(["a,b"])) == ["a"] + ["b"];
    assert "a,b" != "a" && "a,b" != "b";
    assert "a,b" in ["a,b"] && "a,b" !in ["a", "b"];
    MisplacedRun(["a", "b"], ["a,b"]);
  }
}
