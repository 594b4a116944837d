/**
 * Delivery: the stream and its unacknowledged entries, submission and the retry poller on one side, any number of
 * scheduling loops on the other. Reading the job, listing candidates, assigning and acknowledging are
 * separate steps; a loop may stop between any two of them, and entries may be redelivered.
 */
module Queue {
  import opened Rows
  import opened Transactions
  import opened JobSteps
  import opened Invariants
  import opened Codec

  type EntryId = nat
  type LoopId = nat

  /** A stream entry; `period` records which QUEUED period of the job it was written for. */
  datatype Message = Message(job: Option<JobId>, caps: string, period: nat)

  datatype Pc =
    | Listing(x: EntryId, j: JobId)                         // saw the job QUEUED
    | Choosing(x: EntryId, j: JobId, w: WorkerId, e: int)   // holds the candidate it will try
    | Acking(x: EntryId)                                    // about to acknowledge

  /**
   * `periods` counts the QUEUED periods of each job; `owed` holds the periods whose enqueue call is still to come, and
   * `silent` those that get no entry: opened by the reaper, or their enqueue failed.
   */
  datatype Q = Q(
    db: Db,
    periods: map<JobId, nat>,
    entries: map<EntryId, Message>,
    acked: set<EntryId>,
    owed: set<(JobId, nat)>,
    silent: set<(JobId, nat)>,
    loops: map<LoopId, Pc>)

  const INIT: Q := Q(EMPTY, map[], map[], {}, {}, {}, map[])

  datatype Act =
    | Sql(tx: Tx)
    | Submit(j: JobId, priority: int, caps: seq<Capability>, maxRetries: int)
    | MarkDue(j: JobId)
    | Enqueue(j: JobId, period: nat, x: EntryId, ok: bool)
    | Malformed(x: EntryId, raw: string)
    | Deliver(l: LoopId, x: EntryId)
    | List(l: LoopId, cs: seq<Candidate>, best: Option<nat>)
    | TryAssign(l: LoopId)
    | Ack(l: LoopId, ok: bool)
    | Stop(l: LoopId)

  predicate IsQueued(db: Db, j: JobId) { j in db.jobs && db.jobs[j].status.Queued? }

  predicate Opens(db: Db, d: Db, j: JobId) { IsQueued(d, j) && !IsQueued(db, j) }

  function Reopened(periods: map<JobId, nat>, db: Db, d: Db): map<JobId, nat> {
    map j | j in d.jobs :: (if j in periods then periods[j] else 0) + (if Opens(db, d, j) then 1 else 0)
  }

  function WithTx(q: Q, tx: Tx): Q {
    var d := Apply(q.db, tx);
    q.(db := d, periods := Reopened(q.periods, q.db, d))
  }

  function NewPeriods(db: Db, t: Q): set<(JobId, nat)> {
    set j | j in t.db.jobs && j in t.periods && Opens(db, t.db, j) :: (j, t.periods[j])
  }

  /** The rows ListReadyCandidates returns, in any order. */
  predicate IsListing(db: Db, need: seq<Capability>, cs: seq<Candidate>) {
    && (forall i | 0 <= i < |cs| ::
          && cs[i].id in db.workers
          && var row := db.workers[cs[i].id];
             row.status.Ready? && row.avail > 0 && Covers(row.caps, need)
             && cs[i] == Candidate(cs[i].id, row.epoch, row.caps, row.avail, row.slots))
    && (forall w | w in db.workers && db.workers[w].status.Ready? && db.workers[w].avail > 0 && Covers(db.workers[w].caps, need) ::
          exists i :: 0 <= i < |cs| && cs[i].id == w)
  }

  function AfterGet(q: Q, l: LoopId, x: EntryId): Pc
    requires x in q.entries
  {
    var m := q.entries[x];
    if m.job.None? || !IsQueued(q.db, m.job.value) then Acking(x) else Listing(x, m.job.value)
  }

  function AfterEnqueue(q: Q, j: JobId, p: nat, x: EntryId, ok: bool): Q {
    if (j, p) !in q.owed || j !in q.db.jobs || x in q.entries then q
    else if ok then q.(owed := q.owed - {(j, p)}, entries := q.entries[x := Message(Some(j), Join(q.db.jobs[j].caps), p)])
    else q.(owed := q.owed - {(j, p)}, silent := q.silent + {(j, p)})
  }

  function AfterList(q: Q, l: LoopId, cs: seq<Candidate>, best: Option<nat>): Q {
    if l !in q.loops || !q.loops[l].Listing? || q.loops[l].x !in q.entries then q
    else
      var pc := q.loops[l];
      if !IsListing(q.db, Decode(q.entries[pc.x].caps), cs) || !IsBest(cs, best) then q
      else if best.None? then q.(loops := q.loops - {l})
      else q.(loops := q.loops[l := Choosing(pc.x, pc.j, cs[best.value].id, cs[best.value].epoch)])
  }

  function AfterTry(q: Q, l: LoopId, pc: Pc): Q
    requires pc.Choosing?
  {
    LoopTo(WithTx(q, Assign(pc.j, pc.w, pc.e)), l, pc.x, CanAssign(q.db, pc.j, pc.w, pc.e))
  }

  /** The loop goes on to acknowledge, or gives up for this round. */
  function LoopTo(q: Q, l: LoopId, x: EntryId, won: bool): Q {
    q.(loops := if won then q.loops[l := Acking(x)] else q.loops - {l})
  }

  function AfterAck(q: Q, l: LoopId, x: EntryId, ok: bool): Q {
    q.(loops := q.loops - {l}, acked := if ok then q.acked + {x} else q.acked)
  }

  function Next(q: Q, a: Act): Q {
    match a
    case Sql(tx) =>
      if tx.Assign? || tx.Create? || tx.Requeue? then q
      else var t := WithTx(q, tx); t.(silent := q.silent + NewPeriods(q.db, t))
    case Submit(j, priority, caps, maxRetries) =>
      var t := WithTx(q, Create(j, priority, caps, maxRetries)); t.(owed := q.owed + NewPeriods(q.db, t))
    case MarkDue(j) =>
      var t := WithTx(q, Requeue(j)); t.(owed := q.owed + NewPeriods(q.db, t))
    case Enqueue(j, p, x, ok) => AfterEnqueue(q, j, p, x, ok)
    case Malformed(x, raw) =>
      if x in q.entries then q else q.(entries := q.entries[x := Message(None, raw, 0)])
    case Deliver(l, x) =>
      if l in q.loops || x !in q.entries || x in q.acked then q
      else q.(loops := q.loops[l := AfterGet(q, l, x)])
    case List(l, cs, best) => AfterList(q, l, cs, best)
    case TryAssign(l) => if l in q.loops && q.loops[l].Choosing? then AfterTry(q, l, q.loops[l]) else q
    case Ack(l, ok) => if l in q.loops && q.loops[l].Acking? then AfterAck(q, l, q.loops[l].x, ok) else q
    case Stop(l) => q.(loops := q.loops - {l})
  }

  function Run(acts: seq<Act>): Q {
    if acts == [] then INIT else Next(Run(acts[..|acts| - 1]), acts[|acts| - 1])
  }

  // ---- the invariant ----

  /** The job's p-th QUEUED period is over. */
  predicate Ended(q: Q, j: JobId, p: nat) {
    j in q.periods && p <= q.periods[j] && (p == q.periods[j] ==> !IsQueued(q.db, j))
  }

  predicate EntryOk(q: Q, m: Message) {
    m.job.Some? ==>
      m.job.value in q.db.jobs && m.job.value in q.periods && m.period <= q.periods[m.job.value]
      && m.caps == Join(q.db.jobs[m.job.value].caps)
  }

  /** The entry's job, if it names one, is past the period the entry was written for. */
  predicate Spent(q: Q, x: EntryId) {
    x in q.entries && (q.entries[x].job.Some? ==> Ended(q, q.entries[x].job.value, q.entries[x].period))
  }

  predicate PcOk(q: Q, pc: Pc) {
    match pc
    case Listing(x, j) => x in q.entries && q.entries[x].job == Some(j)
    case Choosing(x, j, w, e) =>
      x in q.entries && q.entries[x].job == Some(j) && w in q.db.workers && e <= q.db.workers[w].epoch
      && (e == q.db.workers[w].epoch ==> Covers(q.db.workers[w].caps, Decode(q.entries[x].caps)))
    case Acking(x) => Spent(q, x)
  }

  predicate HasEntry(q: Q, j: JobId, p: nat) {
    exists x :: x in q.entries && x !in q.acked && q.entries[x].job == Some(j) && q.entries[x].period == p
  }

  predicate Reachable(q: Q, j: JobId) {
    IsQueued(q.db, j) && j in q.periods ==>
      (j, q.periods[j]) in q.owed || (j, q.periods[j]) in q.silent || HasEntry(q, j, q.periods[j])
  }

  /** A job held at its worker's current epoch has its capabilities there, if they survive the queue's encoding. */
  predicate Capable(db: Db, row: Job) {
    (Live(row.status) && Encodable(row.caps) && row.worker.Some? && row.epoch.Some?
     && AtEpoch(db, row.worker.value, row.epoch.value)) ==>
      Covers(db.workers[row.worker.value].caps, row.caps)
  }

  /** The part about entries, loops and acknowledgements. */
  predicate Core(q: Q) {
    && Inv(q.db)
    && q.periods.Keys == q.db.jobs.Keys
    && (forall x | x in q.entries :: EntryOk(q, q.entries[x]))
    && (forall l | l in q.loops :: PcOk(q, q.loops[l]))
    && (forall x | x in q.acked :: Spent(q, x))
    && (forall jp | jp in q.owed :: jp.0 in q.periods && jp.1 <= q.periods[jp.0])
  }

  predicate AllReachable(q: Q) { forall j | j in q.db.jobs :: Reachable(q, j) }

  predicate AllCapable(db: Db) { forall j | j in db.jobs :: Capable(db, db.jobs[j]) }

  predicate QInv(q: Q) { Core(q) && AllReachable(q) && AllCapable(q.db) }

  // ---- one transaction ----

  /** Periods only grow, and an ended one stays ended. */
  lemma EndedStays(q: Q, tx: Tx, j: JobId, p: nat)
    requires q.periods.Keys == q.db.jobs.Keys && Ended(q, j, p)
    ensures Ended(WithTx(q, tx), j, p)
  {
    JobsStay(q.db, tx, j);
  }

  lemma EntryStays(q: Q, tx: Tx, m: Message)
    requires q.periods.Keys == q.db.jobs.Keys && EntryOk(q, m)
    ensures EntryOk(WithTx(q, tx), m)
  {
    if m.job.Some? { JobsStay(q.db, tx, m.job.value); }
  }

  lemma PcStays(q: Q, tx: Tx, pc: Pc)
    requires q.periods.Keys == q.db.jobs.Keys && PcOk(q, pc)
    ensures PcOk(WithTx(q, tx), pc)
  {
    match pc
    case Choosing(x, j, w, e) => WorkersStay(q.db, tx, w);
    case Acking(x) =>
      if q.entries[x].job.Some? { EndedStays(q, tx, q.entries[x].job.value, q.entries[x].period); }
    case _ =>
  }

  /** Only an assignment makes a job live at a new worker, and only an epoch bump changes capabilities. */
  lemma CapableStays(q: Q, tx: Tx, j: JobId)
    requires Inv(q.db) && j in Apply(q.db, tx).jobs
    requires j in q.db.jobs ==> Capable(q.db, q.db.jobs[j])
    requires !ChangeOf(q.db, tx, j).Placed?
    ensures Capable(Apply(q.db, tx), Apply(q.db, tx).jobs[j])
  {
    if j in q.db.jobs {
      JobStep(q.db, tx, j);
      assert LinkOk(q.db, q.db.jobs[j]);
      if q.db.jobs[j].worker.Some? && q.db.jobs[j].worker.value in q.db.workers { WorkersStay(q.db, tx, q.db.jobs[j].worker.value); }
    } else {
      JobAppears(q.db, tx, j);
    }
  }

  lemma ReachableStays(q: Q, tx: Tx, j: JobId)
    requires q.periods.Keys == q.db.jobs.Keys && j in Apply(q.db, tx).jobs && (j in q.db.jobs ==> Reachable(q, j))
    ensures var t := WithTx(q, tx);
            Reachable(t, j) || (Opens(q.db, t.db, j) && (j, t.periods[j]) in NewPeriods(q.db, t))
  {
    var t := WithTx(q, tx);
    if !Opens(q.db, t.db, j) && IsQueued(t.db, j) {
      if HasEntry(q, j, q.periods[j]) { assert HasEntry(t, j, t.periods[j]); }
    }
  }

  lemma Carry(q: Q, tx: Tx)
    requires Core(q)
    ensures Core(WithTx(q, tx))
  {
    var t := WithTx(q, tx);
    InvStep(q.db, tx);
    forall x | x in t.entries ensures EntryOk(t, t.entries[x]) { EntryStays(q, tx, q.entries[x]); }
    forall l | l in t.loops ensures PcOk(t, t.loops[l]) { PcStays(q, tx, q.loops[l]); }
    forall x | x in t.acked ensures Spent(t, x) { assert Spent(q, x); PcStays(q, tx, Acking(x)); }
    forall jp | jp in t.owed ensures jp.0 in t.periods && jp.1 <= t.periods[jp.0] { JobsStay(q.db, tx, jp.0); }
  }

  lemma CarryCapable(q: Q, tx: Tx)
    requires Inv(q.db) && AllCapable(q.db)
    requires forall j | j in Apply(q.db, tx).jobs && ChangeOf(q.db, tx, j).Placed? :: Capable(Apply(q.db, tx), Apply(q.db, tx).jobs[j])
    ensures AllCapable(Apply(q.db, tx))
  {
    forall j | j in Apply(q.db, tx).jobs ensures Capable(Apply(q.db, tx), Apply(q.db, tx).jobs[j]) {
      if !ChangeOf(q.db, tx, j).Placed? { CapableStays(q, tx, j); }
    }
  }

  // ---- every act ----

  /** The periods a transaction opened are booked as owed or silent. */
  lemma Book(t: Q, n: Q, opening: set<(JobId, nat)>)
    requires Core(t) && n == t.(owed := n.owed, silent := n.silent)
    requires t.owed <= n.owed <= t.owed + opening && t.silent <= n.silent && opening <= n.owed + n.silent
    requires forall jp | jp in opening :: jp.0 in t.periods && jp.1 <= t.periods[jp.0]
    requires ReachableOr(t, opening)
    ensures Core(n) && AllReachable(n)
  {
    CarrySame(t, n);
    forall l | l in n.loops ensures PcOk(n, n.loops[l]) { assert PcOk(t, t.loops[l]); }
    forall j | j in n.db.jobs ensures Reachable(n, j) { ReachableGrows(t, n, j); }
  }

  predicate ReachableOr(t: Q, opening: set<(JobId, nat)>) {
    forall j | j in t.db.jobs :: Reachable(t, j) || (j in t.periods && (j, t.periods[j]) in opening)
  }

  lemma CarryReachable(q: Q, tx: Tx)
    requires Core(q) && AllReachable(q)
    ensures ReachableOr(WithTx(q, tx), NewPeriods(q.db, WithTx(q, tx)))
  {
    var t := WithTx(q, tx);
    forall j | j in t.db.jobs ensures Reachable(t, j) || (j, t.periods[j]) in NewPeriods(q.db, t) { ReachableStays(q, tx, j); }
  }

  lemma NothingPlaced(q: Q, tx: Tx)
    requires QInv(q) && !tx.Assign?
    ensures AllCapable(Apply(q.db, tx))
  {
    CarryCapable(q, tx);
  }

  /** A transaction that assigns nothing, with the periods it opens booked. */
  lemma QInvTx(q: Q, tx: Tx, n: Q)
    requires QInv(q) && !tx.Assign?
    requires var t := WithTx(q, tx);
             || n == t.(owed := q.owed + NewPeriods(q.db, t))
             || n == t.(silent := q.silent + NewPeriods(q.db, t))
    ensures QInv(n)
  {
    Carry(q, tx);
    NothingPlaced(q, tx);
    CarryReachable(q, tx);
    Book(WithTx(q, tx), n, NewPeriods(q.db, WithTx(q, tx)));
  }

  /** None of the per-entry and per-loop conditions looks at owed, silent or the other loops. */
  lemma CarrySame(t: Q, n: Q)
    requires n.db == t.db && n.periods == t.periods && n.acked == t.acked && n.entries == t.entries
    requires forall x | x in t.entries :: EntryOk(t, t.entries[x])
    requires forall l | l in t.loops :: PcOk(t, t.loops[l])
    requires forall x | x in t.acked :: Spent(t, x)
    ensures forall x | x in n.entries :: EntryOk(n, n.entries[x])
    ensures forall pc | PcOk(t, pc) :: PcOk(n, pc)
    ensures forall x | x in n.acked :: Spent(n, x)
  {
    forall pc | PcOk(t, pc) ensures PcOk(n, pc) { if pc.Acking? { assert Spent(t, pc.x); } }
    forall x | x in n.entries ensures EntryOk(n, n.entries[x]) { assert EntryOk(t, t.entries[x]); }
    forall x | x in n.acked ensures Spent(n, x) { assert Spent(t, x); }
  }

  lemma ReachableGrows(t: Q, n: Q, j: JobId)
    requires n.db == t.db && n.periods == t.periods && n.acked == t.acked && n.entries == t.entries
    requires t.owed <= n.owed && t.silent <= n.silent
    requires Reachable(t, j) || (j in t.periods && (j, t.periods[j]) in n.owed + n.silent)
    ensures Reachable(n, j)
  {
    if IsQueued(t.db, j) && j in t.periods && HasEntry(t, j, t.periods[j]) { assert HasEntry(n, j, n.periods[j]); }
  }

  lemma QInvEnqueue(q: Q, j: JobId, p: nat, x: EntryId, ok: bool)
    requires QInv(q)
    ensures QInv(AfterEnqueue(q, j, p, x, ok))
  {
    var n := AfterEnqueue(q, j, p, x, ok);
    if n != q {
      EntriesGrow(q, n);
      forall k | k in n.db.jobs ensures Reachable(n, k) {
        assert Reachable(q, k);
        if IsQueued(q.db, k) && HasEntry(q, k, q.periods[k]) {
          var y :| y in q.entries && y !in q.acked && q.entries[y].job == Some(k) && q.entries[y].period == q.periods[k];
          assert y in n.entries && n.entries[y] == q.entries[y];
        } else if ok && k == j && p == q.periods[k] {
          assert n.entries[x].job == Some(j) && x !in n.acked;
        }
      }
    }
  }

  /** New entries disturb nothing that was said about the old ones. */
  lemma EntriesGrow(q: Q, n: Q)
    requires n.db == q.db && n.periods == q.periods && n.acked == q.acked && n.loops == q.loops
    requires forall x | x in q.entries :: x in n.entries && n.entries[x] == q.entries[x]
    requires forall x | x in n.entries && x !in q.entries :: EntryOk(q, n.entries[x])
    requires forall x | x in q.entries :: EntryOk(q, q.entries[x])
    requires forall l | l in q.loops :: PcOk(q, q.loops[l])
    requires forall x | x in q.acked :: Spent(q, x)
    ensures forall x | x in n.entries :: EntryOk(n, n.entries[x])
    ensures forall l | l in n.loops :: PcOk(n, n.loops[l])
    ensures forall x | x in n.acked :: Spent(n, x)
    ensures forall x | x in q.acked :: x in q.entries
  {
    forall l | l in n.loops ensures PcOk(n, n.loops[l]) {
      assert PcOk(q, q.loops[l]);
      if q.loops[l].Acking? { assert Spent(q, q.loops[l].x); }
    }
    forall x | x in n.acked ensures Spent(n, x) { assert Spent(q, x); }
  }

  lemma QInvMalformed(q: Q, x: EntryId, raw: string)
    requires QInv(q) && x !in q.entries
    ensures QInv(q.(entries := q.entries[x := Message(None, raw, 0)]))
  {
    var n := q.(entries := q.entries[x := Message(None, raw, 0)]);
    EntriesGrow(q, n);
    forall k | k in n.db.jobs ensures Reachable(n, k) {
      assert Reachable(q, k);
      if IsQueued(q.db, k) && HasEntry(q, k, q.periods[k]) {
        var y :| y in q.entries && y !in q.acked && q.entries[y].job == Some(k) && q.entries[y].period == q.periods[k];
        assert y in n.entries && n.entries[y] == q.entries[y];
      }
    }
  }

  /** An act that moves one loop and touches nothing else. */
  lemma QInvLoop(q: Q, n: Q, l: LoopId)
    requires QInv(q) && n == q.(loops := n.loops)
    requires forall k | k in n.loops :: (k in q.loops && n.loops[k] == q.loops[k]) || (k == l && PcOk(q, n.loops[k]))
    ensures QInv(n)
  {
    CarrySame(q, n);
    forall k | k in n.loops ensures PcOk(n, n.loops[k]) { assert PcOk(q, n.loops[k]); }
    forall j | j in n.db.jobs ensures Reachable(n, j) { assert Reachable(q, j); ReachableGrows(q, n, j); }
  }

  /** What Get saw is enough: a job that is not QUEUED has every period opened so far behind it. */
  lemma GetIsRight(q: Q, l: LoopId, x: EntryId)
    requires QInv(q) && x in q.entries
    ensures PcOk(q, AfterGet(q, l, x))
  {
    assert EntryOk(q, q.entries[x]);
  }

  lemma QInvList(q: Q, l: LoopId, cs: seq<Candidate>, best: Option<nat>)
    requires QInv(q)
    ensures QInv(AfterList(q, l, cs, best))
  {
    var n := AfterList(q, l, cs, best);
    if n != q {
      assert PcOk(q, q.loops[l]);
      QInvLoop(q, n, l);
    }
  }

  /** The chosen worker, if it is still at the epoch it was listed under, has what the job row asks for. */
  lemma PlacedIsCapable(q: Q, x: EntryId, j: JobId, w: WorkerId, e: int)
    requires Core(q) && PcOk(q, Choosing(x, j, w, e)) && CanAssign(q.db, j, w, e)
    ensures var d := AfterAssign(q.db, j, w, e); Capable(d, d.jobs[j])
  {
    assert EntryOk(q, q.entries[x]);
    RoundTripIff(q.db.jobs[j].caps);
  }

  /** Once assigned, the job's current period is over, and no period opens. */
  lemma AssignEndsPeriod(q: Q, x: EntryId, j: JobId, w: WorkerId, e: int)
    requires Core(q) && PcOk(q, Choosing(x, j, w, e)) && CanAssign(q.db, j, w, e)
    ensures PcOk(WithTx(q, Assign(j, w, e)), Acking(x))
  {
    assert EntryOk(q, q.entries[x]);
  }

  lemma AssignKeepsReachable(q: Q, j: JobId, w: WorkerId, e: int, k: JobId)
    requires q.periods.Keys == q.db.jobs.Keys && k in q.db.jobs && Reachable(q, k)
    ensures Reachable(WithTx(q, Assign(j, w, e)), k)
  {
    ReachableStays(q, Assign(j, w, e), k);
  }

  lemma AssignKeepsCapable(q: Q, x: EntryId, j: JobId, w: WorkerId, e: int)
    requires Core(q) && AllCapable(q.db) && PcOk(q, Choosing(x, j, w, e))
    ensures AllCapable(Apply(q.db, Assign(j, w, e)))
  {
    if CanAssign(q.db, j, w, e) { PlacedIsCapable(q, x, j, w, e); }
    CarryCapable(q, Assign(j, w, e));
  }

  lemma AssignKeepsAllReachable(q: Q, j: JobId, w: WorkerId, e: int)
    requires q.periods.Keys == q.db.jobs.Keys && AllReachable(q)
    ensures AllReachable(WithTx(q, Assign(j, w, e)))
  {
    forall k | k in WithTx(q, Assign(j, w, e)).db.jobs ensures Reachable(WithTx(q, Assign(j, w, e)), k) {
      AssignKeepsReachable(q, j, w, e, k);
    }
  }

  lemma QInvAssign(q: Q, x: EntryId, j: JobId, w: WorkerId, e: int)
    requires QInv(q) && PcOk(q, Choosing(x, j, w, e))
    ensures QInv(WithTx(q, Assign(j, w, e)))
    ensures CanAssign(q.db, j, w, e) ==> PcOk(WithTx(q, Assign(j, w, e)), Acking(x))
  {
    Carry(q, Assign(j, w, e));
    AssignKeepsCapable(q, x, j, w, e);
    AssignKeepsAllReachable(q, j, w, e);
    if CanAssign(q.db, j, w, e) { AssignEndsPeriod(q, x, j, w, e); }
  }

  lemma LoopMoved(t: Q, l: LoopId, x: EntryId, won: bool)
    requires QInv(t) && (won ==> PcOk(t, Acking(x)))
    ensures QInv(LoopTo(t, l, x, won))
  {
    QInvLoop(t, LoopTo(t, l, x, won), l);
  }

  lemma QInvTry(q: Q, l: LoopId, pc: Pc)
    requires QInv(q) && pc.Choosing? && PcOk(q, pc)
    ensures QInv(AfterTry(q, l, pc))
  {
    QInvAssign(q, pc.x, pc.j, pc.w, pc.e);
    LoopMoved(WithTx(q, Assign(pc.j, pc.w, pc.e)), l, pc.x, CanAssign(q.db, pc.j, pc.w, pc.e));
  }

  lemma QInvAck(q: Q, l: LoopId, x: EntryId, ok: bool)
    requires QInv(q) && PcOk(q, Acking(x))
    ensures QInv(AfterAck(q, l, x, ok))
  {
    var n := AfterAck(q, l, x, ok);
    var m := q.(loops := n.loops);
    QInvLoop(q, m, l);
    forall k | k in n.loops ensures PcOk(n, n.loops[k]) {
      assert PcOk(m, m.loops[k]);
      if m.loops[k].Acking? { assert Spent(m, m.loops[k].x); }
    }
    forall y | y in n.acked ensures Spent(n, y) { assert Spent(q, y); }
    forall j | j in n.db.jobs ensures Reachable(n, j) {
      assert Reachable(m, j);
      if IsQueued(m.db, j) && HasEntry(m, j, m.periods[j]) {
        var y :| y in m.entries && y !in m.acked && m.entries[y].job == Some(j) && m.entries[y].period == m.periods[j];
        assert y != x;
        assert y in n.entries && y !in n.acked;
      }
    }
    forall y | y in n.entries ensures EntryOk(n, n.entries[y]) { assert EntryOk(m, m.entries[y]); }
  }

  lemma QInvNext(q: Q, a: Act)
    requires QInv(q)
    ensures QInv(Next(q, a))
  {
    match a
    case Sql(tx) => if !tx.Assign? && !tx.Create? && !tx.Requeue? { QInvTx(q, tx, Next(q, a)); }
    case Submit(j, priority, caps, maxRetries) => QInvTx(q, Create(j, priority, caps, maxRetries), Next(q, a));
    case MarkDue(j) => QInvTx(q, Requeue(j), Next(q, a));
    case Enqueue(j, p, x, ok) => QInvEnqueue(q, j, p, x, ok);
    case Malformed(x, raw) => if x !in q.entries { QInvMalformed(q, x, raw); }
    case Deliver(l, x) =>
      if x in q.entries { GetIsRight(q, l, x); }
      QInvLoop(q, Next(q, a), l);
    case List(l, cs, best) => QInvList(q, l, cs, best);
    case TryAssign(l) => if l in q.loops && q.loops[l].Choosing? { assert PcOk(q, q.loops[l]); QInvTry(q, l, q.loops[l]); }
    case Ack(l, ok) => if l in q.loops && q.loops[l].Acking? { assert PcOk(q, q.loops[l]); QInvAck(q, l, q.loops[l].x, ok); }
    case Stop(l) => QInvLoop(q, Next(q, a), l);
  }

  lemma {:induction false} QInvRun(acts: seq<Act>)
    ensures QInv(Run(acts))
  {
    if acts != [] {
      QInvRun(acts[..|acts| - 1]);
      QInvNext(Run(acts[..|acts| - 1]), acts[|acts| - 1]);
    }
  }

  // ---- what follows ----

  /** An entry is acknowledged only after the QUEUED period it was written for has ended. */
  lemma NoEarlyAck(acts: seq<Act>, x: EntryId)
    requires x in Run(acts).acked
    ensures var q := Run(acts);
            x in q.entries && (q.entries[x].job.Some? ==> Ended(q, q.entries[x].job.value, q.entries[x].period))
  {
    QInvRun(acts);
    assert Spent(Run(acts), x);
  }

  /**
   * A job QUEUED by submission or by the retry poller, whose enqueue has returned without error, has an
   * unacknowledged entry for this very period.
   */
  lemma QueuedJobHasEntry(acts: seq<Act>, j: JobId)
    requires IsQueued(Run(acts).db, j)
    ensures var q := Run(acts);
            && j in q.periods
            && ((j, q.periods[j]) !in q.owed && (j, q.periods[j]) !in q.silent ==>
                  exists x :: x in q.entries && x !in q.acked && q.entries[x].job == Some(j) && q.entries[x].period == q.periods[j])
  {
    QInvRun(acts);
    assert Reachable(Run(acts), j);
  }

  /**
   * Capability safety although candidates are read outside the assignment transaction and the requirements travel as a
   * comma-joined string: every live job held at its worker's current epoch is covered by that worker's capabilities.
   */
  lemma CapabilitySafety(acts: seq<Act>, j: JobId)
    requires var db := Run(acts).db;
             && j in db.jobs && Live(db.jobs[j].status) && Encodable(db.jobs[j].caps)
             && db.jobs[j].worker.Some? && db.jobs[j].epoch.Some?
             && AtEpoch(db, db.jobs[j].worker.value, db.jobs[j].epoch.value)
    ensures var db := Run(acts).db; Covers(db.workers[db.jobs[j].worker.value].caps, db.jobs[j].caps)
  {
    QInvRun(acts);
    assert Capable(Run(acts).db, Run(acts).db.jobs[j]);
  }
}
