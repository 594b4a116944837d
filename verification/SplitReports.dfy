/**
 * ReportJobResult taken apart: Get, the recording transaction and FreeWorker are separate steps, interleaved with
 * every other transaction, with any number of calls in flight, and a call may die at any point.
 */
module SplitReports {
  import opened Rows
  import opened Transactions
  import opened Invariants
  import opened Slots
  import opened Samples

  type CallId = nat

  datatype Call =
    | Read(j: JobId, e: int, reported: Option<JobStatus>, message: string, holder: Option<WorkerId>)
    | Owes(w: WorkerId, e: int)

  datatype State = State(db: Db, calls: map<CallId, Call>)

  const INIT: State := State(EMPTY, map[])

  datatype Move =
    | Other(tx: Tx)
    | Get(c: CallId, j: JobId, e: int, reported: Option<JobStatus>, message: string)
    | Record(c: CallId, now: Time)
    | GiveBack(c: CallId)
    | Drop(c: CallId)

  predicate Accepts(s: State, c: CallId) {
    c in s.calls && s.calls[c].Read? && CanReport(s.db, s.calls[c].j, s.calls[c].e)
  }

  /** The job row named another worker, or none, when Get read it. */
  predicate Misdirected(s: State, c: CallId)
    requires Accepts(s, c)
  {
    s.db.jobs[s.calls[c].j].worker != s.calls[c].holder
  }

  function Next(s: State, m: Move): State {
    match m
    case Other(tx) => if Standalone(tx) then s.(db := Apply(s.db, tx)) else s
    case Get(c, j, e, reported, message) =>
      if c in s.calls || j !in s.db.jobs then s
      else s.(calls := s.calls[c := Read(j, e, reported, message, s.db.jobs[j].worker)])
    case Record(c, now) =>
      if !Accepts(s, c) then if c in s.calls && s.calls[c].Read? then s.(calls := s.calls - {c}) else s
      else
        var call := s.calls[c];
        State(Apply(s.db, RecordTx(call.j, call.e, call.reported, call.holder, call.message, now)),
              if call.holder.Some? then s.calls[c := Owes(call.holder.value, call.e)] else s.calls - {c})
    case GiveBack(c) =>
      if c in s.calls && s.calls[c].Owes? then
        s.(db := AfterFree(s.db, s.calls[c].w, s.calls[c].e), calls := s.calls - {c})
      else s
    case Drop(c) => if c in s.calls then s.(calls := s.calls - {c}) else s
  }

  function Run(moves: seq<Move>): State {
    if moves == [] then INIT else Next(Run(moves[..|moves| - 1]), moves[|moves| - 1])
  }

  lemma RunSnoc(moves: seq<Move>, m: Move)
    ensures Run(moves + [m]) == Next(Run(moves), m)
  {
    assert (moves + [m])[..|moves|] == moves;
  }

  /** The transaction a move commits, if any. */
  function MoveTx(s: State, m: Move): Option<Tx> {
    match m
    case Other(tx) => if Standalone(tx) then Some(tx) else None
    case Record(c, now) =>
      if Accepts(s, c) then
        var call := s.calls[c];
        Some(RecordTx(call.j, call.e, call.reported, call.holder, call.message, now))
      else None
    case GiveBack(c) => if c in s.calls && s.calls[c].Owes? then Some(Free(s.calls[c].w, s.calls[c].e)) else None
    case _ => None
  }

  lemma MoveDb(s: State, m: Move)
    ensures Next(s, m).db == if MoveTx(s, m).Some? then Apply(s.db, MoveTx(s, m).value) else s.db
  {
  }

  /** The transactions of a run, in commit order. */
  function Commits(moves: seq<Move>): seq<Tx> {
    if moves == [] then []
    else
      var rest := moves[..|moves| - 1];
      var tx := MoveTx(Run(rest), moves[|moves| - 1]);
      Commits(rest) + if tx.Some? then [tx.value] else []
  }

  /** So whatever holds after every run of transactions holds here. */
  lemma {:induction false} RunCommits(moves: seq<Move>)
    ensures Run(moves).db == Transactions.Run(Commits(moves))
  {
    if moves != [] {
      var rest := moves[..|moves| - 1];
      RunCommits(rest);
      MoveDb(Run(rest), moves[|moves| - 1]);
      var tx := MoveTx(Run(rest), moves[|moves| - 1]);
      if tx.Some? {
        assert (Commits(rest) + [tx.value])[..|Commits(rest)|] == Commits(rest);
      } else {
        assert Commits(moves) == Commits(rest);
      }
    }
  }

  // ---- the atomic machine is a special case ----

  /** A report that nothing interrupts. */
  function Moves(step: Step): seq<Move> {
    match step
    case Sql(tx) => [Other(tx)]
    case Report(j, e, reported, message, now) => [Get(0, j, e, reported, message)] + [Record(0, now)] + [GiveBack(0)]
  }

  function Expand(steps: seq<Step>): seq<Move> {
    if steps == [] then [] else Expand(steps[..|steps| - 1]) + Moves(steps[|steps| - 1])
  }

  lemma UninterruptedReport(s: State, j: JobId, e: int, reported: Option<JobStatus>, message: string, now: Time)
    requires s.calls == map[]
    ensures Next(Next(Next(s, Get(0, j, e, reported, message)), Record(0, now)), GiveBack(0))
         == State(AfterReport(s.db, j, e, reported, message, now), map[])
  {
    var s1 := Next(s, Get(0, j, e, reported, message));
    var s2 := Next(s1, Record(0, now));
    if j in s.db.jobs {
      assert s1.calls == map[0 := Read(j, e, reported, message, s.db.jobs[j].worker)];
      if CanReport(s.db, j, e) {
        assert s2.db == Apply(s.db, RecordTx(j, e, reported, s.db.jobs[j].worker, message, now));
        assert s.db.jobs[j].worker.Some? ==> s2.calls == map[0 := Owes(s.db.jobs[j].worker.value, e)];
      } else {
        ReportRefused(s.db, j, e, reported, message, now);
      }
    }
  }

  lemma AtomicStep(before: seq<Move>, step: Step, db: Db)
    requires Run(before) == State(db, map[]) && Legal(step)
    ensures Run(before + Moves(step)) == State(Do(db, step), map[])
  {
    match step
    case Sql(tx) => RunSnoc(before, Other(tx));
    case Report(j, e, reported, message, now) =>
      var t1 := before + [Get(0, j, e, reported, message)];
      var t2 := t1 + [Record(0, now)];
      RunSnoc(before, Get(0, j, e, reported, message));
      RunSnoc(t1, Record(0, now));
      RunSnoc(t2, GiveBack(0));
      UninterruptedReport(Run(before), j, e, reported, message, now);
      assert before + Moves(step) == t2 + [GiveBack(0)];
  }

  /** Every handler-atomic run is one of the runs below, so what holds of these holds of it. */
  lemma {:induction false} AtomicRunsAreSplitRuns(steps: seq<Step>)
    requires forall step | step in steps :: Legal(step)
    ensures Run(Expand(steps)) == State(RunFrom(EMPTY, steps), map[])
  {
    if steps != [] {
      var rest, step := steps[..|steps| - 1], steps[|steps| - 1];
      AtomicRunsAreSplitRuns(rest);
      assert step in steps;
      AtomicStep(Expand(rest), step, RunFrom(EMPTY, rest));
    }
  }

  /** The calls that still have to free worker w at epoch e. */
  function Owing(calls: map<CallId, Call>, w: WorkerId, e: int): set<CallId> {
    set c | c in calls && calls[c] == Owes(w, e)
  }

  /** Free slots, held jobs and frees in flight, all at the current epoch. */
  function Credit(s: State, w: WorkerId): int
    requires w in s.db.workers
  {
    Load(s.db, w) + |Owing(s.calls, w, s.db.workers[w].epoch)|
  }

  /** They cover the capacity of every worker. */
  predicate Covered(s: State) { forall w | w in s.db.workers :: Credit(s, w) >= s.db.workers[w].slots }

  predicate Tight(s: State) {
    forall w | w in s.db.workers :: Credit(s, w) == s.db.workers[w].slots
  }

  // ---- how the frees in flight change ----

  lemma OwingUpdate(calls: map<CallId, Call>, c: CallId, call: Call, w: WorkerId, e: int)
    ensures |Owing(calls[c := call], w, e)| ==
      |Owing(calls, w, e)| - (if c in calls && calls[c] == Owes(w, e) then 1 else 0) + (if call == Owes(w, e) then 1 else 0)
  {
    var a, b := Owing(calls, w, e), Owing(calls[c := call], w, e);
    assert a - {c} == b - {c};
    assert |a| == |a - {c}| + (if c in a then 1 else 0);
    assert |b| == |b - {c}| + (if c in b then 1 else 0);
  }

  lemma OwingRemove(calls: map<CallId, Call>, c: CallId, w: WorkerId, e: int)
    requires c in calls
    ensures |Owing(calls - {c}, w, e)| == |Owing(calls, w, e)| - (if calls[c] == Owes(w, e) then 1 else 0)
  {
    var a, b := Owing(calls, w, e), Owing(calls - {c}, w, e);
    assert b == a - {c};
  }

  // ---- how the credit changes, move by move ----

  predicate ResetBy(s: State, m: Move, w: WorkerId) { m.Other? && Standalone(m.tx) && Resets(s.db, m.tx, w) }

  function Bit(b: bool): int { if b then 1 else 0 }

  /** An accepted record moves the job's slot from the actual holder to the worker the call read. */
  lemma CreditAfterRecord(s: State, c: CallId, now: Time, w: WorkerId)
    requires Inv(s.db) && Accepts(s, c) && w in s.db.workers
    ensures var t, call := Next(s, Record(c, now)), s.calls[c];
            && t.db.workers == s.db.workers
            && Credit(t, w) == Credit(s, w)
                 - Bit(s.db.jobs[call.j].worker == Some(w) && AtEpoch(s.db, w, call.e))
                 + Bit(call.holder == Some(w) && AtEpoch(s.db, w, call.e))
  {
    var call := s.calls[c];
    var e := s.db.workers[w].epoch;
    Recorded(s.db, call.j, call.e, call.reported, call.holder, call.message, now);
    var d := Apply(s.db, RecordTx(call.j, call.e, call.reported, call.holder, call.message, now));
    HeldUpdate(s.db.jobs, call.j, d.jobs[call.j], w, e);
    if call.holder.Some? {
      OwingUpdate(s.calls, c, Owes(call.holder.value, call.e), w, e);
    } else {
      OwingRemove(s.calls, c, w, e);
    }
  }

  lemma CreditAfterGiveBack(s: State, c: CallId, w: WorkerId)
    requires c in s.calls && s.calls[c].Owes? && w in s.db.workers && WorkerOk(s.db.workers[w])
    ensures var t, row := Next(s, GiveBack(c)), s.db.workers[w];
            && w in t.db.workers && t.db.workers[w].epoch == row.epoch && t.db.workers[w].slots == row.slots
            && Credit(t, w) == Credit(s, w) - Bit(s.calls[c] == Owes(w, row.epoch) && row.avail == row.slots)
            && (s.calls[c] == Owes(w, row.epoch) ==> Credit(s, w) > row.avail)
            && (s.calls[c] == Owes(w, row.epoch) && row.avail == row.slots ==> Credit(t, w) >= row.slots)
  {
    var e := s.db.workers[w].epoch;
    OwingRemove(s.calls, c, w, e);
    if s.calls[c] == Owes(w, e) { assert c in Owing(s.calls, w, e); }
  }

  lemma CreditAfterDrop(s: State, c: CallId, w: WorkerId)
    requires c in s.calls && w in s.db.workers
    ensures Credit(Next(s, Drop(c)), w) == Credit(s, w) - Bit(s.calls[c] == Owes(w, s.db.workers[w].epoch))
  {
    OwingRemove(s.calls, c, w, s.db.workers[w].epoch);
  }

  lemma CreditAfterOther(s: State, tx: Tx, w: WorkerId)
    requires Inv(s.db) && Standalone(tx) && w in Apply(s.db, tx).workers
    ensures var t := Next(s, Other(tx));
            if Resets(s.db, tx, w) then Credit(t, w) == t.db.workers[w].slots + |Owing(s.calls, w, t.db.workers[w].epoch)|
            else w in s.db.workers && Credit(t, w) == Credit(s, w)
                 && t.db.workers[w].slots == s.db.workers[w].slots && t.db.workers[w].epoch == s.db.workers[w].epoch
  {
    if Resets(s.db, tx, w) { LoadAfterReset(s.db, tx, w); } else { LoadOtherwise(s.db, tx, w); }
  }

  lemma CreditAfterGet(s: State, m: Move, w: WorkerId)
    requires m.Get? && w in s.db.workers
    ensures Credit(Next(s, m), w) == Credit(s, w)
  {
    if m.c !in s.calls && m.j in s.db.jobs {
      OwingUpdate(s.calls, m.c, Read(m.j, m.e, m.reported, m.message, s.db.jobs[m.j].worker), w, s.db.workers[w].epoch);
    }
  }

  lemma CreditAfterRefusal(s: State, c: CallId, now: Time, w: WorkerId)
    requires !Accepts(s, c) && w in s.db.workers
    ensures Credit(Next(s, Record(c, now)), w) == Credit(s, w)
  {
    if c in s.calls && s.calls[c].Read? { OwingRemove(s.calls, c, w, s.db.workers[w].epoch); }
  }

  // ---- no slot leaks ----

  lemma InvNext(s: State, m: Move)
    requires Inv(s.db)
    ensures Inv(Next(s, m).db)
  {
    MoveDb(s, m);
    if MoveTx(s, m).Some? { InvStep(s.db, MoveTx(s, m).value); }
  }

  lemma {:induction false} InvRun(moves: seq<Move>)
    ensures Inv(Run(moves).db)
  {
    if moves != [] {
      InvRun(moves[..|moves| - 1]);
      InvNext(Run(moves[..|moves| - 1]), moves[|moves| - 1]);
    }
  }

  /**
   * The two ways a slot of w at its current epoch gets out of reach: a result recorded for w's job will free a worker
   * that Get read earlier, or a call dies before its free.
   */
  predicate LosesAt(s: State, m: Move, w: WorkerId) {
    match m
    case Record(c, _) =>
      Accepts(s, c) && Misdirected(s, c) && s.db.jobs[s.calls[c].j].worker == Some(w) && AtEpoch(s.db, w, s.calls[c].e)
    case Drop(c) => c in s.calls && s.calls[c].Owes? && s.calls[c].w == w && AtEpoch(s.db, w, s.calls[c].e)
    case _ => false
  }

  /** A worker whose slots are not being reset keeps its credit but for such a loss, or keeps all it needs. */
  predicate CreditKept(s: State, m: Move, w: WorkerId)
    requires w in Next(s, m).db.workers
  {
    var t := Next(s, m);
    && w in s.db.workers && t.db.workers[w].slots == s.db.workers[w].slots
    && if LosesAt(s, m, w) then Credit(t, w) == Credit(s, w) - 1
       else Credit(t, w) >= Credit(s, w) || Credit(t, w) >= t.db.workers[w].slots
  }

  lemma RecordKeepsCredit(s: State, c: CallId, now: Time, w: WorkerId)
    requires Inv(s.db) && w in Next(s, Record(c, now)).db.workers
    ensures CreditKept(s, Record(c, now), w)
  {
    MoveDb(s, Record(c, now));
    if Accepts(s, c) {
      var call := s.calls[c];
      Recorded(s.db, call.j, call.e, call.reported, call.holder, call.message, now);
      CreditAfterRecord(s, c, now, w);
    } else {
      CreditAfterRefusal(s, c, now, w);
    }
  }

  lemma CreditStep(s: State, m: Move, w: WorkerId)
    requires Inv(s.db) && w in Next(s, m).db.workers
    ensures if ResetBy(s, m, w) then Credit(Next(s, m), w) >= Next(s, m).db.workers[w].slots else CreditKept(s, m, w)
  {
    match m
    case Other(tx) => if Standalone(tx) { CreditAfterOther(s, tx, w); }
    case Get(_, _, _, _, _) => CreditAfterGet(s, m, w);
    case Record(c, now) => RecordKeepsCredit(s, c, now, w);
    case GiveBack(c) => if c in s.calls && s.calls[c].Owes? { assert WorkerOk(s.db.workers[w]); CreditAfterGiveBack(s, c, w); }
    case Drop(c) => if c in s.calls { CreditAfterDrop(s, c, w); }
  }

  /** The slots of w lost at its current epoch and not restored since by its death or registration. */
  function Outstanding(moves: seq<Move>, w: WorkerId): nat {
    if moves == [] then 0
    else
      var rest, m := moves[..|moves| - 1], moves[|moves| - 1];
      if ResetBy(Run(rest), m, w) then 0 else Outstanding(rest, w) + Bit(LosesAt(Run(rest), m, w))
  }

  /**
   * In every interleaving, free slots + live jobs + frees in flight + outstanding losses cover the capacity, and the free
   * slots never exceed it.
   */
  lemma {:induction false} NoSlotLeaks(moves: seq<Move>, w: WorkerId)
    requires w in Run(moves).db.workers
    ensures Credit(Run(moves), w) + Outstanding(moves, w) >= Run(moves).db.workers[w].slots
    ensures Run(moves).db.workers[w].avail <= Run(moves).db.workers[w].slots
  {
    InvRun(moves);
    assert WorkerOk(Run(moves).db.workers[w]);
    var rest, m := moves[..|moves| - 1], moves[|moves| - 1];
    InvRun(rest);
    CreditStep(Run(rest), m, w);
    if !ResetBy(Run(rest), m, w) { NoSlotLeaks(rest, w); }
  }

  /** A worker without live jobs and frees in flight is back at full capacity, unless a loss of its own is outstanding. */
  lemma IdleMeansFull(moves: seq<Move>, w: WorkerId)
    requires w in Run(moves).db.workers && Outstanding(moves, w) == 0
    requires var s := Run(moves);
             var e := s.db.workers[w].epoch;
             Held(s.db.jobs, w, e) == {} && Owing(s.calls, w, e) == {}
    ensures Run(moves).db.workers[w].avail == Run(moves).db.workers[w].slots
  {
    NoSlotLeaks(moves, w);
  }

  /** A loss at a worker that has no credit to spare. */
  predicate Leaks(s: State, m: Move) {
    exists w | w in s.db.workers :: LosesAt(s, m, w) && Credit(s, w) == s.db.workers[w].slots
  }

  /** From a covered state a move uncovers some worker if and only if it is such a loss. */
  lemma LeakIff(s: State, m: Move)
    requires Inv(s.db) && Covered(s)
    ensures Covered(Next(s, m)) <==> !Leaks(s, m)
  {
    var t := Next(s, m);
    forall w | w in t.db.workers
      ensures Credit(t, w) < t.db.workers[w].slots <==>
        w in s.db.workers && LosesAt(s, m, w) && Credit(s, w) == s.db.workers[w].slots
    {
      CreditStep(s, m, w);
    }
    if Leaks(s, m) {
      var w :| w in s.db.workers && LosesAt(s, m, w) && Credit(s, w) == s.db.workers[w].slots;
      MoveDb(s, m);
      if MoveTx(s, m).Some? { WorkersStay(s.db, MoveTx(s, m).value, w); }
      assert w in t.db.workers;
    }
  }

  // ---- exactly when conservation is exact ----

  /**
   * The moves that upset the balance: a death or registration that refills a worker while a free for its epoch is
   * in flight, a record that charges and credits different workers at their current epochs, a call lost before
   * its free.
   */
  predicate Upsets(s: State, m: Move) {
    match m
    case Other(tx) =>
      Standalone(tx) && exists w | w in Apply(s.db, tx).workers ::
        Resets(s.db, tx, w) && Owing(s.calls, w, Apply(s.db, tx).workers[w].epoch) != {}
    case Record(c, _) =>
      Accepts(s, c) && Misdirected(s, c) && Touches(s, c)
    case Drop(c) => c in s.calls && s.calls[c].Owes? && AtEpoch(s.db, s.calls[c].w, s.calls[c].e)
    case _ => false
  }

  /** The record's epoch is current for the worker it charges or for the one it credits. */
  predicate Touches(s: State, c: CallId)
    requires Accepts(s, c)
  {
    var call := s.calls[c];
    var actual := s.db.jobs[call.j].worker;
    || (actual.Some? && AtEpoch(s.db, actual.value, call.e))
    || (call.holder.Some? && AtEpoch(s.db, call.holder.value, call.e))
  }

  lemma TightOther(s: State, tx: Tx)
    requires Inv(s.db) && Tight(s) && Standalone(tx)
    ensures Tight(Next(s, Other(tx))) <==> !Upsets(s, Other(tx))
  {
    var t := Next(s, Other(tx));
    forall w | w in t.db.workers
      ensures Credit(t, w) == t.db.workers[w].slots <==>
        !(Resets(s.db, tx, w) && Owing(s.calls, w, t.db.workers[w].epoch) != {})
    {
      CreditAfterOther(s, tx, w);
    }
  }

  /** For worker w the record takes as much as it will give back. */
  predicate Even(s: State, c: CallId, w: WorkerId)
    requires Accepts(s, c)
  {
    var call := s.calls[c];
    (s.db.jobs[call.j].worker == Some(w) && AtEpoch(s.db, w, call.e)) <==> (call.holder == Some(w) && AtEpoch(s.db, w, call.e))
  }

  lemma EvenForAllIff(s: State, c: CallId)
    requires Accepts(s, c)
    ensures (forall w | w in s.db.workers :: Even(s, c, w)) <==> !(Misdirected(s, c) && Touches(s, c))
  {
    var call := s.calls[c];
    var actual := s.db.jobs[call.j].worker;
    if Misdirected(s, c) && Touches(s, c) {
      var w := if actual.Some? && AtEpoch(s.db, actual.value, call.e) then actual.value else call.holder.value;
      assert !Even(s, c, w);
    }
  }

  lemma TightRecord(s: State, c: CallId, now: Time)
    requires Inv(s.db) && Tight(s) && Accepts(s, c)
    ensures Tight(Next(s, Record(c, now))) <==> !Upsets(s, Record(c, now))
  {
    var t := Next(s, Record(c, now));
    EvenForAllIff(s, c);
    assert t.db.workers == s.db.workers by {
      var call := s.calls[c];
      Recorded(s.db, call.j, call.e, call.reported, call.holder, call.message, now);
    }
    forall w | w in s.db.workers
      ensures Credit(t, w) == t.db.workers[w].slots <==> Even(s, c, w)
    {
      CreditAfterRecord(s, c, now, w);
      assert Credit(s, w) == s.db.workers[w].slots;
    }
  }

  lemma TightGiveBack(s: State, c: CallId)
    requires Inv(s.db) && Tight(s)
    ensures Tight(Next(s, GiveBack(c)))
  {
    if c in s.calls && s.calls[c].Owes? {
      forall w | w in s.db.workers
        ensures var t := Next(s, GiveBack(c)); w in t.db.workers && Credit(t, w) == t.db.workers[w].slots
      {
        assert WorkerOk(s.db.workers[w]);
        assert Credit(s, w) == s.db.workers[w].slots;
        CreditAfterGiveBack(s, c, w);
      }
    }
  }

  lemma TightDrop(s: State, c: CallId)
    requires Tight(s)
    ensures Tight(Next(s, Drop(c))) <==> !Upsets(s, Drop(c))
  {
    if c in s.calls {
      var t := Next(s, Drop(c));
      forall w | w in s.db.workers
        ensures Credit(t, w) == t.db.workers[w].slots <==> s.calls[c] != Owes(w, s.db.workers[w].epoch)
      {
        CreditAfterDrop(s, c, w);
        assert Credit(s, w) == s.db.workers[w].slots;
      }
      if Upsets(s, Drop(c)) { assert s.calls[c].w in t.db.workers; }
    }
  }

  /** From a balanced state a move leaves the balance exact if and only if it is not one of those. */
  lemma BalanceKeptIff(s: State, m: Move)
    requires Inv(s.db) && Tight(s)
    ensures Tight(Next(s, m)) <==> !Upsets(s, m)
  {
    match m
    case Other(tx) => if Standalone(tx) { TightOther(s, tx); }
    case Get(_, _, _, _, _) =>
      forall w | w in s.db.workers ensures Credit(Next(s, m), w) == Credit(s, w) { CreditAfterGet(s, m, w); }
    case Record(c, now) =>
      if Accepts(s, c) {
        TightRecord(s, c, now);
      } else {
        forall w | w in s.db.workers ensures Credit(Next(s, m), w) == Credit(s, w) { CreditAfterRefusal(s, c, now, w); }
      }
    case GiveBack(c) => TightGiveBack(s, c);
    case Drop(c) => TightDrop(s, c);
  }

  predicate NeverUpsets(moves: seq<Move>) {
    moves == [] || (NeverUpsets(moves[..|moves| - 1]) && !Upsets(Run(moves[..|moves| - 1]), moves[|moves| - 1]))
  }

  /** So free slots + live jobs + frees in flight equal the capacity throughout any run without such a move. */
  lemma {:induction false} ExactlyConserved(moves: seq<Move>)
    requires NeverUpsets(moves)
    ensures Tight(Run(moves))
  {
    if moves != [] {
      var rest := moves[..|moves| - 1];
      ExactlyConserved(rest);
      InvRun(rest);
      BalanceKeptIff(Run(rest), moves[|moves| - 1]);
    }
  }

  // ---- what the interleaving can break, and when ----

  /** A move takes some worker over its slots exactly if it is an assignment to a worker whose slots are all taken. */
  lemma OvercommitsIff(s: State, m: Move)
    requires Inv(s.db) && Fits(s.db)
    ensures Fits(Next(s, m).db) <==> !(MoveTx(s, m).Some? && Overfills(s.db, MoveTx(s, m).value))
  {
    MoveDb(s, m);
    if MoveTx(s, m).Some? { FitsIff(s.db, MoveTx(s, m).value); }
  }

  /** As long as the balance is exact that cannot happen. */
  lemma BalancedRunsFit(moves: seq<Move>)
    requires NeverUpsets(moves)
    ensures Fits(Run(moves).db)
  {
    ExactlyConserved(moves);
    InvRun(moves);
    var s := Run(moves);
    forall w | w in s.db.workers
      ensures |Held(s.db.jobs, w, s.db.workers[w].epoch)| <= s.db.workers[w].slots
    {
      assert WorkerOk(s.db.workers[w]) && Credit(s, w) == s.db.workers[w].slots;
    }
  }

  predicate RefillsBusyAt(s: State, m: Move) { MoveTx(s, m).Some? && RefillsBusy(s.db, MoveTx(s, m).value) }

  predicate NeverRefillsBusy(moves: seq<Move>) {
    moves == [] || (NeverRefillsBusy(moves[..|moves| - 1]) && !RefillsBusyAt(Run(moves[..|moves| - 1]), moves[|moves| - 1]))
  }

  /** A move leaves some worker full and busy exactly if it is a free that completes the capacity of a worker holding a job. */
  lemma FullMeansIdleIff(s: State, m: Move)
    requires Inv(s.db) && FullIsIdle(s.db)
    ensures FullIsIdle(Next(s, m).db) <==> !RefillsBusyAt(s, m)
  {
    MoveDb(s, m);
    if MoveTx(s, m).Some? { FullIsIdleIff(s.db, MoveTx(s, m).value); }
  }

  lemma {:induction false} FullMeansIdle(moves: seq<Move>)
    requires NeverRefillsBusy(moves)
    ensures FullIsIdle(Run(moves).db)
  {
    if moves != [] {
      var rest := moves[..|moves| - 1];
      FullMeansIdle(rest);
      InvRun(rest);
      FullMeansIdleIff(Run(rest), moves[|moves| - 1]);
    }
  }

  /** Scale-down picks an idle worker in every run without such a free, whatever statuses heartbeats wrote. */
  lemma PickIsIdle(moves: seq<Move>, w: WorkerId)
    requires NeverRefillsBusy(moves) && IsPick(Run(moves).db, Some(w))
    ensures var db := Run(moves).db; Held(db.jobs, w, db.workers[w].epoch) == {}
  {
    FullMeansIdle(moves);
  }

  /** With the balance exact, a free in flight for a busy worker is not its last one missing. */
  lemma TightFreeFits(s: State, c: CallId)
    requires Tight(s) && c in s.calls && s.calls[c].Owes?
    ensures var w, e := s.calls[c].w, s.calls[c].e;
            AtEpoch(s.db, w, e) ==> s.db.workers[w].avail + 1 + |Held(s.db.jobs, w, e)| <= s.db.workers[w].slots
  {
    var w, e := s.calls[c].w, s.calls[c].e;
    if AtEpoch(s.db, w, e) {
      assert c in Owing(s.calls, w, e);
      assert Credit(s, w) == s.db.workers[w].slots;
    }
  }

  lemma TightNeverRefills(s: State, m: Move)
    requires Inv(s.db) && Tight(s)
    ensures !RefillsBusyAt(s, m)
  {
    if m.GiveBack? && m.c in s.calls && s.calls[m.c].Owes? { TightFreeFits(s, m.c); }
  }

  /** A balanced run has no such free. */
  lemma {:induction false} BalancedNeverRefills(moves: seq<Move>)
    requires NeverUpsets(moves)
    ensures NeverRefillsBusy(moves)
  {
    if moves != [] {
      var rest := moves[..|moves| - 1];
      BalancedNeverRefills(rest);
      ExactlyConserved(rest);
      InvRun(rest);
      TightNeverRefills(Run(rest), moves[|moves| - 1]);
    }
  }

  /** A DEAD row comes back exactly by its instance's registration, a heartbeat flush, or a late free at its epoch. */
  lemma MoveRevivesIff(s: State, m: Move, w: WorkerId)
    requires Inv(s.db) && w in s.db.workers && s.db.workers[w].status.Dead?
    ensures w in Next(s, m).db.workers
    ensures !Next(s, m).db.workers[w].status.Dead? <==> MoveTx(s, m).Some? && Revives(s.db, MoveTx(s, m).value, w)
  {
    MoveDb(s, m);
    if MoveTx(s, m).Some? { RevivesIff(s.db, MoveTx(s, m).value, w); }
  }

  predicate AgentMove(m: Move) { m.Other? ==> FromAgent(Sql(m.tx)) }

  lemma HoldersNext(s: State, m: Move)
    requires HoldersReapable(s.db) && AgentMove(m)
    ensures HoldersReapable(Next(s, m).db)
  {
    MoveDb(s, m);
    if MoveTx(s, m).Some? { HoldersTx(s.db, MoveTx(s, m).value); }
  }

  /** A DEAD worker holds no live job, in every interleaving too. */
  lemma {:induction false} DeadHoldsNothingSplit(moves: seq<Move>)
    requires forall m | m in moves :: AgentMove(m)
    ensures HoldersReapable(Run(moves).db)
  {
    if moves != [] {
      DeadHoldsNothingSplit(moves[..|moves| - 1]);
      assert moves[|moves| - 1] in moves;
      HoldersNext(Run(moves[..|moves| - 1]), moves[|moves| - 1]);
    }
  }

  // ---- runs that show it ----

  function TheDb(w: Worker, seven: Job, eight: Job, nine: Job): Db {
    Db(map[1 := w], map["a" := 1], map[7 := seven, 8 := eight, 9 := nine], map[])
  }

  function Waiting(): Job { Task(Queued, None) }

  function Live1(): Job { Task(Assigned, Some(1)) }

  function Done1(): Job { Live1().(status := Success, finishedAt := Some(0)) }

  /** One worker with one slot, three jobs, the first of them assigned. */
  function Setup(): seq<Move> {
    [Other(Register("a", 1, [], 1, 0))] + [Other(Create(7, 5, [], 3))] + [Other(Create(8, 5, [], 3))] + [Other(Create(9, 5, [], 3))]
    + [Other(Assign(7, 1, 1))]
  }

  /** The job's result is recorded; its slot is still to be given back. */
  function Reported7(): seq<Move> { Setup() + [Get(0, 7, 1, Some(Success), "")] + [Record(0, 0)] }

  /** The worker is marked dead before that. */
  function Died(): seq<Move> { Reported7() + [Other(MarkDead(1, 1))] }

  /** A late heartbeat flush brings it back, it is assigned the second job, and only now comes the free. */
  function LateFree(): seq<Move> { Died() + [Other(Flush(1, 1, Ready, None, 0))] + [Other(Assign(8, 1, 1))] + [GiveBack(0)] }

  lemma ThreeJobs()
    ensures Run([Other(Register("a", 1, [], 1, 0))] + [Other(Create(7, 5, [], 3))] + [Other(Create(8, 5, [], 3))] + [Other(Create(9, 5, [], 3))])
         == State(TheDb(OneSlot("a", Ready, 1, None), Waiting(), Waiting(), Waiting()), map[])
  {
    var t1: seq<Move> := [Other(Register("a", 1, [], 1, 0))];
    RunSnoc([], t1[0]);
    assert [] + t1 == t1;
    assert Run(t1).db == Db(map[1 := OneSlot("a", Ready, 1, None)], map["a" := 1], map[], map[]);
    RunSnoc(t1, Other(Create(7, 5, [], 3)));
    RunSnoc(t1 + [Other(Create(7, 5, [], 3))], Other(Create(8, 5, [], 3)));
    RunSnoc(t1 + [Other(Create(7, 5, [], 3))] + [Other(Create(8, 5, [], 3))], Other(Create(9, 5, [], 3)));
  }

  lemma SetupState()
    ensures Run(Setup()) == State(TheDb(OneSlot("a", Busy, 0, Some(7)), Live1(), Waiting(), Waiting()), map[])
  {
    ThreeJobs();
    RunSnoc([Other(Register("a", 1, [], 1, 0))] + [Other(Create(7, 5, [], 3))] + [Other(Create(8, 5, [], 3))] + [Other(Create(9, 5, [], 3))],
            Other(Assign(7, 1, 1)));
  }

  lemma Reported7State()
    ensures Run(Reported7()) == State(TheDb(OneSlot("a", Busy, 0, Some(7)), Done1(), Waiting(), Waiting()), map[0 := Owes(1, 1)])
  {
    SetupState();
    RunSnoc(Setup(), Get(0, 7, 1, Some(Success), ""));
    assert Run(Setup() + [Get(0, 7, 1, Some(Success), "")])
        == State(TheDb(OneSlot("a", Busy, 0, Some(7)), Live1(), Waiting(), Waiting()), map[0 := Read(7, 1, Some(Success), "", Some(1))]);
    RunSnoc(Setup() + [Get(0, 7, 1, Some(Success), "")], Record(0, 0));
  }

  lemma DiedState()
    ensures Run(Died()) == State(TheDb(OneSlot("a", Dead, 1, Some(7)), Done1(), Waiting(), Waiting()), map[0 := Owes(1, 1)])
  {
    Reported7State();
    RunSnoc(Reported7(), Other(MarkDead(1, 1)));
    NobodyLeft(Run(Reported7()).db);
  }

  lemma NobodyLeft(db: Db)
    requires db == TheDb(OneSlot("a", Busy, 0, Some(7)), Done1(), Waiting(), Waiting())
    ensures AfterDeath(db, 1, 1) == TheDb(OneSlot("a", Dead, 1, Some(7)), Done1(), Waiting(), Waiting())
  {
    assert Holding(db.jobs, 1) == {};
  }

  lemma FlushedState(t: seq<Move>)
    requires Run(t) == State(TheDb(OneSlot("a", Dead, 1, Some(7)), Done1(), Waiting(), Waiting()), map[0 := Owes(1, 1)])
    ensures Run(t + [Other(Flush(1, 1, Ready, None, 0))])
         == State(TheDb(OneSlot("a", Ready, 1, None), Done1(), Waiting(), Waiting()), map[0 := Owes(1, 1)])
  {
    RunSnoc(t, Other(Flush(1, 1, Ready, None, 0)));
  }

  lemma Assigned8State(t: seq<Move>)
    requires Run(t) == State(TheDb(OneSlot("a", Ready, 1, None), Done1(), Waiting(), Waiting()), map[0 := Owes(1, 1)])
    ensures Run(t + [Other(Assign(8, 1, 1))])
         == State(TheDb(OneSlot("a", Busy, 0, Some(8)), Done1(), Live1(), Waiting()), map[0 := Owes(1, 1)])
  {
    RunSnoc(t, Other(Assign(8, 1, 1)));
  }

  lemma LateFreeState()
    ensures Run(LateFree()) == State(TheDb(OneSlot("a", Ready, 1, None), Done1(), Live1(), Waiting()), map[])
  {
    DiedState();
    FlushedState(Died());
    var t := Died() + [Other(Flush(1, 1, Ready, None, 0))];
    Assigned8State(t);
    RunSnoc(t + [Other(Assign(8, 1, 1))], GiveBack(0));
  }

  /** The free opens a slot beside the running job, and the next assignment fills it: two live jobs on one slot. */
  lemma LateFreeOvercommits()
    ensures var s := Run(LateFree() + [Other(Assign(9, 1, 1))]);
            1 in s.db.workers && s.db.workers[1].epoch == 1 && s.db.workers[1].slots == 1 && |Held(s.db.jobs, 1, 1)| == 2
  {
    LateFreeState();
    RunSnoc(LateFree(), Other(Assign(9, 1, 1)));
    var s := Run(LateFree() + [Other(Assign(9, 1, 1))]);
    assert s.db == TheDb(OneSlot("a", Busy, 0, Some(9)), Done1(), Live1(), Live1());
    assert Held(s.db.jobs, 1, 1) == {8, 9};
  }

  /** Just before that, scale-down would pick the worker although it holds a live job. */
  lemma BusyPicked()
    ensures IsPick(Run(LateFree()).db, Some(1)) && 8 in Held(Run(LateFree()).db.jobs, 1, 1)
  {
    LateFreeState();
  }

  /** FreeWorker has no status guard: the free alone turns the DEAD row READY. */
  lemma LateFreeRevives()
    ensures 1 in Run(Died()).db.workers && Run(Died()).db.workers[1].status.Dead?
    ensures var db := Run(Died() + [GiveBack(0)]).db; 1 in db.workers && db.workers[1] == OneSlot("a", Ready, 1, None)
  {
    DiedState();
    RunSnoc(Died(), GiveBack(0));
  }

  /** A call that dies after recording leaves an idle worker without its slot. */
  lemma LostFreeLeaks()
    ensures var s := Run(Reported7() + [Drop(0)]);
            && 1 in s.db.workers && s.db.workers[1].epoch == 1 && s.db.workers[1].avail == 0 && s.db.workers[1].slots == 1
            && Held(s.db.jobs, 1, 1) == {} && Owing(s.calls, 1, 1) == {}
  {
    Reported7State();
    RunSnoc(Reported7(), Drop(0));
  }
}
