/** Where the columns of a worker row come from, over whole runs. */
module Provenance {
  import opened Rows
  import opened Transactions
  import opened Invariants
  import opened WorkerSteps

  /** A registration of the instance whose row is w, or the one that creates w. */
  predicate Registers(db: Db, tx: Tx, w: WorkerId) {
    tx.Register? && if w in db.workers then db.workers[w].instance == tx.inst else tx.newId == w && tx.inst !in db.instances
  }

  /** A flush that reaches w's row: the row is at the flush's epoch, and the job it names, if any, exists. */
  predicate Reaches(db: Db, tx: Tx, w: WorkerId) {
    && tx.Flush? && tx.w == w && w in db.workers && db.workers[w].epoch == tx.e
    && (tx.job.Some? ==> tx.job.value in db.jobs)
  }

  /** The time of the newest flush or registration of w. */
  function LastSeen(txs: seq<Tx>, w: WorkerId): Option<Time> {
    if txs == [] then None
    else
      var rest, tx := txs[..|txs| - 1], txs[|txs| - 1];
      if Registers(Run(rest), tx, w) || Reaches(Run(rest), tx, w) then Some(tx.now) else LastSeen(rest, w)
  }

  datatype Registration = Registration(caps: seq<Capability>, slots: int, now: Time)

  /** The registrations of w, oldest first. */
  function Registrations(txs: seq<Tx>, w: WorkerId): seq<Registration> {
    if txs == [] then []
    else
      var rest, tx := txs[..|txs| - 1], txs[|txs| - 1];
      Registrations(rest, w) + if Registers(Run(rest), tx, w) then [Registration(tx.caps, tx.slots, tx.now)] else []
  }

  /** What the last drain or resume asked for, of those that found the worker neither OFFLINE nor DEAD. */
  function Wish(txs: seq<Tx>, w: WorkerId): bool {
    if txs == [] then false
    else
      var rest, tx := txs[..|txs| - 1], txs[|txs| - 1];
      var listening := w in Run(rest).workers && Run(rest).workers[w].status != Dead && Run(rest).workers[w].status != Offline;
      if listening && tx == RequestDrain(w) then true
      else if listening && tx == ResumeDrain(w) then false
      else Wish(rest, w)
  }

  lemma {:induction false} UnknownHasNoPast(txs: seq<Tx>, w: WorkerId)
    requires w !in Run(txs).workers
    ensures LastSeen(txs, w) == None && Registrations(txs, w) == [] && !Wish(txs, w)
  {
    if txs != [] {
      var rest, tx := txs[..|txs| - 1], txs[|txs| - 1];
      EveryRunKeepsShape(rest);
      if w in Run(rest).workers { WorkerStep(Run(rest), tx, w); } else { WorkerAppears(Run(rest), tx, w); }
      UnknownHasNoPast(rest, w);
    }
  }

  /** last_heartbeat is the time of the newest flush or registration that reached the row. */
  lemma {:induction false} LastHeartbeatIsLastSeen(txs: seq<Tx>, w: WorkerId)
    requires w in Run(txs).workers
    ensures Run(txs).workers[w].lastHeartbeat == LastSeen(txs, w)
  {
    var rest, tx := txs[..|txs| - 1], txs[|txs| - 1];
    EveryRunKeepsShape(rest);
    if w in Run(rest).workers {
      LastHeartbeatIsLastSeen(rest, w);
      WorkerStep(Run(rest), tx, w);
    } else {
      WorkerAppears(Run(rest), tx, w);
    }
  }

  /**
   * Capabilities and slots are those the newest registration asked for, a slot count below one counting as one; the epoch is
   * the number of registrations; registered_at is the time of the first.
   */
  lemma {:induction false} RegistrationColumns(txs: seq<Tx>, w: WorkerId)
    requires w in Run(txs).workers
    ensures Granted(Run(txs).workers[w], Registrations(txs, w))
  {
    var rest, tx := txs[..|txs| - 1], txs[|txs| - 1];
    EveryRunKeepsShape(rest);
    if w in Run(rest).workers {
      RegistrationColumns(rest, w);
      GrantedStep(Run(rest), tx, w, Registrations(rest, w));
    } else {
      UnknownHasNoPast(rest, w);
      WorkerAppears(Run(rest), tx, w);
    }
  }

  predicate Granted(row: Worker, rs: seq<Registration>) {
    && rs != [] && row.epoch == |rs| && row.registeredAt == rs[0].now
    && row.caps == rs[|rs| - 1].caps
    && row.slots == (if rs[|rs| - 1].slots <= 0 then 1 else rs[|rs| - 1].slots)
  }

  lemma GrantedStep(db: Db, tx: Tx, w: WorkerId, rs: seq<Registration>)
    requires IndexOk(db) && w in db.workers && w in Apply(db, tx).workers && Granted(db.workers[w], rs)
    ensures Granted(Apply(db, tx).workers[w], rs + if Registers(db, tx, w) then [Registration(tx.caps, tx.slots, tx.now)] else [])
  {
    WorkerStep(db, tx, w);
  }

  /** drain_requested is what was last asked for; registering again does not change it. */
  lemma {:induction false} DrainFlagIsWish(txs: seq<Tx>, w: WorkerId)
    requires w in Run(txs).workers
    ensures Run(txs).workers[w].drainRequested == Wish(txs, w)
  {
    var rest, tx := txs[..|txs| - 1], txs[|txs| - 1];
    EveryRunKeepsShape(rest);
    if w in Run(rest).workers {
      DrainFlagIsWish(rest, w);
      WorkerStep(Run(rest), tx, w);
    } else {
      UnknownHasNoPast(rest, w);
      WorkerAppears(Run(rest), tx, w);
    }
  }
}
