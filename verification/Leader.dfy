/**
 * Leader election over a session-scoped advisory lock. Sessions may die at any moment, pings, lock queries and unlocks may
 * fail whether or not the session is alive, and a pooled session may be handed out again.
 */
module Leader {
  import opened Rows

  type ReplicaId = nat
  type SessionId = nat

  /** One replica's elector: the checked-out connection and what IsLeader answers. */
  datatype Elector = Elector(conn: Option<SessionId>, isLeader: bool)

  /** Postgres: the lock's holder and re-entrancy count, the sessions alive, and whose pool each session is in. */
  datatype Locks = Locks(lock: Option<SessionId>, count: nat, alive: set<SessionId>, pool: map<SessionId, ReplicaId>)

  /** The lock query may be answered, or fail before or after Postgres has executed it. */
  datatype Query = Answered | Unsent | ReplyLost

  /** What happens around one tryAcquireOrVerify: the ping's answer, the connection handed out, the query's fate. */
  datatype Conditions = Conditions(pingOk: bool, acquired: Option<SessionId>, query: Query)

  /** pg_try_advisory_lock: granted if the lock is free or this session already has it. */
  predicate Grants(k: Locks, s: SessionId) { s in k.alive && (k.lock.None? || k.lock == Some(s)) }

  function Granted(k: Locks, s: SessionId): Locks { if Grants(k, s) then k.(lock := Some(s), count := k.count + 1) else k }

  /** pg_advisory_unlock undoes one acquisition. */
  function Unlocked(k: Locks, s: SessionId): Locks {
    if k.lock != Some(s) || s !in k.alive then k
    else if k.count <= 1 then k.(lock := None, count := 0)
    else k.(count := k.count - 1)
  }

  /** A live connection of the replica's own pool. */
  predicate FromPool(k: Locks, r: ReplicaId, s: SessionId) { s in k.pool && k.pool[s] == r && s in k.alive }

  /** Postgres grants the lock to the connection handed out, whether or not the replica learns of it. */
  predicate Takes(k: Locks, r: ReplicaId, c: Conditions) {
    c.acquired.Some? && FromPool(k, r, c.acquired.value) && !c.query.Unsent? && Grants(k, c.acquired.value)
  }

  predicate Wins(k: Locks, r: ReplicaId, c: Conditions) { Takes(k, r, c) && c.query.Answered? }

  /** Whether the call goes on to try for the lock: it has no connection, or lost the one it had. */
  predicate Tries(el: Elector, c: Conditions) { el.conn.None? || !c.pingOk }

  function LocksAfterCheck(k: Locks, el: Elector, r: ReplicaId, c: Conditions): Locks {
    if Tries(el, c) && Takes(k, r, c) then Granted(k, c.acquired.value) else k
  }

  function ElectorAfterCheck(k: Locks, el: Elector, r: ReplicaId, c: Conditions): Elector {
    if !Tries(el, c) then el
    else if Wins(k, r, c) then Elector(c.acquired, true)
    else if el.conn.Some? then Elector(None, false)
    else el
  }

  function LocksAfterRelease(k: Locks, el: Elector, unlockOk: bool): Locks {
    if el.conn.Some? && unlockOk then Unlocked(k, el.conn.value) else k
  }

  class Postgres {
    var lock: Option<SessionId>
    var count: nat
    var alive: set<SessionId>
    var pool: map<SessionId, ReplicaId>

    function View(): Locks
      reads this
    {
      Locks(lock, count, alive, pool)
    }

    method TryAdvisoryLock(s: SessionId) returns (granted: bool)
      modifies this
      ensures View() == Granted(old(View()), s)
      ensures granted <==> s in alive && (old(lock) == None || old(lock) == Some(s))
      ensures if granted then lock == Some(s) && count == old(count) + 1 else lock == old(lock) && count == old(count)
    {
      granted := s in alive && (lock.None? || lock == Some(s));
      if granted { lock, count := Some(s), count + 1; }
    }

    method AdvisoryUnlock(s: SessionId)
      modifies this
      ensures View() == Unlocked(old(View()), s)
      ensures old(lock) == Some(s) && s in alive && old(count) == 1 ==> lock == None && count == 0
      ensures old(lock) == Some(s) && s in alive && old(count) > 1 ==> lock == Some(s) && count == old(count) - 1
    {
      if lock == Some(s) && s in alive {
        if count <= 1 { lock, count := None, 0; } else { count := count - 1; }
      }
    }
  }

  class LeaderElector {
    const id: ReplicaId
    const pg: Postgres
    var conn: Option<SessionId>
    var isLeader: bool

    function View(): Elector
      reads this
    {
      Elector(conn, isLeader)
    }

    constructor (id: ReplicaId, pg: Postgres)
      ensures View() == Elector(None, false) && this.id == id && this.pg == pg
    {
      this.id, this.pg, conn, isLeader := id, pg, None, false;
    }

    method TryAcquireOrVerify(c: Conditions)
      modifies this, pg
      ensures View() == ElectorAfterCheck(old(pg.View()), old(View()), id, c)
      ensures pg.View() == LocksAfterCheck(old(pg.View()), old(View()), id, c)
      ensures old(ElectorOk(pg.View(), View(), id)) ==>
        && ElectorOk(pg.View(), View(), id)
        && (isLeader <==>
              || (old(isLeader) && c.pingOk)
              || (c.query.Answered? && c.acquired.Some? && c.acquired.value in pg.pool && pg.pool[c.acquired.value] == id
                  && c.acquired.value in pg.alive && old(pg.lock == None || pg.lock == c.acquired)))
    {
      if conn.Some? {
        if c.pingOk { return; }
        conn, isLeader := None, false;
      }
      if c.acquired.None? || !FromPool(pg.View(), id, c.acquired.value) { return; }
      if c.query.Unsent? { return; }
      var acquired := pg.TryAdvisoryLock(c.acquired.value);
      if c.query.ReplyLost? { return; }
      if !acquired { return; }
      conn, isLeader := c.acquired, true;
    }

    method Release(unlockOk: bool)
      modifies this, pg
      ensures View() == if old(View()).conn.None? then old(View()) else Elector(None, false)
      ensures pg.View() == LocksAfterRelease(old(pg.View()), old(View()), unlockOk)
      ensures old(ElectorOk(pg.View(), View(), id)) ==>
        && ElectorOk(pg.View(), View(), id) && !isLeader
        && (unlockOk && old(isLeader && conn.value in pg.alive && pg.count == 1) ==> pg.lock.None?)
    {
      if conn.None? { return; }
      if unlockOk { pg.AdvisoryUnlock(conn.value); }
      conn, isLeader := None, false;
    }
  }

  // ---- any number of replicas ----

  datatype World = World(k: Locks, electors: map<ReplicaId, Elector>)

  const INIT: World := World(Locks(None, 0, {}, map[]), map[])

  datatype Step =
    | Open(s: SessionId, r: ReplicaId)      // a replica's pool opens a session
    | Die(s: SessionId)                     // crash, partition or idle close: Postgres drops the session's locks
    | Check(r: ReplicaId, c: Conditions)    // tryAcquireOrVerify
    | Release(r: ReplicaId, unlockOk: bool) // graceful shutdown
    | Crash(r: ReplicaId)                   // the process dies: its sessions die with it

  function Of(w: World, r: ReplicaId): Elector { if r in w.electors then w.electors[r] else Elector(None, false) }

  function WithoutSessions(k: Locks, dead: set<SessionId>): Locks {
    if k.lock.Some? && k.lock.value in dead then Locks(None, 0, k.alive - dead, k.pool)
    else k.(alive := k.alive - dead)
  }

  function Next(w: World, st: Step): World {
    match st
    case Open(s, r) => if s in w.k.pool then w else w.(k := w.k.(pool := w.k.pool[s := r], alive := w.k.alive + {s}))
    case Die(s) => w.(k := WithoutSessions(w.k, {s}))
    case Check(r, c) =>
      World(LocksAfterCheck(w.k, Of(w, r), r, c), w.electors[r := ElectorAfterCheck(w.k, Of(w, r), r, c)])
    case Release(r, unlockOk) =>
      World(LocksAfterRelease(w.k, Of(w, r), unlockOk), w.electors[r := if Of(w, r).conn.None? then Of(w, r) else Elector(None, false)])
    case Crash(r) =>
      World(WithoutSessions(w.k, set s | s in w.k.pool && w.k.pool[s] == r), w.electors - {r})
  }

  function Run(steps: seq<Step>): World {
    if steps == [] then INIT else Next(Run(steps[..|steps| - 1]), steps[|steps| - 1])
  }

  /** isLeader holds exactly while a connection is held; a held connection whose session is alive owns the lock. */
  predicate ElectorOk(k: Locks, el: Elector, r: ReplicaId) {
    && (el.isLeader <==> el.conn.Some?)
    && (el.conn.Some? ==> el.conn.value in k.pool && k.pool[el.conn.value] == r)
    && (el.conn.Some? && el.conn.value in k.alive ==> k.lock == el.conn)
  }

  ghost predicate Ok(w: World) {
    && w.k.alive <= w.k.pool.Keys
    && (w.k.lock.Some? ==> w.k.lock.value in w.k.alive) && (w.k.lock.Some? <==> w.k.count >= 1)
    && forall r: ReplicaId :: ElectorOk(w.k, Of(w, r), r)
  }

  lemma OkNext(w: World, st: Step)
    requires Ok(w)
    ensures Ok(Next(w, st))
  {
    var n := Next(w, st);
    forall q: ReplicaId
      ensures ElectorOk(n.k, Of(n, q), q)
    {
      assert ElectorOk(w.k, Of(w, q), q);
      if st.Check? || st.Release? { assert ElectorOk(w.k, Of(w, st.r), st.r); }
    }
  }

  /** Over all runs of crashes, lost sessions, pings and releases. */
  lemma {:induction false} OkRun(steps: seq<Step>)
    ensures Ok(Run(steps))
  {
    if steps == [] {
      forall q: ReplicaId ensures ElectorOk(INIT.k, Of(INIT, q), q) {}
    } else {
      OkRun(steps[..|steps| - 1]);
      OkNext(Run(steps[..|steps| - 1]), steps[|steps| - 1]);
    }
  }

  /** Leads with a session that is alive. */
  predicate Leads(w: World, r: ReplicaId) {
    Of(w, r).isLeader && Of(w, r).conn.Some? && Of(w, r).conn.value in w.k.alive
  }

  /** No two replicas are ever leader with live sessions, over all runs of crashes, lost sessions, pings and releases. */
  lemma LeadersExclude(steps: seq<Step>, p: ReplicaId, r: ReplicaId)
    requires Leads(Run(steps), p) && Leads(Run(steps), r)
    ensures p == r
  {
    OkRun(steps);
    var w := Run(steps);
    assert ElectorOk(w.k, Of(w, p), p) && ElectorOk(w.k, Of(w, r), r);
  }

  // ---- the lock is never stranded ----

  /** A taken lock was taken once, by the connection some replica leads with; so that replica's release frees it. */
  predicate Owned(w: World) {
    w.k.lock.Some? ==> w.k.count == 1 && exists r :: r in w.electors && w.electors[r].conn == w.k.lock
  }

  /** The replica gives its connection back to the pool while the session lives on, locked. */
  predicate Strands(w: World, st: Step) {
    match st
    case Check(r, c) => (HoldsLive(w, r) && !c.pingOk) || (Tries(Of(w, r), c) && c.query.ReplyLost? && Takes(w.k, r, c))
    case Release(r, unlockOk) => HoldsLive(w, r) && !unlockOk
    case _ => false
  }

  predicate HoldsLive(w: World, r: ReplicaId) { Of(w, r).conn.Some? && Of(w, r).conn.value in w.k.alive }

  lemma OwnedCheck(w: World, r: ReplicaId, c: Conditions)
    requires Ok(w) && Owned(w)
    ensures Owned(Next(w, Check(r, c))) <==> !Strands(w, Check(r, c))
  {
    var n := Next(w, Check(r, c));
    assert ElectorOk(w.k, Of(w, r), r);
    if HoldsLive(w, r) && !c.pingOk {
      OnlyHolder(w, r, n);
    } else if Strands(w, Check(r, c)) {
      LostGrant(w, r, c);
    } else if Tries(Of(w, r), c) && Wins(w.k, r, c) {
      assert w.k.lock.None? by { if w.k.lock.Some? { LockTakerHolds(w, r); } }
      assert r in n.electors && n.electors[r].conn == n.k.lock;
    } else if w.k.lock.Some? {
      KeepsOwner(w, n);
    }
  }

  /** A grant nobody heard of: the lock was free, and its new holder is nobody's connection. */
  lemma LostGrant(w: World, r: ReplicaId, c: Conditions)
    requires Ok(w) && Owned(w) && !HoldsLive(w, r) && Tries(Of(w, r), c) && c.query.ReplyLost? && Takes(w.k, r, c)
    ensures !Owned(Next(w, Check(r, c)))
  {
    var n := Next(w, Check(r, c));
    if w.k.lock.Some? { LockTakerHolds(w, r); }
    forall q | q in n.electors
      ensures n.electors[q].conn != n.k.lock
    {
      assert ElectorOk(w.k, Of(w, q), q);
    }
  }

  /** Nobody but the pool's owner can hold the connection, so once it lets go no one does. */
  lemma OnlyHolder(w: World, r: ReplicaId, n: World)
    requires Ok(w) && HoldsLive(w, r)
    requires n.k.lock == w.k.lock && n.electors.Keys == w.electors.Keys + {r}
    requires forall q | q in w.electors && q != r :: n.electors[q] == w.electors[q]
    requires n.electors[r].conn != w.k.lock || n.k.count > 1
    ensures !Owned(n)
  {
    assert ElectorOk(w.k, Of(w, r), r);
    forall q | q in w.electors && q != r
      ensures n.electors[q].conn != n.k.lock
    {
      assert ElectorOk(w.k, Of(w, q), q);
    }
  }

  /** A session of r's pool that holds the lock is the one r leads with. */
  lemma LockTakerHolds(w: World, r: ReplicaId)
    requires Ok(w) && Owned(w) && w.k.lock.Some? && FromPool(w.k, r, w.k.lock.value)
    ensures Of(w, r).conn == w.k.lock
  {
    var q :| q in w.electors && w.electors[q].conn == w.k.lock;
    assert ElectorOk(w.k, Of(w, q), q);
  }

  lemma KeepsOwner(w: World, n: World)
    requires Owned(w) && n.k.lock == w.k.lock && n.k.count == w.k.count
    requires forall q | q in w.electors && w.electors[q].conn == w.k.lock :: q in n.electors && n.electors[q].conn == w.k.lock
    ensures Owned(n)
  {
    if w.k.lock.Some? {
      var q :| q in w.electors && w.electors[q].conn == w.k.lock;
      assert q in n.electors && n.electors[q].conn == n.k.lock;
    }
  }

  lemma OwnedRelease(w: World, r: ReplicaId, unlockOk: bool)
    requires Ok(w) && Owned(w)
    ensures Owned(Next(w, Release(r, unlockOk))) <==> !Strands(w, Release(r, unlockOk))
  {
    var n := Next(w, Release(r, unlockOk));
    assert ElectorOk(w.k, Of(w, r), r);
    if Strands(w, Release(r, unlockOk)) {
      OnlyHolder(w, r, n);
    } else if !HoldsLive(w, r) {
      KeepsOwner(w, n);
    }
  }

  lemma OwnedOther(w: World, st: Step)
    requires Ok(w) && Owned(w) && (st.Open? || st.Die? || st.Crash?)
    ensures Owned(Next(w, st))
  {
    var n := Next(w, st);
    if n.k.lock.Some? {
      var q :| q in w.electors && w.electors[q].conn == w.k.lock;
      assert ElectorOk(w.k, Of(w, q), q);
      assert q in n.electors && n.electors[q].conn == n.k.lock;
    }
  }

  /**
   * A step keeps the lock in its leader's hands exactly if no ping or unlock fails on a session that is still alive, and
   * no lock query fails after Postgres has granted it.
   */
  lemma OwnedIff(w: World, st: Step)
    requires Ok(w) && Owned(w)
    ensures Owned(Next(w, st)) <==> !Strands(w, st)
  {
    match st
    case Check(r, c) => OwnedCheck(w, r, c);
    case Release(r, unlockOk) => OwnedRelease(w, r, unlockOk);
    case _ => OwnedOther(w, st);
  }

  predicate NeverStrands(steps: seq<Step>) {
    steps == [] || (NeverStrands(steps[..|steps| - 1]) && !Strands(Run(steps[..|steps| - 1]), steps[|steps| - 1]))
  }

  /** So in every run in which a failed call means a dead session or no effect, a leader that releases leaves the lock free. */
  lemma {:induction false} LockNeverStranded(steps: seq<Step>)
    requires NeverStrands(steps)
    ensures Owned(Run(steps))
    ensures forall r | Leads(Run(steps), r) :: LocksAfterRelease(Run(steps).k, Of(Run(steps), r), true).lock.None?
  {
    if steps != [] {
      var rest := steps[..|steps| - 1];
      LockNeverStranded(rest);
      OkRun(rest);
      OwnedIff(Run(rest), steps[|steps| - 1]);
    }
    OkRun(steps);
    var w := Run(steps);
    forall r | Leads(w, r)
      ensures LocksAfterRelease(w.k, Of(w, r), true).lock.None?
    {
      assert ElectorOk(w.k, Of(w, r), r);
    }
  }

  /** A replica that believes it leads owns the lock exactly if its session is alive. */
  lemma BelieverOwnsIff(steps: seq<Step>, r: ReplicaId)
    requires Of(Run(steps), r).isLeader
    ensures var w := Run(steps);
            Of(w, r).conn.Some? && (w.k.lock == Of(w, r).conn <==> Of(w, r).conn.value in w.k.alive)
  {
    OkRun(steps);
    assert ElectorOk(Run(steps).k, Of(Run(steps), r), r);
  }

  // ---- what remains possible ----

  function StaleBelief(): seq<Step> {
    [Open(1, 1), Open(2, 2), Check(1, Conditions(true, Some(1), Answered)), Die(1), Check(2, Conditions(true, Some(2), Answered))]
  }

  lemma RunSnoc(steps: seq<Step>, st: Step)
    ensures Run(steps + [st]) == Next(Run(steps), st)
  {
    assert (steps + [st])[..|steps|] == steps;
  }

  /** Two IsLeader() answers may be true at once: the first replica has not pinged its dead session yet. */
  lemma TwoMayBelieve()
    ensures var w := Run(StaleBelief()); Of(w, 1).isLeader && Of(w, 2).isLeader && !Leads(w, 1) && Leads(w, 2)
  {
    var t1: seq<Step> := [Open(1, 1)];
    var t2 := t1 + [Open(2, 2)];
    var t3 := t2 + [Check(1, Conditions(true, Some(1), Answered))];
    var t4 := t3 + [Die(1)];
    RunSnoc([], Open(1, 1));
    assert [] + t1 == t1;
    RunSnoc(t1, Open(2, 2));
    RunSnoc(t2, Check(1, Conditions(true, Some(1), Answered)));
    RunSnoc(t3, Die(1));
    RunSnoc(t4, Check(2, Conditions(true, Some(2), Answered)));
    assert StaleBelief() == t4 + [Check(2, Conditions(true, Some(2), Answered))];
  }

  /** The grant whose reply is lost leaves the lock with a pooled session: nobody leads, and the other replica cannot. */
  lemma LostReplyWedges()
    ensures var w := Run([Open(1, 1)] + [Open(2, 2)] + [Check(1, Conditions(true, Some(1), ReplyLost))]);
            && w.k.lock == Some(1) && !Of(w, 1).isLeader && !Of(w, 2).isLeader
            && !Of(Next(w, Check(2, Conditions(true, Some(2), Answered))), 2).isLeader
  {
    var t1: seq<Step> := [Open(1, 1)];
    var t2 := t1 + [Open(2, 2)];
    RunSnoc([], Open(1, 1));
    assert [] + t1 == t1;
    RunSnoc(t1, Open(2, 2));
    RunSnoc(t2, Check(1, Conditions(true, Some(1), ReplyLost)));
  }
}
