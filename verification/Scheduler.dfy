/** The scheduling loop's handling of one queue entry, and one pass of the retry poller, as they run. */
module Scheduler {
  import opened Rows
  import opened Transactions
  import opened Codec
  import opened Store
  import opened Plane
  import opened Server
  import Queue

  /** The candidate the loop would try, given the listing the database returned. */
  predicate Tries(db: Db, m: Queue.Message, cs: seq<Candidate>, k: nat) {
    m.job.Some? && Queue.IsQueued(db, m.job.value) && k < |cs| && IsBest(cs, Some(k))
  }

  class SchedulingLoop {
    const server: ControlServer

    constructor (server: ControlServer)
      ensures this.server == server
    {
      this.server := server;
    }

    /**
     * An entry is acknowledged if it names no job, if its job is not QUEUED, or once the job has been assigned to the best
     * listed candidate; otherwise it stays, and the tables are as they were.
     */
    method ProcessMessage(m: Queue.Message, cs: seq<Candidate>) returns (acked: bool, chosen: Option<nat>)
      requires Queue.IsListing(server.View().db, Decode(m.caps), cs)
      modifies server.store, server.cache
      ensures chosen.Some? ==> Tries(old(server.View()).db, m, cs, chosen.value)
      ensures chosen.None? ==>
        server.View() == old(server.View())
        && acked == (m.job.None? || !Queue.IsQueued(old(server.View()).db, m.job.value))
      ensures chosen.Some? ==>
        var c := cs[chosen.value];
        && server.View() == Happen(old(server.View()), AssignOne(m.job.value, c.id, c.epoch, c.avail))
        && acked == CanAssign(old(server.View()).db, m.job.value, c.id, c.epoch)
      ensures !acked && chosen.None? ==> forall i | 0 <= i < |cs| :: cs[i].slots <= 0
    {
      chosen := None;
      if m.job.None? { return true, None; }
      var j := m.job.value;
      if j !in server.store.jobs { return true, None; }
      if server.store.jobs[j].status != Queued { return true, None; }
      var best := SelectLeastLoaded(cs);
      if best.None? { return false, None; }
      var c := cs[best.value];
      acked := server.Assign(j, c.id, c.epoch, c.avail);
      chosen := best;
    }
  }

  // ---- the retry poller ----

  /** ListDueRetries: RETRYING jobs whose time has come, oldest first, at most `limit` of them and none skipped. */
  predicate IsDueList(db: Db, now: Time, limit: nat, due: seq<JobId>) {
    && |due| <= limit
    && (forall i | 0 <= i < |due| :: IsDue(db, due[i], now))
    && (forall i, k | 0 <= i < k < |due| :: due[i] != due[k] && db.jobs[due[i]].retryAt.value <= db.jobs[due[k]].retryAt.value)
    && (forall j | j in db.jobs && IsDue(db, j, now) && j !in due ::
          |due| == limit && forall i | 0 <= i < |due| :: db.jobs[due[i]].retryAt.value <= db.jobs[j].retryAt.value)
  }

  predicate IsDue(db: Db, j: JobId, now: Time) {
    j in db.jobs && db.jobs[j].status.Retrying? && db.jobs[j].retryAt.Some? && db.jobs[j].retryAt.value <= now
  }

  predicate Releasable(db: Db, due: seq<JobId>) {
    && (forall i | 0 <= i < |due| :: due[i] in db.jobs && db.jobs[due[i]].status.Retrying?)
    && (forall i, k | 0 <= i < k < |due| :: due[i] != due[k])
  }

  function Releasing(due: seq<JobId>, n: nat): set<JobId>
    requires n <= |due|
  {
    set i | 0 <= i < n :: due[i]
  }

  /** The tables once the given RETRYING jobs have been released. */
  function Polled(db: Db, released: set<JobId>): Db {
    db.(jobs := map j | j in db.jobs ::
          if j in released && db.jobs[j].status.Retrying? then db.jobs[j].(status := Queued, retryAt := None) else db.jobs[j])
  }

  /** The entries appended for the first n listed jobs: one for each whose enqueue succeeds, in the listing's order. */
  function Appended(db: Db, due: seq<JobId>, ok: seq<bool>, n: nat): seq<(int, JobId, string)>
    requires n <= |due| == |ok| && forall i | 0 <= i < |due| :: due[i] in db.jobs
  {
    if n == 0 then []
    else Appended(db, due, ok, n - 1) + (if ok[n - 1] then [EntryFor(db, due[n - 1])] else [])
  }

  /** Priority (which selects the stream), job id and the joined capabilities. */
  function EntryFor(db: Db, j: JobId): (int, JobId, string)
    requires j in db.jobs
  {
    (db.jobs[j].priority, j, Join(db.jobs[j].caps))
  }

  /** How many enqueue calls reach Redis. */
  function Successes(ok: seq<bool>): nat {
    if ok == [] then 0 else Successes(ok[..|ok| - 1]) + (if ok[|ok| - 1] then 1 else 0)
  }

  lemma {:induction false} AppendedCount(db: Db, due: seq<JobId>, ok: seq<bool>, n: nat)
    requires n <= |due| == |ok| && forall i | 0 <= i < |due| :: due[i] in db.jobs
    ensures |Appended(db, due, ok, n)| == Successes(ok[..n])
  {
    if n > 0 {
      AppendedCount(db, due, ok, n - 1);
      assert ok[..n][..n - 1] == ok[..n - 1];
    }
  }

  lemma {:induction false} AppendedHas(db: Db, due: seq<JobId>, ok: seq<bool>, n: nat, i: nat)
    requires i < n <= |due| == |ok| && ok[i] && forall k | 0 <= k < |due| :: due[k] in db.jobs
    ensures (db.jobs[due[i]].priority, due[i], Join(db.jobs[due[i]].caps)) in Appended(db, due, ok, n)
  {
    if i < n - 1 { AppendedHas(db, due, ok, n - 1, i); }
  }

  lemma PolledOneMore(db: Db, released: set<JobId>, j: JobId)
    requires j in db.jobs && j !in released && db.jobs[j].status.Retrying?
    ensures CanRequeue(Polled(db, released), j)
    ensures AfterRequeue(Polled(db, released), j) == Polled(db, released + {j})
  {
    var a, b := AfterRequeue(Polled(db, released), j), Polled(db, released + {j});
    assert a.jobs.Keys == b.jobs.Keys;
    forall k | k in a.jobs ensures a.jobs[k] == b.jobs[k] {}
  }

  /** The job streams, as the sequence of all entries appended; an entry's priority names its stream. */
  class StreamQueue {
    var stream: seq<(int, JobId, string)>

    constructor ()
      ensures stream == []
    {
      stream := [];
    }

    /** What a reader decodes is the capability list, exactly if it survives the encoding. */
    method Enqueue(priority: int, j: JobId, caps: seq<Capability>, reached: bool)
      modifies this
      ensures stream == old(stream) + if reached then [(priority, j, Join(caps))] else []
      ensures reached ==> stream != [] && (Decode(stream[|stream| - 1].2) == caps <==> Encodable(caps))
    {
      if reached {
        RoundTripIff(caps);
        stream := stream + [(priority, j, Join(caps))];
      }
    }
  }

  datatype Answer = Accepted | Conflict

  class JobsHandler {
    const store: Tables
    const queue: StreamQueue

    constructor (store: Tables, queue: StreamQueue)
      ensures this.store == store && this.queue == queue
    {
      this.store, this.queue := store, queue;
    }

    /**
     * A submission that finds its row already there is answered with a conflict and enqueues nothing; a new one is QUEUED
     * and has an entry with its own priority, id and capabilities, unless the enqueue fails, which is not reported.
     */
    method SubmitJob(j: JobId, priority: int, caps: seq<Capability>, maxRetries: int, reached: bool) returns (answer: Answer)
      modifies store, queue
      ensures store.View() == AfterCreate(old(store.View()), j, priority, caps, maxRetries)
      ensures answer.Conflict? <==> j in old(store.View()).jobs
      ensures Queue.IsQueued(store.View(), j) || answer.Conflict?
      ensures answer.Accepted? ==> store.jobs[j].priority == priority && store.jobs[j].caps == caps
      ensures queue.stream == old(queue.stream) + if answer.Accepted? && reached then [(priority, j, Join(caps))] else []
    {
      var existing := store.Create(j, priority, caps, maxRetries);
      if existing { return Conflict; }
      queue.Enqueue(store.jobs[j].priority, j, store.jobs[j].caps, reached);
      answer := Accepted;
    }
  }

  class RetryPoller {
    const store: Tables
    const queue: StreamQueue

    constructor (store: Tables, queue: StreamQueue)
      ensures this.store == store && this.queue == queue
    {
      this.store, this.queue := store, queue;
    }

    /**
     * `ok` says which enqueue calls reach Redis: each of those jobs gets an entry with its own priority, id and capabilities,
     * and nothing else is appended; a failed one leaves its job QUEUED without an entry.
     */
    method Poll(now: Time, due: seq<JobId>, ok: seq<bool>)
      requires IsDueList(store.View(), now, 100, due) && |ok| == |due|
      modifies store, queue
      ensures store.View() == Polled(old(store.View()), Releasing(due, |due|))
      ensures forall i | 0 <= i < |due| :: store.jobs[due[i]].status == Queued && store.jobs[due[i]].retryAt == None
      ensures |queue.stream| == |old(queue.stream)| + Successes(ok) && queue.stream[..|old(queue.stream)|] == old(queue.stream)
      ensures forall i | 0 <= i < |due| && ok[i] ::
        var job := old(store.jobs)[due[i]]; (job.priority, due[i], Join(job.caps)) in queue.stream[|old(queue.stream)|..]
    {
      ghost var db := store.View();
      ReleaseAll(due, ok);
      AppendedCount(db, due, ok, |due|);
      assert ok[..|due|] == ok;
      forall i | 0 <= i < |due| && ok[i]
        ensures (db.jobs[due[i]].priority, due[i], Join(db.jobs[due[i]].caps)) in Appended(db, due, ok, |due|)
      {
        AppendedHas(db, due, ok, |due|, i);
      }
      assert queue.stream[|old(queue.stream)|..] == Appended(db, due, ok, |due|);
    }

    method ReleaseAll(due: seq<JobId>, ok: seq<bool>)
      requires |ok| == |due| && Releasable(store.View(), due)
      modifies store, queue
      ensures store.View() == Polled(old(store.View()), Releasing(due, |due|))
      ensures queue.stream == old(queue.stream) + Appended(old(store.View()), due, ok, |due|)
    {
      ghost var db, before := store.View(), queue.stream;
      ghost var done: set<JobId> := {};
      var listed := store.jobs;
      assert Polled(db, {}) == db;
      var i := 0;
      while i < |due|
        invariant i <= |due| && done == Releasing(due, i)
        invariant store.View() == Polled(db, done)
        invariant queue.stream == before + Appended(db, due, ok, i)
      {
        var j := due[i];
        assert j !in done;
        PolledOneMore(db, done, j);
        assert Releasing(due, i + 1) == done + {j};
        var moved := store.MarkQueuedFromRetry(j);
        if moved { queue.Enqueue(listed[j].priority, j, listed[j].caps, ok[i]); }
        i, done := i + 1, done + {j};
      }
    }
  }

  /** After a pass every listed job is QUEUED with no retry pending, no other job changed, and a short list left none due. */
  lemma PollReleasesExactlyTheDue(db: Db, now: Time, limit: nat, due: seq<JobId>)
    requires IsDueList(db, now, limit, due)
    ensures var d := Polled(db, Releasing(due, |due|));
            && d.jobs.Keys == db.jobs.Keys
            && (forall j | j in db.jobs ::
                  if j in due then d.jobs[j].status.Queued? && d.jobs[j].retryAt.None? else d.jobs[j] == db.jobs[j])
            && (|due| < limit ==> forall j | j in d.jobs && d.jobs[j].status == Retrying && d.jobs[j].retryAt.Some? :: d.jobs[j].retryAt.value > now)
  {
    assert forall j :: j in due <==> j in Releasing(due, |due|);
  }
}
