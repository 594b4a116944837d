/**
 * The worker agent: agentState behind its mutex, the goroutine that receives replies, and one goroutine per
 * accepted job. Each lock acquisition is a step, so the goroutines interleave between any two calls.
 */
module Agent {

  datatype Status = Ready | Busy | Draining

  datatype Fields = Fields(status: Status, job: string, avail: int, draining: bool)

  function Started(f: Fields, id: string): Fields { f.(status := Busy, job := id, avail := 0) }

  function Finished(f: Fields, slots: int): Fields {
    f.(status := if f.draining then Draining else Ready, job := "", avail := slots)
  }

  function DrainSet(f: Fields): Fields { f.(draining := true, status := if f.job == "" then Draining else f.status) }

  function DrainCleared(f: Fields): Fields {
    f.(draining := false, status := if f.draining && f.job == "" then Ready else f.status)
  }

  class AgentState {
    var status: Status
    var currentJobID: string
    var availableCapacity: int
    var draining: bool

    function View(): Fields
      reads this
    {
      Fields(status, currentJobID, availableCapacity, draining)
    }

    /** The status sent with heartbeats follows from job and drain flag. */
    predicate Valid()
      reads this
    {
      status == Reported(View())
    }

    constructor (slots: int)
      ensures Valid() && View() == Fields(Ready, "", slots, false)
    {
      status, currentJobID, availableCapacity, draining := Ready, "", slots, false;
    }

    method StartJob(id: string)
      modifies this
      ensures View() == Started(old(View()), id)
      ensures Valid() <==> id != ""
    {
      status := Busy;
      currentJobID := id;
      availableCapacity := 0;
    }

    method FinishJob(slots: int)
      modifies this
      ensures Valid() && View() == Finished(old(View()), slots)
    {
      if draining { status := Draining; } else { status := Ready; }
      currentJobID := "";
      availableCapacity := slots;
    }

    method IsBusy() returns (b: bool)
      ensures b == (View().job != "")
    {
      b := currentJobID != "";
    }

    method SetDraining() returns (first: bool)
      modifies this
      ensures View() == DrainSet(old(View())) && first == !old(View()).draining
      ensures old(Valid()) ==> Valid()
    {
      first := !draining;
      draining := true;
      if currentJobID == "" { status := Draining; }
    }

    method ClearDraining() returns (was: bool)
      modifies this
      ensures View() == DrainCleared(old(View())) && was == old(View()).draining
      ensures old(Valid()) ==> Valid()
    {
      was := draining;
      draining := false;
      if was && currentJobID == "" { status := Ready; }
    }

    method IsDraining() returns (b: bool)
      ensures b == View().draining
    {
      b := draining;
    }

    /**
     * One round of the receive loop, if no job goroutine gets in between: what the machine below does in as many steps,
     * a job being started exactly when the agent holds none and is not draining.
     */
    method HandleReply(assignment: seq<string>, drain: bool, ghost a: Agent, ghost slots: int) returns (started: bool)
      requires a.f == View() && a.recv.Waiting?
      modifies this
      ensures var b := Handled(a, slots, assignment, drain);
              && View() == b.f && b.recv.Waiting?
              && b.running == a.running + (if started then 1 else 0) && b.starts == a.starts + (if started then 1 else 0)
      ensures started <==> assignment != [] && old(currentJobID == "" && !draining)
      ensures draining == drain && currentJobID == if started then assignment[0] else old(currentJobID)
      ensures old(Valid()) && (assignment != [] ==> assignment[0] != "") ==> Valid()
    {
      started := false;
      if assignment != [] {
        var busy := IsBusy();
        if !busy {
          var draining := IsDraining();
          if !draining {
            StartJob(assignment[0]);
            started := true;
          }
        }
      }
      HandledFields(a, slots, assignment, drain);
      if drain { var _ := SetDraining(); } else { var _ := ClearDraining(); }
    }
  }

  // ---- the goroutines ----

  /** Where the receive goroutine stands in handling one reply. */
  datatype Recv =
    | Waiting
    | Offered(id: string, drain: bool)   // got an assignment, isBusy not called yet
    | Idle(id: string, drain: bool)      // isBusy said no
    | Clear(id: string, drain: bool)     // isDraining said no
    | Spawning(id: string, drain: bool)  // startJob done, goroutine not started yet
    | Drain(drain: bool)                 // assignment part over, drain flag to apply

  datatype Agent = Agent(f: Fields, recv: Recv, running: nat, starts: nat, finishes: nat, startedDraining: bool)

  datatype Step =
    | Receive(assignment: seq<string>, drain: bool)   // the empty sequence: a reply without assignment
    | Advance
    | Finish   // a job goroutine has reported and calls finishJob

  function Init(slots: int): Agent { Agent(Fields(Ready, "", slots, false), Waiting, 0, 0, 0, false) }

  function Next(a: Agent, slots: int, s: Step): Agent {
    match s
    case Receive(assignment, drain) =>
      if !a.recv.Waiting? then a
      else if assignment == [] then a.(recv := Drain(drain))
      else a.(recv := Offered(assignment[0], drain))
    case Advance =>
      (match a.recv
       case Waiting => a
       case Offered(id, drain) => if a.f.job != "" then a.(recv := Drain(drain)) else a.(recv := Idle(id, drain))
       case Idle(id, drain) => if a.f.draining then a.(recv := Drain(drain)) else a.(recv := Clear(id, drain))
       case Clear(id, drain) =>
         a.(f := Started(a.f, id), recv := Spawning(id, drain), starts := a.starts + 1,
            startedDraining := a.startedDraining || a.f.draining)
       case Spawning(id, drain) => a.(recv := Drain(drain), running := a.running + 1)
       case Drain(drain) => a.(f := if drain then DrainSet(a.f) else DrainCleared(a.f), recv := Waiting))
    case Finish =>
      if a.running == 0 then a
      else a.(f := Finished(a.f, slots), running := a.running - 1, finishes := a.finishes + 1)
  }

  function Run(slots: int, steps: seq<Step>): Agent {
    if steps == [] then Init(slots) else Next(Run(slots, steps[..|steps| - 1]), slots, steps[|steps| - 1])
  }

  /** What the agent reports: BUSY if a job is held, else DRAINING if draining, else READY. */
  function Reported(f: Fields): Status { if f.job != "" then Busy else if f.draining then Draining else Ready }

  /** A job accepted but not yet handed to its goroutine. */
  function Handover(r: Recv): nat { if r.Spawning? then 1 else 0 }

  predicate Ok(a: Agent, slots: int) {
    && a.f.status == Reported(a.f)
    && a.f.avail == (if a.f.job == "" then slots else 0)
    && a.running + Handover(a.recv) == (if a.f.job == "" then 0 else 1)
    && a.starts == a.finishes + a.running + Handover(a.recv)
    && !a.startedDraining
    && (a.recv.Idle? ==> a.f.job == "" && a.recv.id != "")
    && (a.recv.Clear? ==> a.f.job == "" && !a.f.draining && a.recv.id != "")
    && (a.recv.Offered? || a.recv.Spawning? ==> a.recv.id != "")
  }

  /** The server pushes ids of job rows, which are never empty. */
  predicate Named(s: Step) { s.Receive? && s.assignment != [] ==> s.assignment[0] != "" }

  lemma OkNext(a: Agent, slots: int, s: Step)
    requires Ok(a, slots) && Named(s)
    ensures Ok(Next(a, slots, s), slots)
  {
  }

  /**
   * Under every interleaving: at most one job executes, each start is matched by exactly one finish or is the
   * job still held, no job starts while draining, and the reported status and capacity follow from job and drain flag.
   */
  lemma {:induction false} AgentSafe(slots: int, steps: seq<Step>)
    requires forall s | s in steps :: Named(s)
    ensures var a := Run(slots, steps);
            && Ok(a, slots) && a.running <= 1
            && a.starts == a.finishes + (if a.f.job == "" then 0 else 1)
            && !a.startedDraining && a.f.status == Reported(a.f)
            && a.f.avail == (if a.f.job == "" then slots else 0)
  {
    if steps != [] {
      AgentSafe(slots, steps[..|steps| - 1]);
      assert steps[|steps| - 1] in steps;
      OkNext(Run(slots, steps[..|steps| - 1]), slots, steps[|steps| - 1]);
    }
  }

  /** The drain flag of the last reply handled to its end. */
  function LastFlag(slots: int, steps: seq<Step>): bool {
    if steps == [] then false
    else
      var rest := steps[..|steps| - 1];
      if steps[|steps| - 1].Advance? && Run(slots, rest).recv.Drain? then Run(slots, rest).recv.drain else LastFlag(slots, rest)
  }

  /** The agent is draining exactly if the scheduler said so last. */
  lemma {:induction false} DrainingFollowsReplies(slots: int, steps: seq<Step>)
    ensures Run(slots, steps).f.draining == LastFlag(slots, steps)
  {
    if steps != [] { DrainingFollowsReplies(slots, steps[..|steps| - 1]); }
  }

  // ---- a reply handled without interruption ----

  /** The receive goroutine takes a reply and goes on to the next: five steps at most, the rest idle. */
  function Handled(a: Agent, slots: int, assignment: seq<string>, drain: bool): Agent {
    var a1 := Next(Next(Next(a, slots, Receive(assignment, drain)), slots, Advance), slots, Advance);
    Next(Next(Next(a1, slots, Advance), slots, Advance), slots, Advance)
  }

  lemma HandledFields(a: Agent, slots: int, assignment: seq<string>, drain: bool)
    requires a.recv.Waiting?
    ensures var b := Handled(a, slots, assignment, drain);
            var starting := assignment != [] && a.f.job == "" && !a.f.draining;
            var f := if starting then Started(a.f, assignment[0]) else a.f;
            && b.f == (if drain then DrainSet(f) else DrainCleared(f)) && b.recv.Waiting?
            && b.running == a.running + (if starting then 1 else 0) && b.starts == a.starts + (if starting then 1 else 0)
  {
  }

  // ---- why ids must not be empty ----

  /** The run of one reply after another. */
  function TwoReplies(id: string): seq<Step> {
    [Receive([id], false)] + [Advance] + [Advance] + [Advance] + [Advance] + [Advance]
    + [Receive([id], false)] + [Advance] + [Advance] + [Advance] + [Advance] + [Advance]
  }

  lemma RunSnoc(slots: int, steps: seq<Step>, s: Step)
    ensures Run(slots, steps + [s]) == Next(Run(slots, steps), slots, s)
  {
    assert (steps + [s])[..|steps|] == steps;
  }

  lemma ReplyRun(slots: int, t: seq<Step>, id: string)
    ensures Run(slots, t + [Receive([id], false)] + [Advance] + [Advance] + [Advance] + [Advance] + [Advance])
         == Handled(Run(slots, t), slots, [id], false)
  {
    var t1 := t + [Receive([id], false)];
    RunSnoc(slots, t, Receive([id], false));
    RunSnoc(slots, t1, Advance);
    RunSnoc(slots, t1 + [Advance], Advance);
    RunSnoc(slots, t1 + [Advance] + [Advance], Advance);
    RunSnoc(slots, t1 + [Advance] + [Advance] + [Advance], Advance);
    RunSnoc(slots, t1 + [Advance] + [Advance] + [Advance] + [Advance], Advance);
  }

  /**
   * The hypothesis on ids is needed: an assignment with an empty id looks idle while it runs, and a second one executes
   * beside it. With any other id the second is ignored. The server pushes no empty id.
   */
  lemma TwoRunTogetherIff(slots: int, id: string)
    ensures Run(slots, TwoReplies(id)).running == 2 <==> id == ""
  {
    var once := [Receive([id], false)] + [Advance] + [Advance] + [Advance] + [Advance] + [Advance];
    ReplyRun(slots, [], id);
    assert [] + [Receive([id], false)] == [Receive([id], false)];
    HandledFields(Init(slots), slots, [id], false);
    ReplyRun(slots, once, id);
    HandledFields(Run(slots, once), slots, [id], false);
  }
}
