# FleetForge control plane: a verified model

FleetForge runs build jobs on a fleet of worker machines. Postgres holds the `workers`, `jobs` and
`job_retry_history` tables; Redis holds one stream of queue entries per priority and a small cache entry per worker.
Schedulers, a reaper, a retry poller, an autoscaler and the gRPC handlers all act on them at the same time, often on
facts they read a while ago. What keeps the system right is a dozen guarded updates, a counter (`epoch`) per worker that
grows with each registration, and arithmetic on `available_capacity`.

This project models that control plane as step machines and proves what holds after every run.

## How it is organised

| file | contents |
|---|---|
| `Rows.dfy` | the rows of the tables, and the database as one value |
| `Transactions.dfy` | what each committed transaction does; arguments are arbitrary, the guards decide |
| `Store.dfy` | `WorkerStore` and `JobStore` as a class with mutable tables, each method proved to be its transaction |
| `JobSteps.dfy`, `WorkerSteps.dfy` | what a transaction does to one row, every guard and column written out; the functions above are checked against it |
| `Invariants.dfy`, `Provenance.dfy` | the shape of the rows after every run, and where a worker row's columns come from |
| `JobLife.dfy` | whole-run accounting: assignments, retries, history, length of a job's life |
| `Fencing.dfy` | epochs as fencing tokens, with messages in flight for any length of time |
| `Slots.dfy`, `SplitReports.dfy` | slot conservation with `ReportJobResult` as one step, then taken apart |
| `Plane.dfy`, `Sweep.dfy`, `Server.dfy` | handlers and reaper over tables and cache, as functions and as classes |
| `Heartbeats.dfy` | what heartbeats are answered, and whether they keep a worker from being reaped |
| `Push.dfy`, `Handover.dfy` | which worker a heartbeat's reply hands a job to, and how long a job waits for that |
| `Drain.dfy` | what a drain request guarantees, on the tables and in the cache |
| `Codec.dfy`, `Queue.dfy`, `Delivery.dfy`, `Scheduler.dfy` | queue entries, the scheduling loop, submission, the retry poller |
| `Samples.dfy` | rows used by the concrete runs |
| `Agent.dfy`, `Autoscaler.dfy`, `Leader.dfy`, `Backoff.dfy` | the worker agent, the scaling decision, leader election, the retry delay |

Each `pgx.BeginFunc` block or single SQL statement is one atomic step. A caller may pass any ids, epochs and statuses, so
"stale argument" needs no model of its own. Results of read-only queries (candidates, stale workers, due retries, the
drain candidate) enter as parameters tied to their `WHERE`, `ORDER BY` and `LIMIT` clauses by a predicate. Clocks, enqueue
failures, ping results and generated ids are parameters too.

## What the code does not keep

These plausible statements are false of the code. Each has a concrete run or input, and what does hold is stated exactly.

- "Only the current holder's report is accepted": `Fencing.LateReportClosesAnothersJob`. The guard is job and epoch, and
  epochs count per worker. Exact: `Fencing.ReportAppliedIff`.
- "Re-registration invalidates earlier assignments" (docs/05-sequence-diagrams.md:38): `Fencing.ReregistrationInvalidatesNothing`.
- "A QUEUED job has an unacknowledged queue entry" (docs/05-sequence-diagrams.md:91): `Delivery.ReapedJobHasNoEntry`, because
  the reaper enqueues nothing. Exact: `Delivery.QueuedJobHasEntryIff` and `Delivery.SilentOpeningsAreDeaths`.
- "A job runs only where its capabilities are": `Delivery.CommaMisplaces`. Exact: `Delivery.CapabilitySafetyIff`.
- "A job is handed to its holder only": `Push.TwoReceivers`. A worker that heartbeats between reporting a failure and
  forgetting the job gets it again once it is retried elsewhere. Exact: `Push.BackingStepIff`.
- "A worker whose heartbeats are acknowledged is not reaped": `Heartbeats.AcknowledgedYetReaped`. An accepted report sets the
  cached flush time to now without touching `last_heartbeat`, so the heartbeats of the next 15s are coalesced away while the
  row ages on; with the default timeout of 20s a healthy worker is marked DEAD. Exact: `Heartbeats.ClockIff`.
- "A draining worker is told so until resumed": `Drain.EvictionForgetsDrain`. Exact: `Drain.AgreesIff`.
- "The delay doubles up to a minute": `Backoff.BackoffOverflows`. Exact: `Backoff.BackoffExact`.
- "At most one replica believes it leads": `Leader.TwoMayBelieve`. Exact: `Leader.BelieverOwnsIff`; those whose session lives
  exclude each other, `Leader.LeadersExclude`.
- "A lock nobody leads with is free": `Leader.LostReplyWedges`. Exact: `Leader.OwnedIff`.

Four more hold as long as a whole `ReportJobResult` is one step, and fail once other transactions come between its parts:

- "A worker never holds more jobs than slots": `SplitReports.LateFreeOvercommits`. Exact: `SplitReports.OvercommitsIff`, and for the
  sum behind it `SplitReports.BalanceKeptIff`.
- "An idle worker has all its slots": `SplitReports.LostFreeLeaks`. Exact: `SplitReports.LeakIff`.
- "Scale-down picks idle workers": `SplitReports.BusyPicked`. Exact: `SplitReports.FullMeansIdleIff`.
- "A DEAD worker comes back only by registering": `SplitReports.LateFreeRevives`. Exact: `SplitReports.MoveRevivesIff`.

Where documentation and code disagree the model follows the code: there is no jitter in the backoff
(docs/09-design-rationale.md:45), successes write no history row (same line), and the reaper re-enqueues nothing
(docs/05-sequence-diagrams.md:91).

## Model

| member | source | states |
|---|---|---|
| `Slots.SlotsConserved` | internal/store/postgres/workers.go:539-652 | After every run of handler-atomic steps with arbitrary arguments, each worker's available_capacity plus its live jobs at its current epoch equals capacity_slots, whatever statuses heartbeats wrote. |
| `Slots.NeverOvercommitted` | internal/store/postgres/workers.go:539-591 | So no worker holds more live jobs at its current epoch than it has slots. |
| `Slots.ReportOutcome` | internal/grpcserver/report_result.go:36-71 | A report for a live job at its epoch closes it as SUCCESS or CANCELLED if that was reported; any other status retries it while budget is left and then fails it, with one history row naming the holder; every other report changes nothing. |
| `Slots.DeadHoldsNothing` | internal/store/postgres/workers.go:378-475 | In every run whose heartbeats come from agents, each live job's worker exists and is neither DEAD nor OFFLINE, so it can be reaped. |
| `Slots.FlushKeepsHoldersIff` | internal/store/postgres/workers.go:302-326 | The hypothesis on heartbeats is exact: a flush breaks that property iff it writes OFFLINE or DEAD over a worker that holds a live job. |
| `Slots.ScaleDownPicksIdle` | internal/store/postgres/workers.go:209-224 | With each report one step, a worker returned by PickDrainCandidate is READY, not asked to drain and holds no live job at its epoch even if a heartbeat wrote READY over a running one; drained at once it becomes DRAINING; the later drain changes no job and no capacity. |
| `Slots.PickIsOldest` | internal/store/postgres/workers.go:209-224 | If some worker qualifies, PickDrainCandidate returns one, and none that qualifies was registered earlier. |
| `Slots.FitsIff` | internal/store/postgres/workers.go:539-591 | From a state in which no worker holds more live jobs than slots, a transaction with any arguments breaks that iff it is an accepted assignment to a worker whose slots are all taken. |
| `Slots.FullIsIdleIff` | internal/store/postgres/workers.go:614-652 | From a state in which full workers are idle, a transaction breaks that iff it is a free that completes the capacity of a worker holding a job. |
| `Slots.RevivesIff` | internal/store/postgres/workers.go:614-652 | A transaction takes a DEAD row out of DEAD iff it is its instance's registration, an effective flush of another status, or a free at its epoch. |
| `SplitReports.AtomicRunsAreSplitRuns` | internal/grpcserver/report_result.go:43-102 | Every run with atomic reports is a run of the finer machine, ending in the same tables with no call in flight. |
| `SplitReports.RunCommits` | internal/grpcserver/report_result.go:43-102 | The tables after any interleaving are those after the run of its transactions in commit order. |
| `SplitReports.NoSlotLeaks` | internal/grpcserver/report_result.go:43-102 | With Get, recording and FreeWorker as separate steps in any interleaving: a worker's free slots + live jobs + frees in flight + losses of its own since its slots were last reset cover capacity_slots, and free slots never exceed it. |
| `SplitReports.IdleMeansFull` | internal/store/postgres/workers.go:614-652 | A worker with no live job, no free in flight and no outstanding loss of its own is back at full capacity, whatever other workers lost. |
| `SplitReports.LeakIff` | internal/grpcserver/report_result.go:73-101 | From a state in which every worker is covered, a step uncovers one iff it loses a free of a worker that has no credit to spare: a record charged to another worker than the one to be freed, or a call that dies before its free. |
| `SplitReports.LostFreeLeaks` | internal/grpcserver/report_result.go:75-80 | A run that leaves a one-slot worker idle with no free slot. |
| `SplitReports.BalanceKeptIff` | internal/grpcserver/report_result.go:63-102 | From a balanced state a step keeps the sum exactly equal to the capacity iff it is none of: a refill by death or registration with a free in flight for that epoch, a misdirected record at a current epoch, a lost free at a current epoch. |
| `SplitReports.ExactlyConserved` | internal/grpcserver/report_result.go:63-102 | So the sum is exact throughout any run without such a step. |
| `SplitReports.LateFreeOvercommits` | internal/store/postgres/workers.go:614-652 | A run after which a one-slot worker holds two live jobs at its current epoch. |
| `SplitReports.OvercommitsIff` | internal/store/postgres/workers.go:539-591 | A step takes some worker over its slots iff it is an accepted assignment to a worker whose slots are all taken. |
| `SplitReports.BalancedRunsFit` | internal/store/postgres/workers.go:539-591 | In a run without a step that upsets the balance no worker holds more live jobs than slots. |
| `SplitReports.FullMeansIdleIff` | internal/store/postgres/workers.go:614-652 | A step leaves a worker full and busy iff it is a free that completes the capacity of a worker holding a job. |
| `SplitReports.PickIsIdle` | internal/store/postgres/workers.go:209-224 | In every interleaving without such a free PickDrainCandidate returns only workers with no live job at their epoch. |
| `SplitReports.BalancedNeverRefills` | internal/store/postgres/workers.go:614-652 | A run whose balance is never upset has no such free. |
| `SplitReports.BusyPicked` | internal/store/postgres/workers.go:209-224 | A run after which PickDrainCandidate returns a worker that holds a live job. |
| `SplitReports.MoveRevivesIff` | internal/store/postgres/workers.go:614-652 | In the finer machine a DEAD row leaves DEAD iff the step is its instance's registration, an effective flush of another status, or the free of a report at its epoch. |
| `SplitReports.LateFreeRevives` | internal/store/postgres/workers.go:614-652 | A run in which a free that comes after the death mark turns the DEAD row READY. |
| `SplitReports.DeadHoldsNothingSplit` | internal/store/postgres/workers.go:378-475 | In every interleaving whose heartbeats come from agents each live job's worker exists and is neither DEAD nor OFFLINE. |
| `Plane.RedisMayBeWrong` | internal/grpcserver/heartbeat.go:57-204 | Row shape, slot conservation, history and "DEAD holds no live job" survive every run in which each cache read returns an arbitrary value and every caller passes arbitrary arguments. |
| `Plane.BeatIsSteps` | internal/grpcserver/heartbeat.go:100-183 | Whatever the cache answered, a heartbeat amounts on the tables to at most two transactions carrying its own arguments. |
| `Plane.PlaneSound` | internal/scheduler/reaper.go:79-91 | In every reachable state of tables and cache together the tables are sound and a DEAD worker has no cache entry. |
| `Plane.DeadRowFrozen` | internal/grpcserver/heartbeat.go:63-98 | No handler-atomic event but the worker's own registration changes a DEAD worker's row in any column. |
| `Plane.DeadUntilRegistered` | internal/grpcserver/heartbeat.go:63-98 | With handler calls and sweep elements atomic, from death to the next registration, over any run: the row is unchanged, the worker holds no live job, and each of its heartbeats is answered "must re-register". |
| `Plane.HeartbeatRevivesIff` | internal/store/postgres/workers.go:302-326 | With an arbitrary cache answer a heartbeat revives a DEAD row iff a cache entry at its epoch survived and the flush goes through. |
| `Heartbeats.AnswerIff` | internal/grpcserver/heartbeat.go:63-98 | In every run, whatever is cached: a heartbeat is told to register iff its worker is unknown or DEAD, refused as stale iff the row has another epoch, and acknowledged iff the row has its epoch. |
| `Heartbeats.AckCarriesCurrentEpoch` | internal/grpcserver/heartbeat.go:95-98 | In every run an acknowledged heartbeat carries the current epoch of its worker's row. |
| `Heartbeats.SupersededBeatRefused` | internal/grpcserver/heartbeat.go:95-98 | Once a worker has registered again, no heartbeat under an earlier epoch is ever acknowledged. |
| `Handover.PendingIff` | internal/grpcserver/heartbeat.go:103-151 | An assignment not yet handed over stays so through an event iff the event is none of: an acknowledged heartbeat of its worker, the worker's registration, sweep or eviction, an accepted report for the job or one that frees the worker, another worker's heartbeat that marks the job RUNNING under the same epoch number. |
| `Handover.AssignmentWaits` | internal/scheduler/loop.go:202-217 | Over every run, from an assignment until one of those, a heartbeat of the worker that reports no job is handed the job. |
| `Heartbeats.ClockIff` | internal/grpcserver/report_result.go:93-99 | From a state in which no cached flush time is later than its row's last_heartbeat, an event breaks that iff it is an accepted report that frees a worker last seen in an earlier second. |
| `Heartbeats.AcknowledgedIsSpared` | internal/grpcserver/heartbeat.go:165-183 | In every run without such a report, a worker whose heartbeat was just acknowledged is not stale for any sweep within the timeout less 15 seconds. |
| `Heartbeats.AcknowledgedYetReaped` | internal/grpcserver/report_result.go:93-99 | A run with a report in which a sweep with the 20s timeout finds a worker stale six seconds after its heartbeat was acknowledged. |
| `Heartbeats.MirrorIff` | internal/grpcserver/heartbeat.go:165-183 | From a state in which every cached status is its row's, an event breaks that iff it is an acknowledged heartbeat with another status that names a job that does not exist. |
| `Heartbeats.StatusReachesRow` | internal/grpcserver/heartbeat.go:210-227 | In every run without such a heartbeat, an acknowledged heartbeat leaves its worker's row with the status it reported, REGISTERING standing for an unspecified one. |
| `Heartbeats.CountedIff` | internal/grpcserver/heartbeat.go:185-193 | From a state in which every cached capacity is its row's, an event breaks that iff it is an acknowledged heartbeat or an accepted assignment that brings another number. |
| `Push.PushGoesToHolder` | internal/grpcserver/heartbeat.go:103-151 | In every run of handler calls in which no accepted heartbeat claims to be BUSY on a job that is neither held by its sender at its epoch nor closed, a job handed over with a reply is ASSIGNED to the sender under the reply's epoch. |
| `Push.OneReceiver` | internal/grpcserver/heartbeat.go:103-151 | So no two workers are handed the same job in the same state. |
| `Push.BackingStepIff` | internal/grpcserver/heartbeat.go:57-204 | An event keeps every BUSY claim of cache and rows backed by the job rows iff it is not an accepted heartbeat whose own claim is unbacked; registrations, reports, assignments, sweeps, drains, releases and evictions all keep it. |
| `Push.TwoReceivers` | cmd/worker-agent/main.go:352-373 | A run in which the idle heartbeats of two workers are both handed the same job. |
| `Queue.NoEarlyAck` | internal/scheduler/loop.go:132-228 | With Get, listing, AssignJob and ack as separate steps of any number of loops, an entry is acknowledged only after the QUEUED period it was written for has ended. |
| `Delivery.QueuedJobHasEntryIff` | internal/scheduler/loop.go:132-228 | After every run a QUEUED job has an unacknowledged entry for its current period iff the period's enqueue has been called and succeeded and the period is not one nobody enqueues. |
| `Delivery.SilentOpeningsAreDeaths` | internal/store/postgres/workers.go:436-443 | The transactions not followed by an enqueue open a QUEUED period exactly for the jobs of a worker they mark dead. |
| `Delivery.ReapedJobHasNoEntry` | internal/scheduler/reaper.go:79-91 | A run that ends with a job QUEUED and every entry acknowledged. |
| `Delivery.UninterruptedRound` | internal/scheduler/loop.go:132-222 | Delivery, listing, assignment and acknowledgement without interruption assign the QUEUED job to the best candidate if the guards hold, and acknowledge iff that succeeded or there was nothing to assign. |
| `Delivery.RoundPlaces` | internal/store/postgres/workers.go:502-526 | If some READY worker with a free slot covers a QUEUED job's decoded requirements, an uninterrupted round assigns the job, to a worker with at least as large a free fraction, and acknowledges the entry. |
| `Delivery.UninterruptedRelease` | internal/scheduler/retrypoller.go:66-92 | Releasing one due job makes it QUEUED, with an entry carrying its own capabilities iff the enqueue succeeds. |
| `Queue.CapabilitySafety` | internal/scheduler/loop.go:140-191 | Though candidates are read outside the transaction and the requirements travel as a string, every live job at its holder's current epoch has its requirements among the holder's capabilities, if the list survives the encoding. |
| `Delivery.CapabilitySafetyIff` | internal/store/redis/queue.go:60-70 | For every list of requirements: no run places a job with that list on a worker lacking some of it iff no name holds a comma and the list is not the one empty name. |
| `Delivery.CommaMisplaces` | internal/scheduler/loop.go:140-144 | A run in which a job that requires "a,b" is live on a worker that has only "a" and "b". |
| `Queue.GetIsRight` | internal/scheduler/loop.go:146-176 | A job seen in any status but QUEUED, or an entry that names none, justifies the acknowledgement. |
| `Fencing.EpochCountsRegistrations` | internal/store/postgres/workers.go:69-112 | A worker's epoch equals the number of successful registrations of its instance_id. |
| `Fencing.NeverIssuedTwice` | internal/store/postgres/workers.go:55-158 | No (worker, epoch) pair is handed out twice in a run. |
| `Fencing.SupersededTokenIsInert` | internal/store/postgres/workers.go:302-326 | Once a worker has registered again, a heartbeat flush, assignment, free or death mark carrying its earlier epoch changes nothing at all. |
| `Fencing.LiveJobMatchesLastPlacement` | internal/store/postgres/workers.go:539-591 | A live job carries the worker and epoch of its newest successful assignment. |
| `Fencing.ReportAppliedIff` | internal/store/postgres/jobs.go:271-286 | A report is applied iff the job is live and its newest assignment carries the report's epoch number. |
| `Fencing.StartAppliedIff` | internal/store/postgres/jobs.go:254-263 | A heartbeat marks a job RUNNING iff it is ASSIGNED and its newest assignment carries the heartbeat's epoch number. |
| `Fencing.OldReportRefusedAfterReregistration` | internal/store/postgres/jobs.go:316-340 | A report for an assignment is refused once the same worker registered anew and was assigned the job again. |
| `Fencing.ReregistrationInvalidatesNothing` | internal/store/postgres/workers.go:75-112 | Registering again leaves a report under the old epoch acceptable, and that report then frees no slot. |
| `Fencing.LateReportClosesAnothersJob` | internal/store/postgres/jobs.go:271-286 | A run in which a dead worker's late report closes a job that another worker holds under the same epoch number. |
| `JobLife.AssignmentsAccountedFor` | internal/grpcserver/report_result.go:63-104 | Per job and run: assignments = accepted reports + requeues by worker death + (1 if live now). |
| `JobLife.FleetAccounting` | internal/scheduler/loop.go:191-221 | The same for the whole fleet, with a death counting every job it requeued. |
| `JobLife.TerminalForever` | internal/store/postgres/jobs.go:254-286 | A job in SUCCESS, FAILED or CANCELLED is never changed again, nor is its history. |
| `JobLife.RetryBudget` | internal/store/postgres/jobs.go:316-385 | Attempt numbers are exactly 1..n though two functions write them; n = retries + death rows + (1 if FAILED); retries stay within max_retries; FAILED iff max_retries + 1 failure reports were accepted, however many workers died. |
| `JobLife.HistoryCounts` | internal/store/postgres/workers.go:436-463 | Every history row and every retry stands for one accepted failure or one death of the run. |
| `JobLife.ParkedBackoff` | internal/store/postgres/jobs.go:348-359 | A job with max_retries of at most 33 parks with retry_at between 2s and 60s ahead. |
| `JobLife.ParkedExactly` | internal/store/postgres/jobs.go:348-359 | A job that parks is due min(2^n, 60) seconds after the report, n being its new retry count, iff n is one for which the 64-bit arithmetic holds, and so whenever max_retries is at most 33. |
| `JobLife.RankStep` | internal/store/postgres/jobs.go:316-385 | A rank over remaining retries and status falls at every status change except a death requeue, which raises it by at most 2. |
| `JobLife.BoundedLife` | internal/store/postgres/jobs.go:316-385 | No run changes a job's status more than 4·max_retries + 3 + 3·deaths times. |
| `Invariants.EveryRunKeepsShape` | internal/store/postgres/jobs.go:254-440 | After every run of arbitrary transactions: worker and epoch are set iff live or terminal, retry_at iff RETRYING, finished_at iff terminal, the holder has reached the assignment's epoch, last_heartbeat is set, instance ids are unique, history is numbered. |
| `JobSteps.JobStep` | internal/store/postgres/jobs.go:254-440 | For every transaction and job row: which change happens, by guards written out, and every column of the row after it. |
| `JobSteps.HistoryGrows` | internal/store/postgres/jobs.go:316-385 | For every transaction and job: exactly which history row is added, with number, worker and cause. |
| `WorkerSteps.WorkerStep` | internal/store/postgres/workers.go:302-744 | For every transaction and worker row: the guard and every column of the row after it, written out. |
| `WorkerSteps.WorkerAppears` | internal/store/postgres/workers.go:55-158 | A row appears exactly by the first registration of an instance, with the columns it asked for. |
| `Provenance.LastHeartbeatIsLastSeen` | internal/store/postgres/workers.go:302-326 | Over every run a worker's last_heartbeat is the time of its newest registration or of the newest flush that found the row at its epoch and its job in existence. |
| `Provenance.RegistrationColumns` | internal/store/postgres/workers.go:55-158 | Over every run capabilities and slots are those of the newest registration, at least one slot; the epoch counts the registrations; registered_at is the first. |
| `Provenance.DrainFlagIsWish` | internal/store/postgres/workers.go:673-744 | Over every run drain_requested is what the last drain or resume that found the worker neither OFFLINE nor DEAD asked for. |
| `Sweep.SweepReapsAll` | internal/scheduler/reaper.go:72-92 | After one sweep from the end of any interleaving no live job sits on a worker older than the cut-off, and exactly the live jobs of the swept workers went back to QUEUED, old-epoch ones included. |
| `Sweep.SweepReapsIff` | internal/store/postgres/workers.go:338-365 | After any run a sweep reaps exactly the workers, OFFLINE and DEAD ones apart, whose newest flush or registration lies before the cut-off, requeueing their live jobs with a history row each, and leaves every other worker, its jobs and their history as they are. |
| `Sweep.SweepOneMore` | internal/store/postgres/workers.go:378-475 | Marking the swept workers dead one by one, in any order, adds up to the whole sweep. |
| `Drain.QuietStaysIff` | internal/store/postgres/workers.go:673-744 | A worker asked to drain and not READY stays so through a transaction iff it is not its resume, its registration or a heartbeat flush that writes READY. |
| `Drain.DrainedGetsNoWork` | internal/store/postgres/workers.go:673-704 | After an accepted drain request no assignment to the worker takes effect until one of those three happens. |
| `Drain.ResumeUndoesRequestIff` | internal/store/postgres/workers.go:713-744 | Resume right after request restores the database iff the worker was neither asked to drain nor DRAINING. |
| `Drain.RemembersStepIff` | internal/store/redis/cache.go:56-81 | Because the two cache writers touch disjoint fields, the cached drain flag is set after an event iff the event is an accepted drain, or the flag was set and the event is no eviction, sweep or accepted resume of the worker. |
| `Drain.RemembersIff` | internal/api/handlers_workers.go:112-184 | Over any run the cached flag is set iff the last event that touches it was an accepted drain. |
| `Drain.CachedWorkerToldIff` | internal/grpcserver/heartbeat.go:68-73 | A worker with a cache entry whose heartbeat is acknowledged is told to drain iff that is so. |
| `Drain.AgreesIff` | internal/grpcserver/heartbeat.go:185-203 | From a state in which every cached flag equals its row's drain_requested, an event breaks that iff it writes an entry afresh for an uncached worker whose row asks it to drain, be it a heartbeat, a registration, a report or an assignment. |
| `Drain.ToldIffRequested` | internal/grpcserver/heartbeat.go:63-98 | In every run without such an event each acknowledged heartbeat tells its worker exactly what the row's drain_requested says. |
| `Drain.EvictionForgetsDrain` | internal/grpcserver/heartbeat.go:63-98 | The run register, drain, evict, heartbeat: that heartbeat is told to drain, the next one is not, and the row still asks for it. |
| `Codec.RoundTripIff` | internal/store/redis/queue.go:60-77 | Splitting the joined capability list gives the list back iff no name holds a comma and it is not the single empty name. |
| `Codec.FilterSoundIff` | internal/scheduler/loop.go:140-144 | The candidate filter on the decoded list admits only workers with every required capability iff the list is of that kind. |
| `Codec.SelectLeastLoaded` | internal/scheduler/algorithm.go:17-33 | Returns the first candidate with the largest free fraction among those with slots, and none iff there are none. |
| `Scheduler.SchedulingLoop.ProcessMessage` | internal/scheduler/loop.go:132-222 | Acknowledges iff the entry names no job, the job is not QUEUED, or the best listed candidate was assigned; otherwise the entry stays and tables and cache are unchanged. |
| `Scheduler.StreamQueue.Enqueue` | internal/store/redis/queue.go:60-77 | Appends one entry, from which a reader decodes the capability list iff it survives the encoding. |
| `Scheduler.JobsHandler.SubmitJob` | internal/api/handlers_jobs.go:91-122 | A submission whose row exists is answered with a conflict and enqueues nothing; a new one is QUEUED with one entry of the submitted priority, its id and the joined capabilities, or none if the enqueue fails. |
| `Scheduler.RetryPoller.Poll` | internal/scheduler/retrypoller.go:59-96 | One pass makes every listed job QUEUED; each one whose enqueue succeeds gets an entry with its own priority, id and joined capabilities; there are exactly as many new entries as successes, after the old ones. |
| `Scheduler.PollReleasesExactlyTheDue` | internal/store/postgres/jobs.go:400-425 | After a pass every listed job is QUEUED without a retry time, no other job changed, and a list shorter than the limit leaves none due. |
| `Agent.AgentSafe` | cmd/worker-agent/main.go:259-302 | Under every interleaving of receive and job goroutines: at most one job executes, each startJob has one finishJob or is the job held, none starts while draining, the reported status is BUSY if a job is held, else DRAINING if draining, else READY, and the reported capacity is zero with a job and full without. |
| `Agent.DrainingFollowsReplies` | cmd/worker-agent/main.go:293-300 | Under every interleaving the agent is draining iff the last reply it finished handling asked for it. |
| `Agent.TwoRunTogetherIff` | cmd/worker-agent/main.go:84-88 | Two assignments of one id in a row execute together iff the id is empty, which is why AgentSafe asks for non-empty ids; the server pushes no empty id (internal/grpcserver/heartbeat.go:112). |
| `Agent.AgentState.HandleReply` | cmd/worker-agent/main.go:271-302 | One uninterrupted round of the receive loop is the machine's steps for that reply; a job is started iff one is offered, none is held and the agent is not draining; the reported status keeps following from job and drain flag. |
| `Agent.AgentState.StartJob` | cmd/worker-agent/main.go:59-65 | The machine's start step; afterwards the status follows from job and drain flag iff the id is not empty. |
| `Agent.AgentState.FinishJob` | cmd/worker-agent/main.go:72-82 | The machine's finish step; it restores that relation from any state. |
| `Agent.AgentState.SetDraining` | cmd/worker-agent/main.go:97-106 | Keeps that relation, and answers whether this was the first request. |
| `Agent.AgentState.ClearDraining` | cmd/worker-agent/main.go:123-132 | Keeps that relation, and answers whether the agent was draining. |
| `Autoscaler.SamplesAreTheLastDepths` | internal/scheduler/autoscaler.go:186-191 | After n ticks the buffer is the last min(n, window) recorded depths. |
| `Autoscaler.ScaleUpIsJustified` | internal/scheduler/autoscaler.go:129-209 | Every scale-up stands above the threshold with a full window of non-decreasing depths behind it. |
| `Autoscaler.AboveThreshold` | internal/scheduler/autoscaler.go:150-159 | Above the threshold means more queued jobs than threshold times fleet, or any queued job if the fleet is empty. |
| `Autoscaler.BelowThreshold` | internal/scheduler/autoscaler.go:150-159 | Below the scale-down threshold, with a READY worker, means fewer queued jobs than threshold times fleet. |
| `Autoscaler.FiringsAreSpaced` | internal/scheduler/autoscaler.go:164-173 | Consecutive scale-ups, and consecutive completed drains, lie at least one cooldown apart. |
| `Autoscaler.FiringsPerSpan` | internal/scheduler/autoscaler.go:164-173 | So a span T holds at most T/cooldown + 1 of either. |
| `Autoscaler.DefaultDelta` | internal/scheduler/autoscaler.go:211-223 | With the defaults a scale-up recommends max(1, ⌊fleet/4⌋) workers. |
| `Autoscaler.DefaultSpacing` | internal/scheduler/autoscaler.go:59-68 | With the defaults scale-ups lie at least five minutes apart and completed drains ten. |
| `Autoscaler.DefaultTrigger` | internal/scheduler/autoscaler.go:59-68 | With the defaults a scale-up has more than five queued jobs per worker and three readings that do not fall. |
| `Autoscaler.Scaler.Tick` | internal/scheduler/autoscaler.go:129-184 | Over all readings so far: it scales up iff they end in a full non-decreasing window above the threshold and a cooldown has passed, recommending the configured share of the fleet and at least one; else it scales down iff below the other threshold with a READY worker and a cooldown after the last completed drain. |
| `Autoscaler.Scaler.TrendIsFlatOrRising` | internal/scheduler/autoscaler.go:199-209 | True iff the window is full and no sample lies below its predecessor. |
| `Leader.OkRun` | internal/scheduler/leader.go:67-117 | Over all runs: isLeader iff a connection is held, and a held connection whose session is alive owns the lock; no assumption on failed pings. |
| `Leader.LeadersExclude` | internal/scheduler/leader.go:67-117 | Two replicas are never both leader with live sessions. |
| `Leader.OwnedIff` | internal/scheduler/leader.go:67-117 | A step keeps the lock singly held by the leading connection iff no ping and no unlock fails on a session that is still alive, and no lock query fails after Postgres granted it. |
| `Leader.BelieverOwnsIff` | internal/scheduler/leader.go:42-46 | After every run a replica that believes it leads owns the lock iff its session is alive. |
| `Leader.LostReplyWedges` | internal/scheduler/leader.go:91-95 | A run in which a lost reply leaves the lock with a pooled session: nobody leads, and another replica cannot. |
| `Leader.LockNeverStranded` | internal/scheduler/leader.go:107-117 | In every run without such a step a leader's release leaves the lock free. |
| `Leader.TwoMayBelieve` | internal/scheduler/leader.go:42-46 | A run in which two replicas answer IsLeader with true, one on a dead session. |
| `Leader.LeaderElector.TryAcquireOrVerify` | internal/scheduler/leader.go:67-105 | Afterwards the replica leads iff it led and the ping succeeded, or it got an answer to a query on a live pooled connection for which the lock was free or its own; a query that fails after the grant is covered; a live held connection keeps owning the lock. |
| `Leader.LeaderElector.Release` | internal/scheduler/leader.go:107-117 | Afterwards the replica does not lead, and if it led on a live session that took the lock once and the unlock takes effect, the lock is free. |
| `Backoff.BackoffExact` | internal/store/postgres/jobs.go:291-300 | In 64-bit arithmetic the delay never exceeds 60s; it is min(2^attempt, 60) seconds iff attempt ≤ 33, or attempt ≤ 54 and bit 63 − attempt of 10⁹ is zero; otherwise it is not positive. |
| `Backoff.BackoffMonotone` | internal/store/postgres/jobs.go:291-300 | For attempts 1..33 the delay is non-decreasing and lies in 2s..60s. |
| `Backoff.BackoffOverflows` | internal/store/postgres/jobs.go:291-300 | Attempt 34 gets a negative delay. |
| `Store.Tables.Register` | internal/store/postgres/workers.go:55-158 | Upsert and promotion to READY together leave the transaction function's database and hand out its pair. |
| `Store.Tables.UpdateHeartbeat` | internal/store/postgres/workers.go:302-326 | Writes status, job and heartbeat time iff the epoch matches and the named job exists, as WorkerSteps.WorkerStep spells out. |
| `Store.Tables.MarkDeadAndRequeue` | internal/store/postgres/workers.go:378-475 | The row-by-row loop requeues exactly the jobs held at its start and gives each the next attempt number. |
| `Store.Tables.AssignJob` | internal/store/postgres/workers.go:539-591 | Takes effect on both rows iff the worker is READY at the epoch with a free slot and the job is QUEUED; otherwise on neither. |
| `Store.Tables.FreeWorker` | internal/store/postgres/workers.go:614-652 | One slot back up to the capacity, DRAINING if a drain was requested, only at the given epoch. |
| `Store.Tables.RequestDrain` | internal/store/postgres/workers.go:673-704 | Sets the flag, and READY becomes DRAINING, unless the worker is OFFLINE or DEAD. |
| `Store.Tables.ResumeDrain` | internal/store/postgres/workers.go:713-744 | Clears the flag, and DRAINING becomes READY, unless the worker is OFFLINE or DEAD. |
| `Store.Tables.Create` | internal/store/postgres/jobs.go:67-110 | Inserts a QUEUED job with its budget, 3 if none is given, unless the row exists; the answer says which. |
| `Store.Tables.MarkRunning` | internal/store/postgres/jobs.go:254-263 | ASSIGNED at this epoch becomes RUNNING; the answer says whether. |
| `Store.Tables.Complete` | internal/store/postgres/jobs.go:271-286 | A live job at this epoch is closed; the answer says whether. |
| `Store.Tables.RetryOrFail` | internal/store/postgres/jobs.go:316-385 | A live job at this epoch is parked for the next retry's delay or failed by its budget, with one history row, as JobSteps.JobStep and HistoryGrows spell out; the answer says whether. |
| `Store.Tables.MarkQueuedFromRetry` | internal/store/postgres/jobs.go:431-440 | RETRYING becomes QUEUED; the answer says whether. |
| `Server.WorkerCache.SetState` | internal/store/redis/cache.go:56-68 | Writes every field but the drain flag. |
| `Server.WorkerCache.SetDrainRequested` | internal/store/redis/cache.go:74-79 | Writes the drain flag and nothing else. |
| `Server.ControlServer.RegisterWorker` | internal/grpcserver/register.go:60-120 | Registers, then seeds the cache with the issued epoch. |
| `Server.ControlServer.HandleHeartbeat` | internal/grpcserver/heartbeat.go:57-204 | Tables, cache and reply as the heartbeat functions give them, for hit and miss, flush and coalesced beat; what they amount to over runs is stated by the members of Heartbeats, Push and Drain. |
| `Server.ControlServer.PendingAssignment` | internal/grpcserver/heartbeat.go:103-151 | Hands over the cached job iff the worker does not report one and the row is still ASSIGNED. |
| `Server.ControlServer.ReportJobResult` | internal/grpcserver/report_result.go:22-138 | Record, free and cache correction end in the handler-atomic step; discarded iff the guard refused; an accepted SUCCESS or CANCELLED closes the job as such, anything else leaves it RETRYING or FAILED by its budget. |
| `Server.ControlServer.Drain` | internal/api/handlers_workers.go:112-135 | Drain request mirrored into both cache writers, iff the worker is neither OFFLINE nor DEAD. |
| `Server.ControlServer.Resume` | internal/api/handlers_workers.go:137-184 | The same for resume. |
| `Server.ControlServer.SweepAll` | internal/scheduler/reaper.go:72-92 | The loop over the workers listed at its start marks dead and evicts exactly those not seen for longer than the timeout, requeues their jobs, and leaves every other row as it is. |

## Left out

- Authentication, HTTP routing, list queries, configuration, metrics, logs, generated protobuf code, scripts and deployment files.
- Columns that decide nothing: labels, repository, branch, log references, hostnames, `worker_events`, history timestamps. `created_at` is dropped, so a job id alone names its row.
- The idempotency key of `Create`, whose check-then-insert race the code documents: a repeated submission is one with an id that exists.
- Request validation: empty ids and malformed UUIDs are answered with an error before any step modelled here.
- Failing database calls: a transaction that errors changes nothing and is covered by not taking the step.
- Failing cache calls in `Plane` and `Server`: there every cache write and delete succeeds, an `Evict` event aside. `Plane.RedisMayBeWrong` covers the tables when the cache misbehaves in any way.
- Redis key expiry of the liveness key, stream trimming, the order among priority streams and the ten-entry read limit.
- An enqueue call that reports an error although the entry was appended counts as failed.
- SQL isolation anomalies: transactions are taken as serial.
- 32-bit counters: retries, slots and queue depths are unbounded integers. Only the backoff is modelled in machine arithmetic.
- Codec.SelectLeastLoaded: compares fractions as real numbers, so two that differ by less than a floating-point step are still told apart. Autoscaler.Scaler.Tick likewise.
- Autoscaler.Scaler.Tick: whether a chosen scale-down found and drained a worker is an input; that call is Server.ControlServer.Drain on a worker that Slots.ScaleDownPicksIdle speaks of.
- Whether an older, unacknowledged entry of the same job, redelivered, happens to pick up a job QUEUED without an entry of its own.
- Plane, Heartbeats, Handover, Push, and Drain where it speaks of the cache: each handler call, sweep element and cache write belonging to it is one step. Only `ReportJobResult` on the tables and the scheduling loop are taken apart.
- Drain: a re-registered worker keeps `drain_requested` and becomes READY, so it is assigned work until its next free; this is one of the three ways out in Drain.QuietStaysIff.
- Liveness and fairness: nothing says that a job is eventually assigned.
