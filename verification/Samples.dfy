/** Rows for the concrete runs: one-slot workers at epoch 1, and a job with three retries. */
module Samples {
  import opened Rows

  function OneSlot(name: InstanceId, status: WorkerStatus, avail: int, job: Option<JobId>): Worker {
    Worker(name, [], status, 1, avail, 1, job, Some(0), 0, false)
  }

  /** Held, if at all, under epoch 1. */
  function Task(status: JobStatus, holder: Option<WorkerId>): Job {
    Job(5, [], status, holder, if holder.Some? then Some(1) else None, 0, 3, None, None, None)
  }
}
