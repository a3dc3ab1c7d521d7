/** The job queue as the orchestrator sees it: jobs are only ever added. */
module JobQueue {

  class JobQueue {
    /** Order ids of the enqueued "advance this order" jobs, oldest first. */
    var jobs: seq<string>

    constructor ()
      ensures jobs == []
    {
      jobs := [];
    }

    method Add(orderId: string)
      modifies this
      ensures jobs == old(jobs) + [orderId]
    {
      jobs := jobs + [orderId];
    }
  }
}
