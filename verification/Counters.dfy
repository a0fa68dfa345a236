/** The operational counters the pool writes. */
module Counters {
  import PoolModel

  class Counters {
    const queueCapacity: int
    var queueDepth: int
    var jobsProcessed: int
    var jobsFailed: int
    var jobsDeadLettered: int
    var jobsAbandoned: int

    ghost function View(): PoolModel.Metrics
      reads this
    {
      PoolModel.Metrics(queueDepth, jobsProcessed, jobsFailed, jobsDeadLettered, jobsAbandoned)
    }

    constructor (queueCapacity: int)
      ensures View() == PoolModel.Metrics(0, 0, 0, 0, 0)
      ensures this.queueCapacity == queueCapacity
    {
      this.queueCapacity := queueCapacity;
      queueDepth, jobsProcessed, jobsFailed, jobsDeadLettered, jobsAbandoned := 0, 0, 0, 0, 0;
    }

    method AddQueueDepth(delta: int)
      modifies this`queueDepth
      ensures queueDepth == old(queueDepth) + delta
    {
      queueDepth := queueDepth + delta;
    }

    method JobProcessed()
      modifies this`jobsProcessed
      ensures jobsProcessed == old(jobsProcessed) + 1
    {
      jobsProcessed := jobsProcessed + 1;
    }

    method JobFailed()
      modifies this`jobsFailed
      ensures jobsFailed == old(jobsFailed) + 1
    {
      jobsFailed := jobsFailed + 1;
    }

    method JobDeadLettered()
      modifies this`jobsDeadLettered
      ensures jobsDeadLettered == old(jobsDeadLettered) + 1
    {
      jobsDeadLettered := jobsDeadLettered + 1;
    }

    method AddJobsAbandoned(count: int)
      modifies this`jobsAbandoned
      ensures jobsAbandoned == old(jobsAbandoned) + count
    {
      jobsAbandoned := jobsAbandoned + count;
    }
  }
}
