/** The indexing job queue shared by the watcher and the manager, as a
    first-in first-out sequence. Capacity waits and the consumer loop are
    concurrency and are not part of this model. */
module JobQueue {
  import opened Models

  /** Capacity the manager creates its queue with. */
  const MaxQueueSize: nat := 10000

  class IndexingQueue {
    var jobs: seq<IndexingJob>

    constructor ()
      ensures jobs == []
    {
      jobs := [];
    }

    /** `put`: appends at the back; nothing is merged or reordered. */
    method Put(job: IndexingJob)
      modifies this
      ensures jobs == old(jobs) + [job]
    {
      jobs := jobs + [job];
    }

    function Size(): (n: nat)
      reads this
      ensures n == |jobs|
    {
      |jobs|
    }
  }
}
