/** File system events turned into indexing jobs. The event source and the
    task scheduling are not part of this model; an event is a value and the
    clock reading is a parameter. */
module Watcher {
  import opened Models
  import opened JobQueue

  datatype EventKind = Created | Modified | Deleted | Moved(destPath: string)

  datatype FileEvent = FileEvent(kind: EventKind, srcPath: string, isDirectory: bool)

  /** The (path, operation) requests an event produces, in scheduling order. */
  function Requests(e: FileEvent): (r: seq<(string, string)>)
    ensures e.isDirectory <==> r == []
    ensures !e.isDirectory && !e.kind.Moved? ==> |r| == 1 && r[0].0 == e.srcPath
    ensures !e.isDirectory && e.kind.Created? ==> r[0].1 == CreateOp
    ensures !e.isDirectory && e.kind.Modified? ==> r[0].1 == UpdateOp
    ensures !e.isDirectory && e.kind.Deleted? ==> r[0].1 == DeleteOp
    ensures !e.isDirectory && e.kind.Moved? ==>
              r == [(e.srcPath, DeleteOp), (e.kind.destPath, CreateOp)]
  {
    if e.isDirectory then []
    else match e.kind
      case Created => [(e.srcPath, CreateOp)]
      case Modified => [(e.srcPath, UpdateOp)]
      case Deleted => [(e.srcPath, DeleteOp)]
      case Moved(dest) => [(e.srcPath, DeleteOp), (dest, CreateOp)]
  }

  /** `_add_to_queue`'s job: HIGH priority, stamped with the clock reading. */
  function MakeJob(path: string, operation: string, now: real): (j: IndexingJob)
    ensures j.filePath == path && j.operation == operation
    ensures j.priority == High && j.timestamp == now
  {
    IndexingJob(path, High, operation, now)
  }

  /** The jobs an event produces. */
  function JobsFor(e: FileEvent, now: real): (r: seq<IndexingJob>)
    ensures |r| == |Requests(e)|
    ensures forall i :: 0 <= i < |r| ==>
              r[i] == MakeJob(Requests(e)[i].0, Requests(e)[i].1, now)
  {
    var q := Requests(e);
    seq(|q|, i requires 0 <= i < |q| => MakeJob(q[i].0, q[i].1, now))
  }

  /** Every job an event produces has HIGH priority, and none is made for a
      directory; a move yields a delete of the source then a create of the
      destination. */
  lemma JobsForShape(e: FileEvent, now: real)
    ensures e.isDirectory ==> JobsFor(e, now) == []
    ensures forall j :: j in JobsFor(e, now) ==> j.priority == High && j.timestamp == now
    ensures !e.isDirectory && e.kind.Moved? ==>
              JobsFor(e, now) == [IndexingJob(e.srcPath, High, DeleteOp, now),
                                  IndexingJob(e.kind.destPath, High, CreateOp, now)]
  {
  }

  /** The jobs of `jobs` whose enqueueing succeeded (`ok[i]`), in order. */
  function Accepted(jobs: seq<IndexingJob>, ok: seq<bool>): (r: seq<IndexingJob>)
    requires |ok| == |jobs|
    ensures |r| <= |jobs|
    ensures forall j :: j in r ==> j in jobs
    decreases |jobs|
  {
    if jobs == [] then []
    else
      var n := |jobs| - 1;
      Accepted(jobs[..n], ok[..n]) + (if ok[n] then [jobs[n]] else [])
  }

  lemma {:induction false} AcceptedAll(jobs: seq<IndexingJob>, ok: seq<bool>)
    requires |ok| == |jobs|
    requires forall i :: 0 <= i < |ok| ==> ok[i]
    ensures Accepted(jobs, ok) == jobs
    decreases |jobs|
  {
    if jobs != [] {
      var n := |jobs| - 1;
      AcceptedAll(jobs[..n], ok[..n]);
      assert jobs[..n] + [jobs[n]] == jobs;
    }
  }

  class FileSystemWatcher {
    const queue: IndexingQueue

    constructor (queue: IndexingQueue)
      ensures this.queue == queue
    {
      this.queue := queue;
    }

    /** `_add_to_queue`: when the put raises (`putOk` false) the job is
        dropped and nothing else happens. */
    method AddToQueue(path: string, operation: string, now: real, putOk: bool)
      modifies queue
      ensures queue.jobs == old(queue.jobs) + (if putOk then [MakeJob(path, operation, now)] else [])
    {
      if putOk {
        queue.Put(MakeJob(path, operation, now));
      }
    }

    /** `on_created`, `on_modified`, `on_deleted` and `on_moved`: schedules
        one `_add_to_queue` per request of the event; `putOk[i]` is whether
        the i-th put succeeds. */
    method OnEvent(e: FileEvent, now: real, putOk: seq<bool>)
      requires |putOk| == |Requests(e)|
      modifies queue
      ensures queue.jobs == old(queue.jobs) + Accepted(JobsFor(e, now), putOk)
    {
      var jobs := JobsFor(e, now);
      if e.isDirectory {
        return;
      }
      match e.kind {
        case Moved(dest) =>
          AddToQueue(e.srcPath, DeleteOp, now, putOk[0]);
          AddToQueue(dest, CreateOp, now, putOk[1]);
          assert jobs[..1] == [jobs[0]];
        case Created =>
          AddToQueue(e.srcPath, CreateOp, now, putOk[0]);
        case Modified =>
          AddToQueue(e.srcPath, UpdateOp, now, putOk[0]);
        case Deleted =>
          AddToQueue(e.srcPath, DeleteOp, now, putOk[0]);
      }
    }
  }
}
