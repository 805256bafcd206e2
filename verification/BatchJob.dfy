/** The job record of a batch connection test and the two updates made to it under the lock. */
module BatchJob {
  import opened Wrappers

  datatype ItemStatus = Pending | Success | Failed | Cancelled

  datatype Item = Item(hostId: int, status: ItemStatus, latencyMs: int, serverVersion: string, authMethod: string,
                       errorCode: string, message: string)

  datatype JobStatus = Running | JobCompleted | JobCancelled

  /** A snapshot of the record, as `Get` clones it. */
  datatype Job = Job(status: JobStatus, total: nat, completed: nat, success: nat, failed: nat, cancelled: nat,
                     progress: real, items: seq<Item>, completedAt: Option<int>)

  function NewItem(hostId: int): Item {
    Item(hostId, Pending, 0, "", "", "", "")
  }

  function CancelledItem(hostId: int): Item {
    Item(hostId, Cancelled, 0, "", "", "CANCELLED", "connection test was cancelled")
  }

  function Count(items: seq<Item>, status: ItemStatus): (n: nat)
    ensures n <= |items|
  {
    if items == [] then 0
    else (if items[0].status == status then 1 else 0) + Count(items[1..], status)
  }

  function Progress(completed: nat, total: nat): real
    requires total > 0
  {
    completed as real * 100.0 / total as real
  }

  /** The counters say what the items say. */
  predicate Consistent(job: Job) {
    && 0 < job.total == |job.items|
    && job.success == Count(job.items, Success)
    && job.failed == Count(job.items, Failed)
    && job.cancelled == Count(job.items, Cancelled)
    && job.completed == job.success + job.failed + job.cancelled
    && job.completed + Count(job.items, Pending) == job.total
    && job.progress == Progress(job.completed, job.total)
  }

  /** The record after a result was written for one item; a second result is ignored. */
  function WithItem(job: Job, index: nat, item: Item): Job
    requires index < |job.items| && job.total > 0
  {
    if job.items[index].status != Pending then job
    else job.(
      items := job.items[index := item],
      completed := job.completed + 1,
      success := job.success + (if item.status == Success then 1 else 0),
      failed := job.failed + (if item.status == Failed then 1 else 0),
      cancelled := job.cancelled + (if item.status == Cancelled then 1 else 0),
      progress := Progress(job.completed + 1, job.total))
  }

  function WithEnd(job: Job, cancelled: bool, now: int): Job {
    job.(status := if cancelled || job.cancelled > 0 then JobCancelled else JobCompleted, completedAt := Some(now))
  }

  /** The mutable record shared by the workers, the dispatcher and the readers. */
  class JobRecord {
    var status: JobStatus
    const total: nat
    var completed: nat
    var success: nat
    var failed: nat
    var cancelled: nat
    var progress: real
    var items: seq<Item>
    var completedAt: Option<int>

    constructor (hostIds: seq<int>)
      requires hostIds != []
      ensures Snapshot() == NewJob(hostIds)
    {
      status, completed, success, failed, cancelled, progress := Running, 0, 0, 0, 0, 0.0;
      total := |hostIds|;
      items := seq(|hostIds|, i requires 0 <= i < |hostIds| => NewItem(hostIds[i]));
      completedAt := None;
    }

    /** What `Get` returns. */
    function Snapshot(): Job
      reads this
    {
      Job(status, total, completed, success, failed, cancelled, progress, items, completedAt)
    }

    method FinishItem(index: nat, item: Item)
      requires index < |items| && total > 0
      modifies this
      ensures Snapshot() == WithItem(old(Snapshot()), index, item)
    {
      if items[index].status != Pending {
        return;
      }
      items := items[index := item];
      completed := completed + 1;
      match item.status {
        case Success => success := success + 1;
        case Failed => failed := failed + 1;
        case Cancelled => cancelled := cancelled + 1;
        case Pending =>
      }
      progress := completed as real * 100.0 / total as real;
    }

    method FinishJob(cancelledRun: bool, now: int)
      modifies this
      ensures Snapshot() == WithEnd(old(Snapshot()), cancelledRun, now)
    {
      if cancelledRun || cancelled > 0 {
        status := JobCancelled;
      } else {
        status := JobCompleted;
      }
      completedAt := Some(now);
    }
  }

  function NewJob(hostIds: seq<int>): Job {
    Job(Running, |hostIds|, 0, 0, 0, 0, 0.0, seq(|hostIds|, i requires 0 <= i < |hostIds| => NewItem(hostIds[i])), None)
  }

  // ---------- what the updates keep ----------

  lemma {:induction false} CountUpdate(items: seq<Item>, index: nat, item: Item, status: ItemStatus)
    requires index < |items|
    ensures Count(items[index := item], status) ==
            Count(items, status) - (if items[index].status == status then 1 else 0) + (if item.status == status then 1 else 0)
  {
    if index == 0 {
      assert items[index := item][1..] == items[1..];
    } else {
      assert items[index := item][1..] == items[1..][index - 1 := item];
      CountUpdate(items[1..], index - 1, item, status);
    }
  }

  lemma {:induction false} CountNew(items: seq<Item>)
    requires forall i :: 0 <= i < |items| ==> items[i].status == Pending
    ensures Count(items, Pending) == |items|
    ensures Count(items, Success) == Count(items, Failed) == Count(items, Cancelled) == 0
  {
    if items != [] {
      CountNew(items[1..]);
    }
  }

  lemma NewJobConsistent(hostIds: seq<int>)
    requires hostIds != []
    ensures Consistent(NewJob(hostIds))
  {
    CountNew(NewJob(hostIds).items);
  }

  /** Writing a result keeps the counters true, moves one item out of pending at most, and never lowers the progress. */
  lemma WithItemConsistent(job: Job, index: nat, item: Item)
    requires Consistent(job) && index < |job.items| && item.status != Pending
    ensures Consistent(WithItem(job, index, item))
    ensures WithItem(job, index, item).progress >= job.progress
    ensures forall i :: 0 <= i < |job.items| && job.items[i].status != Pending ==> WithItem(job, index, item).items[i] == job.items[i]
  {
    CountUpdate(job.items, index, item, Pending);
    CountUpdate(job.items, index, item, Success);
    CountUpdate(job.items, index, item, Failed);
    CountUpdate(job.items, index, item, Cancelled);
    ProgressGrows(job.completed, job.total);
  }

  lemma ProgressGrows(completed: nat, total: nat)
    requires total > 0
    ensures Progress(completed, total) <= Progress(completed + 1, total)
  {
    var t := total as real;
    DivideMonotone(completed as real * 100.0, (completed + 1) as real * 100.0, t);
  }

  lemma DivideMonotone(a: real, b: real, t: real)
    requires a <= b && t > 0.0
    ensures a / t <= b / t
  {
    assert b / t - a / t == (b - a) / t;
  }

  lemma {:induction false} NonePending(items: seq<Item>)
    ensures Count(items, Pending) == 0 <==> forall i :: 0 <= i < |items| ==> items[i].status != Pending
  {
    if items != [] {
      NonePending(items[1..]);
      assert forall i :: 1 <= i < |items| ==> items[i] == items[1..][i - 1];
    }
  }

  lemma {:induction false} SomeCounted(items: seq<Item>, status: ItemStatus)
    ensures Count(items, status) > 0 <==> exists i :: 0 <= i < |items| && items[i].status == status
  {
    if items != [] {
      SomeCounted(items[1..], status);
      assert forall i :: 1 <= i < |items| ==> items[i] == items[1..][i - 1];
    }
  }
}
