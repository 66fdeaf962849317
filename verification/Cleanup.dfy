/** The batch loop of internal/scheduler/notification_job_cleanup.go. */
module Cleanups {
  import opened Prelude
  import opened Domain
  import opened Jobs

  const BATCH_SIZE: nat := 1000

  class NotificationJobCleanup {
    const repository: JobTable
    const retention: Nanos

    constructor (repository: JobTable, retention: Nanos)
      requires retention > 0
      ensures this.repository == repository && this.retention == retention
    {
      this.repository, this.retention := repository, retention;
    }

    /**
     Deletes batch after batch until one comes back short; failingCall is the first delete call that errors.
     Whatever happens, the rows removed so far are the oldest stale ones, they are counted exactly,
     and no other row is touched. Without an error every stale row is gone, after exactly one call
     more than the number of full batches.
     */
    method Cleanup(now: Nanos, failingCall: Option<nat>)
      returns (deletedTotal: nat, err: Option<string>, ghost removed: set<JobKey>, calls: nat)
      requires repository.Valid()
      modifies repository
      ensures repository.Valid()
      ensures repository.rows == old(repository.rows) - removed
      ensures deletedTotal == |removed|
      ensures OldestFirst(old(repository.rows), now - retention, removed)
      ensures err.None? ==> removed == Stale(old(repository.rows), now - retention)
      ensures err.None? ==> calls * BATCH_SIZE - BATCH_SIZE <= deletedTotal < calls * BATCH_SIZE
      ensures err.Some? ==> failingCall.Some? && failingCall.value == calls && deletedTotal == calls * BATCH_SIZE
      ensures err.None? && failingCall.Some? ==> calls <= failingCall.value
    {
      var cutoff := now - retention;
      ghost var before := repository.rows;
      deletedTotal, removed, calls := 0, {}, 0;
      while true
        invariant repository.Valid()
        invariant repository.rows == before - removed
        invariant OldestFirst(before, cutoff, removed)
        invariant deletedTotal == |removed| == calls * BATCH_SIZE
        invariant failingCall.Some? ==> calls <= failingCall.value
        decreases |Stale(repository.rows, cutoff)|
      {
        var deleted, more := DeleteBatch(cutoff, failingCall.Some? && failingCall.value == calls, before, removed);
        if deleted.Err? {
          return deletedTotal, Some(deleted.error), removed, calls;
        }
        removed := more;
        deletedTotal := deletedTotal + deleted.value;
        calls := calls + 1;
        if deleted.value < BATCH_SIZE {
          return deletedTotal, None, removed, calls;
        }
      }
    }

    /** One delete call, accounted for against the table the run started from. */
    method DeleteBatch(cutoff: Nanos, fails: bool, ghost before: Rows, ghost removed: set<JobKey>)
      returns (deleted: Result<nat>, ghost more: set<JobKey>)
      requires repository.Valid() && repository.rows == before - removed && OldestFirst(before, cutoff, removed)
      modifies repository
      ensures repository.Valid() && repository.rows == before - more && OldestFirst(before, cutoff, more)
      ensures deleted.Err? <==> fails
      ensures deleted.Err? ==> more == removed
      ensures deleted.Ok? ==> deleted.value <= BATCH_SIZE && |more| == |removed| + deleted.value
      ensures deleted.Ok? ==> |Stale(repository.rows, cutoff)| == |Stale(before - removed, cutoff)| - deleted.value
      ensures deleted.Ok? && deleted.value < BATCH_SIZE ==> more == Stale(before, cutoff)
    {
      ghost var batch;
      deleted, batch := repository.DeleteUpdatedBefore(cutoff, BATCH_SIZE, fails);
      BatchExtends(before, cutoff, removed, batch);
      BatchCounts(before, cutoff, removed, batch);
      more := removed + batch;
      assert deleted.Err? ==> more == removed;
    }
  }

  lemma SubsetOfSameSize<T>(a: set<T>, b: set<T>)
    requires a <= b && |a| == |b|
    ensures a == b
  {
    assert |b| == |b - a| + |a|;
  }

  lemma StaleLeft(before: Rows, cutoff: Nanos, removed: set<JobKey>)
    ensures Stale(before - removed, cutoff) == Stale(before, cutoff) - removed
  {
  }

  lemma SameAges(before: Rows, cutoff: Nanos, removed: set<JobKey>, batch: set<JobKey>)
    requires OldestFirst(before - removed, cutoff, batch)
    ensures batch <= Stale(before, cutoff) - removed
    ensures forall d, k :: d in batch && k in Stale(before, cutoff) - removed - batch ==>
              before[d].updatedAt <= before[k].updatedAt
  {
    StaleLeft(before, cutoff, removed);
  }

  /** A batch taken oldest-first from what is left extends an oldest-first prefix. */
  lemma BatchExtends(before: Rows, cutoff: Nanos, removed: set<JobKey>, batch: set<JobKey>)
    requires OldestFirst(before, cutoff, removed) && OldestFirst(before - removed, cutoff, batch)
    ensures OldestFirst(before, cutoff, removed + batch)
  {
    SameAges(before, cutoff, removed, batch);
    var all := removed + batch;
    forall d, k | d in all && k in Stale(before, cutoff) - all ensures before[d].updatedAt <= before[k].updatedAt {
      if d in removed { assert k in Stale(before, cutoff) - removed; }
    }
  }

  /** It shrinks what is left by its size, and finishes the job when it takes everything left. */
  lemma BatchCounts(before: Rows, cutoff: Nanos, removed: set<JobKey>, batch: set<JobKey>)
    requires batch <= Stale(before - removed, cutoff) && removed <= Stale(before, cutoff)
    ensures |removed + batch| == |removed| + |batch|
    ensures before - (removed + batch) == before - removed - batch
    ensures |Stale(before - (removed + batch), cutoff)| == |Stale(before - removed, cutoff)| - |batch|
    ensures |batch| == |Stale(before - removed, cutoff)| ==> removed + batch == Stale(before, cutoff)
  {
    hide Stale;
    StaleLeft(before, cutoff, removed);
    StaleLeft(before, cutoff, removed + batch);
    var left := Stale(before, cutoff) - removed;
    assert Stale(before, cutoff) - (removed + batch) == left - batch;
    if |batch| == |left| { SubsetOfSameSize(batch, left); }
  }
}
