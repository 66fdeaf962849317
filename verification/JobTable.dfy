/** The notification_jobs table of internal/repository/postgres.go. */
module Jobs {
  import opened Prelude
  import opened Domain

  datatype JobStatus = Pending | Sent | Failed

  /** The unique key of the table. */
  datatype JobKey = JobKey(target: string, provider: MarketProvider, symbol: Symbol, interval: Interval,
      periodStart: Minutes)

  datatype JobRow = JobRow(
    id: nat, periodEnd: Minutes, status: JobStatus, error: string, sentAt: Option<Nanos>,
    createdAt: Nanos, updatedAt: Nanos)

  type Rows = map<JobKey, JobRow>

  const LEGACY_TARGET_ID := "00000000-0000-0000-0000-000000000001"

  /** The target column for a job: jobs of the legacy executor carry no target of their own. */
  function RowTarget(targetId: string): string {
    if targetId == "" then LEGACY_TARGET_ID else targetId
  }

  predicate ValidJob(key: JobKey, row: JobRow) {
    && key.symbol != "" && KnownProvider(key.provider) && Duration(key.interval).Some?
    && key.periodStart != ZERO_MINUTE && row.periodEnd != ZERO_MINUTE && key.periodStart < row.periodEnd
  }

  predicate IdTaken(rows: Rows, id: nat) {
    exists k :: k in rows && rows[k].id == id
  }

  /** The table after INSERT ... ON CONFLICT DO NOTHING. */
  function AfterCreate(rows: Rows, key: JobKey, row: JobRow, fault: Fault): Rows {
    if !ValidJob(key, row) || fault == BeforeCommit || key in rows || IdTaken(rows, row.id) then rows
    else rows[key := row]
  }

  /** What CreateIfNotExists answers: the stored row, and whether it is the new one. */
  function CreateAnswer(rows: Rows, key: JobKey, row: JobRow, fault: Fault): Result<(JobRow, bool)> {
    if !ValidJob(key, row) then Err("validate job")
    else if fault != NoFault then Err("create notification job")
    else if key in rows then Ok((rows[key], false))
    else if IdTaken(rows, row.id) then Err("load existing notification job")
    else Ok((row, true))
  }

  datatype Mark = AsSent(sentAt: Nanos) | AsFailed(reason: string)

  /** A row after MarkSent or MarkFailed: only MarkSent writes sent_at. */
  function Restated(row: JobRow, mark: Mark, at: Nanos): JobRow {
    match mark
    case AsSent(sentAt) => row.(status := Sent, error := "", sentAt := Some(sentAt), updatedAt := at)
    case AsFailed(reason) => row.(status := Failed, error := reason, updatedAt := at)
  }

  function AfterMark(rows: Rows, id: nat, mark: Mark, at: Nanos): Rows {
    map k | k in rows :: if rows[k].id == id then Restated(rows[k], mark, at) else rows[k]
  }

  ghost predicate UniqueIds(rows: Rows) {
    forall k1, k2 :: k1 in rows && k2 in rows && rows[k1].id == rows[k2].id ==> k1 == k2
  }

  /** sent_at is set exactly on the rows recorded as sent. */
  ghost predicate SentAtAgrees(rows: Rows) {
    forall k :: k in rows ==> (rows[k].status == Sent <==> rows[k].sentAt.Some?)
  }

  ghost function Stale(rows: Rows, cutoff: Nanos): set<JobKey> {
    set k | k in rows && rows[k].updatedAt < cutoff
  }

  /** Nothing removed is younger than anything stale that is left. */
  ghost predicate OldestFirst(rows: Rows, cutoff: Nanos, removed: set<JobKey>) {
    && removed <= Stale(rows, cutoff)
    && forall d, k :: d in removed && k in Stale(rows, cutoff) - removed ==> rows[d].updatedAt <= rows[k].updatedAt
  }

  /** The table with its primary-key index. */
  class JobTable {
    var rows: Rows
    var keyOf: map<nat, JobKey>

    ghost predicate Valid()
      reads this
    {
      && (forall k :: k in rows ==> rows[k].id in keyOf && keyOf[rows[k].id] == k)
      && (forall id :: id in keyOf ==> keyOf[id] in rows && rows[keyOf[id]].id == id)
    }

    constructor ()
      ensures Valid() && rows == map[]
    {
      rows, keyOf := map[], map[];
    }

    lemma IndexIsExact(id: nat)
      requires Valid()
      ensures id in keyOf <==> IdTaken(rows, id)
      ensures UniqueIds(rows)
    {
    }

    method CreateIfNotExists(key: JobKey, row: JobRow, fault: Fault) returns (r: Result<(JobRow, bool)>)
      requires Valid()
      modifies this
      ensures Valid()
      ensures rows == AfterCreate(old(rows), key, row, fault)
      ensures r == CreateAnswer(old(rows), key, row, fault)
    {
      IndexIsExact(row.id);
      if !ValidJob(key, row) {
        return Err("validate job");
      }
      if fault == BeforeCommit {
        return Err("create notification job");
      }
      var inserted := key !in rows && row.id !in keyOf;
      if inserted {
        rows := rows[key := row];
        keyOf := keyOf[row.id := key];
      }
      if fault == AfterCommit {
        return Err("create notification job");
      }
      if inserted {
        return Ok((row, true));
      }
      if key !in rows {
        return Err("load existing notification job");
      }
      return Ok((rows[key], false));
    }

    method MarkSent(id: nat, sentAt: Nanos, at: Nanos, lands: bool) returns (found: bool)
      requires Valid()
      modifies this`rows
      ensures Valid()
      ensures rows == if lands then AfterMark(old(rows), id, AsSent(sentAt), at) else old(rows)
      ensures found <==> lands && IdTaken(old(rows), id)
    {
      found := UpdateStatus(id, AsSent(sentAt), at, lands);
    }

    method MarkFailed(id: nat, reason: string, at: Nanos, lands: bool) returns (found: bool)
      requires Valid()
      modifies this`rows
      ensures Valid()
      ensures rows == if lands then AfterMark(old(rows), id, AsFailed(reason), at) else old(rows)
      ensures found <==> lands && IdTaken(old(rows), id)
    {
      found := UpdateStatus(id, AsFailed(reason), at, lands);
    }

    /** UPDATE ... WHERE id = ?; lands is whether the database accepts the statement. */
    method UpdateStatus(id: nat, mark: Mark, at: Nanos, lands: bool) returns (found: bool)
      requires Valid()
      modifies this`rows
      ensures Valid()
      ensures rows == if lands then AfterMark(old(rows), id, mark, at) else old(rows)
      ensures found <==> lands && IdTaken(old(rows), id)
    {
      IndexIsExact(id);
      if !lands {
        return false;
      }
      if id !in keyOf {
        assert rows == AfterMark(rows, id, mark, at);
        return false;
      }
      var key := keyOf[id];
      rows := rows[key := Restated(rows[key], mark, at)];
      assert rows == AfterMark(old(rows), id, mark, at);
      return true;
    }

    /** Deletes at most limit of the rows not updated since the cutoff, oldest first. */
    method DeleteUpdatedBefore(cutoff: Nanos, limit: int, fails: bool)
      returns (r: Result<nat>, ghost removed: set<JobKey>)
      requires Valid()
      modifies this
      ensures Valid()
      ensures r.Ok? <==> limit >= 1 && !fails
      ensures r.Err? ==> removed == {}
      ensures r.Ok? ==> r.value == |removed| == if limit <= |Stale(old(rows), cutoff)| then limit
              else |Stale(old(rows), cutoff)|
      ensures OldestFirst(old(rows), cutoff, removed)
      ensures rows == old(rows) - removed
    {
      removed := {};
      if limit < 1 {
        return Err("cleanup limit must be positive"), {};
      }
      if fails {
        return Err("delete stale notification jobs"), {};
      }
      var stale := set k | k in rows && rows[k].updatedAt < cutoff;
      var candidates := SelectOldest(stale, limit);
      removed := candidates;
      rows := rows - candidates;
      keyOf := map id | id in keyOf && keyOf[id] !in candidates :: keyOf[id];
      return Ok(|candidates|), removed;
    }

    /** The limit oldest of the given keys. */
    method SelectOldest(stale: set<JobKey>, limit: nat) returns (chosen: set<JobKey>)
      requires stale <= rows.Keys
      ensures chosen <= stale
      ensures |chosen| == if limit <= |stale| then limit else |stale|
      ensures forall d, k :: d in chosen && k in stale - chosen ==> rows[d].updatedAt <= rows[k].updatedAt
    {
      chosen := {};
      var left := stale;
      while left != {} && |chosen| < limit
        invariant chosen <= stale && left == stale - chosen
        invariant |chosen| + |left| == |stale| && |chosen| <= limit
        invariant forall d, k :: d in chosen && k in left ==> rows[d].updatedAt <= rows[k].updatedAt
        decreases left
      {
        var oldest := Oldest(left);
        chosen := chosen + {oldest};
        left := left - {oldest};
      }
    }

    method Oldest(keys: set<JobKey>) returns (oldest: JobKey)
      requires keys != {} && keys <= rows.Keys
      ensures oldest in keys && forall k :: k in keys ==> rows[oldest].updatedAt <= rows[k].updatedAt
    {
      oldest :| oldest in keys;
      var rest := keys - {oldest};
      while rest != {}
        invariant oldest in keys && rest <= keys
        invariant forall k :: k in keys - rest ==> rows[oldest].updatedAt <= rows[k].updatedAt
        decreases rest
      {
        var k :| k in rest;
        rest := rest - {k};
        if rows[k].updatedAt < rows[oldest].updatedAt { oldest := k; }
      }
    }
  }
}
