/** The second implementation of the queue, and the third one in the database itself. */
module QueueService {
  import opened Basics
  import opened Rows
  import opened Operations
  import opened Entities
  import opened Promises
  import opened PromisesKept
  import Durations
  import Runs = JobRunService

  class Service {
    const db: Database

    constructor (db: Database)
      ensures this.db == db
    {
      this.db := db;
    }

    method DequeueAndLock(worker: string, lockSeconds: int, busy: Busy) returns (run: Option<RunId>)
      modifies db
      ensures run == FindNextRunToLock(old(db.tables), busy, {})
      ensures db.tables == LockOldest(old(db.tables), worker, lockSeconds, busy)
      ensures old(db.Valid()) ==> OldestLocked(old(db.tables), db.tables, run, worker, lockSeconds, busy)
    {
      if db.Valid() {
        LockOldestKept(db.tables, worker, lockSeconds, busy);
      }
      hide Claimed;
      run := FindNextRunToLock(db.tables, busy, {});
      if run.None? {
        return;
      }
      var now := db.tables.now;
      var entity := new JobRun.Load(db.tables.runs[run.value]);
      Lock(entity, worker, lockSeconds, now);
      db.tables := SetRun(db.tables, run.value, entity.Row());
    }

    method Lock(run: JobRun, worker: string, lockSeconds: int, now: Time)
      modifies run
      ensures run.Row() == Claimed(old(run.Row()), worker, lockSeconds, now)
    {
      run.status := Running;
      run.workerId := Some(worker);
      run.lockedBy := Some(worker);
      run.lockedUntil := Some(now + lockSeconds * SECOND);
      run.startTime := if run.startTime.Some? then run.startTime else Some(now);
      run.heartbeatAt := Some(now);
    }

    /** The same sweep as the run service makes, except that it leaves no heartbeat. */
    method CleanupExpiredRuns() returns (released: nat)
      modifies db
      ensures db.tables == ReleaseExpired(old(db.tables), false)
      ensures LeasesReleased(old(db.tables), db.tables, false)
      ensures released == |set r | r in old(db.tables).runs && Expired(old(db.tables).runs[r], old(db.tables).now)|
    {
      hide Operations.Released, Runs.Swept, LeasesReleased;
      ReleaseKept(db.tables, false);
      ghost var w := db.tables;
      var now := db.tables.now;
      var due := set r: RunId | r in db.tables.runs && Expired(db.tables.runs[r], now);
      var expired: seq<RunId> := Enumerate(due);
      ghost var done: set<RunId> := {};
      Runs.SweptNone(w, false);
      for i := 0 to |expired|
        invariant db.tables == Runs.Swept(w, done, false)
        invariant done == set k | 0 <= k < i :: expired[k]
      {
        var r := expired[i];
        assert r in expired && r !in done;
        Runs.SweptRow(w, done, r, false);
        var run := new JobRun.Load(db.tables.runs[r]);
        Release(run, now);
        db.tables := SetRun(db.tables, r, run.Row());
        done := done + {r};
      }
      assert done == due;
      Runs.SweptAll(w, due, false);
      EnumerationSize(expired, due);
      released := |expired|;
    }

    method Release(run: JobRun, ghost now: Time)
      modifies run
      ensures run.Row() == Operations.Released(old(run.Row()), now, false)
    {
      run.status := Pending;
      run.workerId := None;
      run.lockedBy := None;
      run.lockedUntil := None;
    }

    // db_lock_pending_job: one SELECT ... FOR UPDATE SKIP LOCKED LIMIT 1, one UPDATE
    method DbLockPendingJob(worker: string, lockSeconds: int, busy: Busy) returns (run: Option<RunId>)
      modifies db
      ensures run == FindNextRunToLock(old(db.tables), busy, {})
      ensures db.tables == LockOldest(old(db.tables), worker, lockSeconds, busy)
      ensures old(db.Valid()) ==> OldestLocked(old(db.tables), db.tables, run, worker, lockSeconds, busy)
    {
      if db.Valid() {
        LockOldestKept(db.tables, worker, lockSeconds, busy);
      }
      run := FindNextRunToLock(db.tables, busy, {});
      if run.Some? {
        var row, now := db.tables.runs[run.value], db.tables.now;
        db.tables := SetRun(db.tables, run.value,
          row.(status := Running, workerId := Some(worker), lockedBy := Some(worker),
               lockedUntil := Some(now + lockSeconds * SECOND),
               startTime := if row.startTime.Some? then row.startTime else Some(now),
               heartbeatAt := Some(now)));
      }
    }

    // db_check_dependency_finished
    method DbCheckDependencyFinished(j: JobId) returns (finished: bool)
      ensures finished == DepsSatisfied(db.tables, j)
      ensures db.Valid() ==> (finished <==> AllMet(db.tables, j))
    {
      if db.Valid() {
        SatisfiedMeansAllMet(db.tables, j);
      }
      var w := db.tables;
      var rows: set<(JobId, JobId)> := set e | e in w.deps.Keys && e.0 == j;
      var todo := rows;
      while todo != {}
        invariant todo <= rows
        invariant forall e | e in rows - todo :: EdgeMet(w, e.1, w.deps[e])
        decreases todo
      {
        var e :| e in todo;
        var newest := Newest(w, e.1);
        var latest := if newest.None? then None else Some(w.runs[newest.value].status);
        if latest.None? || latest.value != w.deps[e] {
          return false;
        }
        todo := todo - {e};
      }
      return true;
    }

    // db_create_dependency: insert, or on conflict update the required status
    method DbCreateDependency(j: JobId, upstream: JobId, required: RunStatus) returns (ok: bool)
      modifies db
      ensures ok == (j in old(db.tables).jobs && upstream in old(db.tables).jobs && j != upstream)
      ensures db.tables == AddDependency(old(db.tables), j, upstream, required)
      ensures DependencyStored(old(db.tables), db.tables, j, upstream, required, ok)
    {
      DependencyKept(db.tables, j, upstream, required);
      if j == upstream {
        return false;
      }
      if j !in db.tables.jobs || upstream !in db.tables.jobs {
        return false;
      }
      db.tables := db.tables.(deps := db.tables.deps[(j, upstream) := required]);
      return true;
    }

    /** db_update_job_run_status, one column of the UPDATE after the other, then the row trigger. For running
        and final statuses of a run without retry budget it leaves what the run service leaves, durations
        aside; the service's durations of a finished run are at most a millisecond off. */
    method DbUpdateJobRunStatus(r: RunId, status: RunStatus, out: Output) returns (found: bool)
      modifies db
      ensures found == (r in old(db.tables).runs)
      ensures !found ==> db.tables == old(db.tables)
      ensures found ==> r in db.tables.runs && db.tables == SetRun(old(db.tables), r, db.tables.runs[r])
      ensures found ==> db.tables.runs[r] == SqlUpdated(old(db.tables).runs[r], status, out, old(db.tables).now)
      ensures found && (status.Running? || status.Terminal())
              && !AutoRetries(old(db.tables), old(db.tables).runs[r], Some(status)) ==>
                var py := Operations.UpdateStatus(old(db.tables), r, Some(status), out);
                && py == SetRun(old(db.tables), r, py.runs[r])
                && SameButDurations(db.tables.runs[r], py.runs[r])
                && (status.Terminal() && py.runs[r].startTime.Some? ==>
                      DurationsMatch(db.tables.runs[r], py.runs[r]))
      ensures found ==> ColumnsUpdated(old(db.tables).runs[r], db.tables.runs[r], status, out, old(db.tables).now)
    {
      hide SqlUpdated, StatusApplied, WithOutput, SameButDurations, DurationsMatch, DurationTrigger, AutoRetries;
      hide ColumnsUpdated;
      if r !in db.tables.runs {
        return false;
      }
      var row, now := db.tables.runs[r], db.tables.now;
      var run := new JobRun.Load(row);
      SetByStatus(run, status, now);
      Coalesce(run, out);
      FireDurationTrigger(run);
      UpdatedColumns(row, status, out, now);
      SqlColumnsKept(row, status, out, now);
      db.tables := SetRun(db.tables, r, run.Row());
      StatusUpdatesAgreeExactly(row, status, out, now);
      if status.Terminal() && row.startTime.Some? {
        FinishDurationsAgree(row, status, out, now);
      }
      if status.Terminal() {
        FinishKeepsStart(row, status, out, now);
      }
      return true;
    }

    method SetByStatus(run: JobRun, status: RunStatus, now: Time)
      modifies run
      ensures run.Row() == ColumnsSet(old(run.Row()), status, now)
    {
      var done := status == Success || status == Failed || status == Timeout || status == Canceled;
      run.status := status;
      run.startTime := if status == Running then OrElse(run.startTime, now) else run.startTime;
      run.endTime := if done then Some(now) else run.endTime;
      run.heartbeatAt := if status == Running || done then Some(now) else run.heartbeatAt;
      run.lockedBy := if done then None else run.lockedBy;
      run.lockedUntil := if done then None else run.lockedUntil;
    }

    method Coalesce(run: JobRun, out: Output)
      modifies run
      ensures run.Row() == WithOutput(old(run.Row()), out)
    {
      run.stdout := if out.stdout.Some? then out.stdout else run.stdout;
      run.stderr := if out.stderr.Some? then out.stderr else run.stderr;
      run.errorMessage := if out.errorMessage.Some? then out.errorMessage else run.errorMessage;
    }

    // set_job_run_duration_seconds
    method FireDurationTrigger(run: JobRun)
      modifies run
      ensures run.Row() == DurationTrigger(old(run.Row()))
    {
      if run.startTime.Some? && run.endTime.Some? {
        var d := run.endTime.value - run.startTime.value;
        run.durationMs := Some(Durations.Max(1, Durations.Ceil(d, 1000)));
        run.durationSeconds := Some(Durations.Max(1, Durations.Ceil(d, SECOND)));
      }
    }
  }

  // ---------------------------------------------------------------- the status update in SQL

  /** The row trigger that recomputes durations whenever start_time or end_time is assigned. */
  function DurationTrigger(row: RunRow): RunRow {
    if row.startTime.Some? && row.endTime.Some? then
      var d := row.endTime.value - row.startTime.value;
      row.(durationMs := Some(Durations.SqlMilliseconds(d)), durationSeconds := Some(Durations.SqlSeconds(d)))
    else row
  }

  /** The columns that db_update_job_run_status sets by the new status. */
  function ColumnsSet(row: RunRow, status: RunStatus, now: Time): RunRow {
    var done := status.Terminal();
    row.(
      status := status,
      startTime := if status.Running? then OrElse(row.startTime, now) else row.startTime,
      endTime := if done then Some(now) else row.endTime,
      heartbeatAt := if status.Running? || done then Some(now) else row.heartbeatAt,
      lockedBy := if done then None else row.lockedBy,
      lockedUntil := if done then None else row.lockedUntil)
  }

  function SqlUpdated(row: RunRow, status: RunStatus, out: Output, now: Time): RunRow {
    DurationTrigger(WithOutput(ColumnsSet(row, status, now), out))
  }

  lemma UpdatedColumns(row: RunRow, status: RunStatus, out: Output, now: Time)
    ensures SqlUpdated(row, status, out, now) == DurationTrigger(WithOutput(ColumnsSet(row, status, now), out))
  {
  }

  lemma SqlColumnsKept(row: RunRow, status: RunStatus, out: Output, now: Time)
    ensures ColumnsUpdated(row, SqlUpdated(row, status, out, now), status, out, now)
  {
    hide TriggerDurations, Durations.SqlMilliseconds, Durations.SqlSeconds;
    var row' := SqlUpdated(row, status, out, now);
    if row'.startTime.Some? && row'.endTime.Some? {
      TriggerDurationsKept(row'.endTime.value - row'.startTime.value);
    }
  }

  /** The same seconds, and milliseconds that the trigger rounds up. */
  predicate DurationsMatch(sql: RunRow, py: RunRow) {
    && sql.durationSeconds == py.durationSeconds && py.durationMs.Some? && sql.durationMs.Some?
    && py.durationMs.value <= sql.durationMs.value <= py.durationMs.value + 1
  }

  lemma FinishKeepsStart(row: RunRow, status: RunStatus, out: Output, now: Time)
    requires status.Terminal()
    ensures WithOutput(StatusApplied(row, Some(status), now), out).startTime == row.startTime
  {
  }

  /** Rows that agree in every column but the two durations. */
  predicate SameButDurations(a: RunRow, b: RunRow) {
    a == b.(durationMs := a.durationMs, durationSeconds := a.durationSeconds)
  }

  /** The service and the database function write the same row, durations aside, if and only if the new
      status is running or final, or is the status the run already has: the service ignores the others. */
  lemma StatusUpdatesAgreeExactly(row: RunRow, status: RunStatus, out: Output, now: Time)
    ensures SameButDurations(SqlUpdated(row, status, out, now), WithOutput(StatusApplied(row, Some(status), now), out))
            <==> status.Running? || status.Terminal() || row.status == status
  {
    hide Durations.SqlMilliseconds, Durations.SqlSeconds, Durations.PyMilliseconds, Durations.PySeconds;
  }

  /** When both finish a run that had started, they store the same seconds, and milliseconds at most one apart. */
  lemma FinishDurationsAgree(row: RunRow, status: RunStatus, out: Output, now: Time)
    requires status.Terminal() && row.startTime.Some?
    ensures DurationsMatch(SqlUpdated(row, status, out, now), WithOutput(StatusApplied(row, Some(status), now), out))
  {
    hide Durations.SqlMilliseconds, Durations.SqlSeconds, Durations.PyMilliseconds, Durations.PySeconds;
    Durations.DurationsAgree(now - row.startTime.value);
  }

  /** So on a run without retry budget the two leave the same tables, durations aside, exactly then. */
  lemma StatusTablesAgreeExactly(w: World, r: RunId, status: RunStatus, out: Output)
    requires r in w.runs && !AutoRetries(w, w.runs[r], Some(status))
    ensures Operations.UpdateStatus(w, r, Some(status), out).nextRun == w.nextRun
    ensures (forall s | s in w.runs ::
               SameButDurations(SetRun(w, r, SqlUpdated(w.runs[r], status, out, w.now)).runs[s],
                                Operations.UpdateStatus(w, r, Some(status), out).runs[s]))
            <==> status.Running? || status.Terminal() || w.runs[r].status == status
  {
    hide SqlUpdated, StatusApplied, WithOutput, SameButDurations;
    StatusUpdatesAgreeExactly(w.runs[r], status, out, w.now);
    forall row
      ensures SameButDurations(row, row)
    {
      SameAsItself(row);
    }
  }

  lemma SameAsItself(row: RunRow)
    ensures SameButDurations(row, row)
  {
  }
}
