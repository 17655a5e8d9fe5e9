/** The run service: the queue, status updates, retries, leases. Each method is one committed transaction. */
module JobRunService {
  import opened Basics
  import opened Rows
  import opened Operations
  import opened Entities
  import opened Promises
  import opened PromisesKept
  import opened Stalls

  class Service {
    const db: Database

    constructor (db: Database)
      ensures this.db == db
    {
      this.db := db;
    }

    /** The skip loop. It ends because every round either answers or skips one more run, and it takes the
        oldest run that is pending, unlocked, under an enabled job, and waits for nothing. */
    method DequeueNextRun(worker: string, lockSeconds: int, busy: Busy) returns (run: Option<RunId>)
      requires db.Valid()
      modifies db
      ensures run == Choice(old(db.tables), busy) && IsOldestReady(old(db.tables), busy, run)
      ensures db.tables == Dequeue(old(db.tables), worker, lockSeconds, busy)
      ensures Dequeued(old(db.tables), db.tables, run, worker, lockSeconds, busy)
    {
      DequeueKept(db.tables, worker, lockSeconds, busy);
      ChoiceIsOldestReady(db.tables, busy);
      var skipped: set<RunId> := {};
      while true
        invariant skipped <= Blocked(db.tables) && db.tables == old(db.tables)
        decreases Blocked(db.tables) - skipped
      {
        run := FindNextRunToLock(db.tables, busy, skipped);
        if run.None? {
          SkippingIsSafe(db.tables, busy, skipped);
          return;
        }
        FoundIsOldest(db.tables, busy, skipped);
        var satisfied := AreDependenciesSatisfied(db, db.tables.runs[run.value].job);
        if satisfied {
          SkippingIsSafe(db.tables, busy, skipped);
          break;
        }
        skipped := skipped + {run.value};
      }

      var now := db.tables.now;
      var entity := new JobRun.Load(db.tables.runs[run.value]);
      entity.status := Running;
      entity.workerId := Some(worker);
      entity.lockedBy := Some(worker);
      entity.lockedUntil := Some(now + lockSeconds * SECOND);
      entity.Start(now);
      db.tables := SetRun(db.tables, run.value, entity.Row());
    }

    method UpdateStatus(r: RunId, status: Option<RunStatus>, out: Output) returns (found: bool)
      requires db.Valid()
      modifies db
      ensures found == (r in old(db.tables).runs)
      ensures db.tables == Operations.UpdateStatus(old(db.tables), r, status, out)
      ensures StatusReported(old(db.tables), db.tables, r, status, out)
    {
      assert StatusReported(db.tables, Operations.UpdateStatus(db.tables, r, status, out), r, status, out) by {
        ReportKept(db.tables, r, status, out);
      }
      hide Completed, Started, RetryOf, WithOutput, StatusReported;
      if r !in db.tables.runs {
        return false;
      }
      var row, now := db.tables.runs[r], db.tables.now;
      var run := new JobRun.Load(row);
      if status == Some(Running) {
        run.Start(now);
      } else if status.Some? && status.value.Terminal() {
        run.status := status.value;
        run.Complete(now);
        if status.value.Failing() {
          RetryFailure(r, run.Row());
        }
      }
      WriteOutput(run, out);
      db.tables := SetRun(db.tables, r, run.Row());
      return true;
    }

    /** The failed run is flushed, and retried if its job has a retry left for it; the caller's later write to
        the run makes up for the flush. */
    method RetryFailure(r: RunId, done: RunRow)
      requires db.Valid() && r in db.tables.runs && done.status.Failing()
      requires done == Completed(db.tables.runs[r].(status := done.status), db.tables.now)
      modifies db
      ensures var w := old(db.tables);
              forall row :: SetRun(db.tables, r, row) ==
                if BudgetLeft(w, w.runs[r]) then AddRun(SetRun(w, r, row), RetryOf(r, w.runs[r])) else SetRun(w, r, row)
    {
      hide Completed, RetryOf, Operations.RetryRun, Promises.Retried;
      var row := db.tables.runs[r];
      CompletedKeeps(row.(status := done.status), db.tables.now);
      if row.job in db.tables.jobs && done.retryCount < db.tables.jobs[row.job].maxRetry {
        FlushedRetry(db.tables, r, done);
        db.tables := SetRun(db.tables, r, done);
        var retried := RetryRun(r);
      }
    }

    /** Only the texts that were passed are stored. */
    method WriteOutput(run: JobRun, out: Output)
      modifies run
      ensures run.Row() == WithOutput(old(run.Row()), out)
    {
      if out.stdout.Some? {
        run.stdout := out.stdout;
      }
      if out.stderr.Some? {
        run.stderr := out.stderr;
      }
      if out.errorMessage.Some? {
        run.errorMessage := out.errorMessage;
      }
    }

    method RetryRun(r: RunId) returns (retried: Result<RunId>)
      requires db.Valid()
      modifies db
      ensures db.Valid()
      ensures retried.Ok? <==> r in old(db.tables).runs && CanRetry(old(db.tables), old(db.tables).runs[r])
      ensures retried.Ok? ==> retried.value == old(db.tables).nextRun
      ensures db.tables == Operations.RetryRun(old(db.tables), r)
      ensures Retried(old(db.tables), db.tables, r, retried.Ok?)
    {
      hide Promises.Retried;
      RetryKept(db.tables, r);
      if r !in db.tables.runs {
        return Err;
      }
      var run := db.tables.runs[r];
      if !(run.status.Failed? || run.status.Timeout? || run.status.Canceled?) {
        return Err;
      }
      if run.job in db.tables.jobs && run.retryCount >= db.tables.jobs[run.job].maxRetry {
        return Err;
      }
      retried := Ok(db.tables.nextRun);
      var work := Work(None, None, None, run.work.actionType, run.work.payload, run.work.timeoutSeconds);
      db.tables := AddRun(db.tables, NewRun(run.job, Some(r), ByRetry, run.retryCount + 1, work));
    }

    method ReleaseExpiredLocks() returns (released: nat)
      modifies db
      ensures db.tables == ReleaseExpired(old(db.tables), true)
      ensures LeasesReleased(old(db.tables), db.tables, true)
      ensures released == |set r | r in old(db.tables).runs && Expired(old(db.tables).runs[r], old(db.tables).now)|
    {
      hide Operations.Released, Swept, LeasesReleased;
      ReleaseKept(db.tables, true);
      ghost var w := db.tables;
      var now := db.tables.now;
      var due := set r: RunId | r in db.tables.runs && Expired(db.tables.runs[r], now);
      var expired: seq<RunId> := Enumerate(due);
      ghost var done: set<RunId> := {};
      SweptNone(w, true);
      for i := 0 to |expired|
        invariant db.tables == Swept(w, done, true)
        invariant done == set k | 0 <= k < i :: expired[k]
      {
        var r := expired[i];
        assert r in expired && r !in done;
        SweptRow(w, done, r, true);
        var run := new JobRun.Load(db.tables.runs[r]);
        Release(run, now);
        db.tables := SetRun(db.tables, r, run.Row());
        done := done + {r};
      }
      assert done == due;
      SweptAll(w, due, true);
      EnumerationSize(expired, due);
      released := |expired|;
    }

    method Release(run: JobRun, now: Time)
      modifies run
      ensures run.Row() == Operations.Released(old(run.Row()), now, true)
    {
      run.status := Pending;
      run.workerId := None;
      run.lockedBy := None;
      run.lockedUntil := None;
      run.heartbeatAt := Some(now);
    }

    method Heartbeat(r: RunId) returns (found: bool)
      modifies db
      ensures found == (r in old(db.tables).runs)
      ensures db.tables == Operations.Heartbeat(old(db.tables), r)
      ensures HeartbeatSent(old(db.tables), db.tables, r)
    {
      HeartbeatKept(db.tables, r);
      if r !in db.tables.runs {
        return false;
      }
      var run := new JobRun.Load(db.tables.runs[r]);
      run.heartbeatAt := Some(db.tables.now);
      db.tables := SetRun(db.tables, r, run.Row());
      return true;
    }
  }

  /** The tables with the leases of some runs released. */
  function Swept(w: World, done: set<RunId>, stamp: bool): World {
    w.(runs := map r | r in w.runs :: if r in done then Operations.Released(w.runs[r], w.now, stamp) else w.runs[r])
  }

  lemma SweptNone(w: World, stamp: bool)
    ensures Swept(w, {}, stamp) == w
  {
  }

  lemma SweptRow(w: World, done: set<RunId>, r: RunId, stamp: bool)
    requires r in w.runs && r !in done
    ensures r in Swept(w, done, stamp).runs && Swept(w, done, stamp).runs[r] == w.runs[r]
    ensures SetRun(Swept(w, done, stamp), r, Operations.Released(w.runs[r], w.now, stamp))
            == Swept(w, done + {r}, stamp)
  {
    hide Operations.Released;
  }

  lemma SweptAll(w: World, due: set<RunId>, stamp: bool)
    requires due == set r | r in w.runs && Expired(w.runs[r], w.now)
    ensures Swept(w, due, stamp) == ReleaseExpired(w, stamp)
  {
    hide Operations.Released, Expired;
  }

  lemma CompletedKeeps(row: RunRow, now: Time)
    ensures var done := Completed(row, now);
            && done.job == row.job && done.retryCount == row.retryCount
            && done.work == row.work && done.status == row.status
  {
  }

  /** The retry made right after the failed run is flushed, followed by any later write to that run. */
  lemma FlushedRetry(w: World, r: RunId, done: RunRow)
    requires r in w.runs && r < w.nextRun && done.status.Retryable() && BudgetLeft(w, w.runs[r])
    requires done.job == w.runs[r].job && done.retryCount == w.runs[r].retryCount && done.work == w.runs[r].work
    ensures Operations.RetryRun(SetRun(w, r, done), r) == AddRun(SetRun(w, r, done), RetryOf(r, w.runs[r]))
    ensures forall row :: SetRun(AddRun(SetRun(w, r, done), RetryOf(r, w.runs[r])), r, row)
                          == AddRun(SetRun(w, r, row), RetryOf(r, w.runs[r]))
  {
    forall row
      ensures SetRun(AddRun(SetRun(w, r, done), RetryOf(r, w.runs[r])), r, row)
              == AddRun(SetRun(w, r, row), RetryOf(r, w.runs[r]))
    {
      assert w.runs[r := done][w.nextRun := RetryOf(r, w.runs[r])][r := row]
          == w.runs[r := row][w.nextRun := RetryOf(r, w.runs[r])];
    }
  }

  /** Skipping only blocked runs, the first run found that is not blocked is the first of all. */
  lemma SkippingIsSafe(w: World, busy: Busy, skipped: set<RunId>)
    requires skipped <= Blocked(w)
    requires var f := FindNextRunToLock(w, busy, skipped);
             f.Some? ==> f.value in w.runs && DepsSatisfied(w, w.runs[f.value].job)
    ensures FindNextRunToLock(w, busy, skipped) == Choice(w, busy)
  {
    hide FindNextRunToLock, DepsSatisfied;
    FoundIsOldest(w, busy, skipped);
    FoundIsOldest(w, busy, Blocked(w));
  }
}
