/** The mapped entities, whose methods assign fields in place, and the committed tables they are loaded
    from. An entity is a copy of its row until it is stored: the session never flushes on its own. */
module Entities {
  import opened Basics
  import opened Schedule
  import opened Rows
  import opened Payloads
  import opened Operations
  import opened Protocol
  import opened Promises
  import opened PromisesKept
  import opened Snapshots
  import Durations

  class Database {
    var tables: World

    constructor (w: World)
      ensures tables == w
    {
      tables := w;
    }

    /** Rows are named by counters that never run backwards. */
    predicate Valid()
      reads this
    {
      IdsBelow(tables)
    }
  }

  class JobRun {
    const job: JobId
    const parent: Option<RunId>
    const trigger: Trigger
    const retryCount: nat
    const work: Work
    var status: RunStatus
    var workerId: Option<string>
    var lockedBy: Option<string>
    var lockedUntil: Option<Time>
    var startTime: Option<Time>
    var endTime: Option<Time>
    var heartbeatAt: Option<Time>
    var durationMs: Option<int>
    var durationSeconds: Option<int>
    var externalId: Option<string>
    var stdout: Option<string>
    var stderr: Option<string>
    var errorMessage: Option<string>

    constructor Load(row: RunRow)
      ensures Row() == row
    {
      job, parent, trigger, retryCount, work := row.job, row.parent, row.trigger, row.retryCount, row.work;
      status, workerId, lockedBy, lockedUntil := row.status, row.workerId, row.lockedBy, row.lockedUntil;
      startTime, endTime, heartbeatAt := row.startTime, row.endTime, row.heartbeatAt;
      durationMs, durationSeconds := row.durationMs, row.durationSeconds;
      externalId, stdout, stderr, errorMessage := row.externalId, row.stdout, row.stderr, row.errorMessage;
    }

    function Row(): RunRow
      reads this
    {
      RunRow(job, parent, trigger, retryCount, work, status, workerId, lockedBy, lockedUntil,
             startTime, endTime, heartbeatAt, durationMs, durationSeconds, externalId, stdout, stderr, errorMessage)
    }

    method Start(now: Time)
      modifies this
      ensures Row() == Started(old(Row()), now)
      ensures RunStarted(old(Row()), Row(), now)
    {
      if startTime.None? {
        startTime := Some(now);
      }
      heartbeatAt := Some(now);
      status := Running;
    }

    method Complete(now: Time)
      modifies this
      ensures Row() == Completed(old(Row()), now)
      ensures RunFinished(old(Row()), Row(), old(status), now)
    {
      ghost var before := Row();
      endTime := Some(now);
      heartbeatAt := endTime;
      lockedBy := None;
      lockedUntil := None;
      if startTime.Some? {
        var elapsed := Durations.Max(1000, now - startTime.value);
        durationMs := Some(Durations.Max(1, Durations.RoundHalfEven(elapsed, 1000)));
        durationSeconds := Some(Durations.Max(1, Durations.Ceil(elapsed, SECOND)));
      }
      FinishKept(before, now);
    }
  }

  class Job {
    var name: string
    var rule: string
    var status: StatusText
    var enabled: bool
    var maxRetry: int
    var work: Work
    var nextRunAt: Option<Time>
    var lastRunAt: Option<Time>

    constructor Load(row: JobRow)
      ensures status == Known(row.status) && forall s :: RowWith(s) == row.(status := s)
    {
      name, rule, status, enabled, maxRetry := row.name, row.rule, Known(row.status), row.enabled, row.maxRetry;
      work, nextRunAt, lastRunAt := row.work, row.nextRunAt, row.lastRunAt;
    }

    constructor New(name: string, rule: string, status: StatusText, maxRetry: int, work: Work)
      ensures this.status == status
      ensures forall s :: RowWith(s) == JobRow(name, rule, s, true, maxRetry, work, None, None)
    {
      this.name, this.rule, this.status, this.enabled, this.maxRetry := name, rule, status, true, maxRetry;
      this.work, this.nextRunAt, this.lastRunAt := work, None, None;
    }

    function Row(): JobRow
      reads this
      requires status.Known?
    {
      RowWith(status.status)
    }

    /** The row of a job that is given another status. */
    function RowWith(s: JobStatus): JobRow
      reads this
    {
      JobRow(name, rule, s, enabled, maxRetry, work, nextRunAt, lastRunAt)
    }

    method SyncDomainLogic(cron: Cron, now: Time)
      modifies this
      ensures status == Normalized(old(status))
      ensures status.Known? ==> Row() == Synced(old(RowWith(Normalized(status).status)), cron, now)
      ensures status.Known? ==> Synchronised(Row(), cron, now)
    {
      if status.Blank? {
        status := Known(Enabled);
      }
      enabled := status.Known? && (status.status.Enabled? || status.status.Active?);
      nextRunAt := None;
      if enabled && rule != "" && rule != MANUAL {
        var next := ComputeNextRun(cron, rule, now);
        if next.Ok? {
          nextRunAt := Some(next.value);
        }
      }
      if work.payload.None? {
        work := work.(payload := Some(map[]));
      }
    }
  }

  /** Job.are_dependencies_satisfied: edge by edge, giving up at the first unmet one. */
  method AreDependenciesSatisfied(db: Database, j: JobId) returns (satisfied: bool)
    ensures satisfied == DepsSatisfied(db.tables, j)
    ensures db.Valid() ==> (satisfied <==> AllMet(db.tables, j))
  {
    if db.Valid() {
      SatisfiedMeansAllMet(db.tables, j);
    }
    var w := db.tables;
    var incoming: set<(JobId, JobId)> := set e | e in w.deps.Keys && e.0 == j;
    var edges := Enumerate(incoming);
    assert forall k | 0 <= k < |edges| :: edges[k] in incoming;
    for i := 0 to |edges|
      invariant forall k | 0 <= k < |edges| :: edges[k] in w.deps
      invariant forall k | 0 <= k < i :: EdgeMet(w, edges[k].1, w.deps[edges[k]])
    {
      var latest := Newest(w, edges[i].1);
      if latest.None? {
        return false;
      }
      if w.runs[latest.value].status != w.deps[edges[i]] {
        return false;
      }
    }
    forall e | e in w.deps && e.0 == j
      ensures EdgeMet(w, e.1, w.deps[e])
    {
      assert e in incoming && e in edges;
    }
    return true;
  }

  /** _prepare_payload: the stored payload, the run's own fields laid over it, the attempt number last. */
  method PreparePayload(run: RunRow, job: JobRow) returns (payload: Payload)
    ensures payload == Executed(run, job).payload
    ensures var base := if run.work.payload.Some? then run.work.payload else job.work.payload;
            forall key: string :: At(payload, key) ==
              if key == "retry_count" then Some(Number(run.retryCount))
              else if key == "working_dir" && run.work.workingDir.Some? then Some(Text(run.work.workingDir.value))
              else if key == "script" && run.work.script.Some? then Some(Text(run.work.script.value))
              else if base.Some? then At(base.value, key) else None
  {
    Keys();
    var stored := if run.work.payload.Some? then run.work.payload else job.work.payload;
    payload := if stored.Some? then stored.value else map[];
    if run.work.script.Some? {
      payload := payload[SCRIPT := Text(run.work.script.value)];
    }
    if run.work.workingDir.Some? {
      payload := payload[WORKING_DIR := Text(run.work.workingDir.value)];
    }
    payload := payload[RETRY_COUNT := Number(run.retryCount)];
  }

  /** What run_job_task hands to execute_job: the run's own task type, payload and timeout, if it has them. */
  method PrepareExecution(run: RunRow, job: JobRow) returns (e: Execution)
    ensures e == Executed(run, job)
    ensures e.taskType == (if run.work.taskType.Some? then run.work.taskType.value else run.work.actionType)
    ensures run.work.timeoutSeconds != 0 ==> e.timeoutSeconds == run.work.timeoutSeconds
    ensures run.work.timeoutSeconds == 0 ==> e.timeoutSeconds == job.work.timeoutSeconds
  {
    var payload := PreparePayload(run, job);
    var timeout := if run.work.timeoutSeconds != 0 then run.work.timeoutSeconds else job.work.timeoutSeconds;
    var taskType := if run.work.taskType.Some? then run.work.taskType.value else run.work.actionType;
    e := Execution(taskType, payload, timeout);
  }
}
