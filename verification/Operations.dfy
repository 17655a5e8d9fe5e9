/** What each service call does, as a function on the tables. The service classes are proved against these. */
module Operations {
  import opened Basics
  import opened Schedule
  import opened Rows
  import opened Payloads
  import Durations

  // ---------------------------------------------------------------- one run

  function OrElse<T>(o: Option<T>, default: T): Option<T> {
    if o.Some? then o else Some(default)
  }

  /** JobRun.start */
  function Started(row: RunRow, now: Time): RunRow {
    row.(startTime := OrElse(row.startTime, now), heartbeatAt := Some(now), status := Running)
  }

  /** JobRun.complete */
  function Completed(row: RunRow, now: Time): RunRow {
    var done := row.(endTime := Some(now), heartbeatAt := Some(now), lockedBy := None, lockedUntil := None);
    match row.startTime
    case None => done
    case Some(start) => done.(durationMs := Some(Durations.PyMilliseconds(now - start)),
                              durationSeconds := Some(Durations.PySeconds(now - start)))
  }

  /** A worker takes the run under a lease of `lockSeconds`. */
  function Claimed(row: RunRow, worker: string, lockSeconds: int, now: Time): RunRow {
    Started(row, now).(workerId := Some(worker), lockedBy := Some(worker),
                       lockedUntil := Some(now + lockSeconds * SECOND))
  }

  /** The lease ran out; the application service also stamps a heartbeat, the domain service does not. */
  function Released(row: RunRow, now: Time, stamp: bool): RunRow {
    row.(status := Pending, workerId := None, lockedBy := None, lockedUntil := None,
         heartbeatAt := if stamp then Some(now) else row.heartbeatAt)
  }

  predicate Expired(row: RunRow, now: Time) {
    row.status.Running? && row.lockedUntil.Some? && row.lockedUntil.value < now
  }

  function WithOutput(row: RunRow, out: Output): RunRow {
    row.(stdout := if out.stdout.Some? then out.stdout else row.stdout,
         stderr := if out.stderr.Some? then out.stderr else row.stderr,
         errorMessage := if out.errorMessage.Some? then out.errorMessage else row.errorMessage)
  }

  /** The status part of update_status; None stands for any text that is no run status. */
  function StatusApplied(row: RunRow, status: Option<RunStatus>, now: Time): RunRow {
    if status == Some(Running) then Started(row, now)
    else if status.Some? && status.value.Terminal() then Completed(row.(status := status.value), now)
    else row
  }

  /** The worker parks a run that an external system will finish. */
  function Parked(row: RunRow, externalId: string, stdout: Option<string>): RunRow {
    row.(status := AwaitingResult, externalId := Some(externalId), stdout := stdout)
  }

  // ---------------------------------------------------------------- new runs

  function NewRun(job: JobId, parent: Option<RunId>, trigger: Trigger, retryCount: nat, work: Work): RunRow {
    RunRow(job, parent, trigger, retryCount, work, Pending, None, None, None, None, None, None,
           None, None, None, None, None, None)
  }

  /** The copy of the job's definition that a triggered or scheduled run carries. */
  function Snapshot(work: Work): Work {
    work.(taskType := Some(if work.taskType.Some? then work.taskType.value else work.actionType))
  }

  /** The copy a retry carries: task type, script and working directory are not passed on. */
  function Stripped(work: Work): Work {
    work.(taskType := None, script := None, workingDir := None)
  }

  function RetryOf(r: RunId, row: RunRow): RunRow {
    NewRun(row.job, Some(r), ByRetry, row.retryCount + 1, Stripped(row.work))
  }

  function AddRun(w: World, row: RunRow): World {
    w.(runs := w.runs[w.nextRun := row], nextRun := w.nextRun + 1)
  }

  /** Several rows inserted one after the other. */
  function AddRuns(runs: map<RunId, RunRow>, next: RunId, rows: seq<RunRow>): (m: map<RunId, RunRow>)
    ensures forall r :: r in m <==> r in runs || next <= r < next + |rows|
    ensures forall r | r in runs && !(next <= r < next + |rows|) :: m[r] == runs[r]
    ensures forall r | next <= r < next + |rows| :: m[r] == rows[r - next]
  {
    if rows == [] then runs
    else AddRuns(runs, next, rows[..|rows| - 1])[next + |rows| - 1 := rows[|rows| - 1]]
  }

  function SetRun(w: World, r: RunId, row: RunRow): World {
    w.(runs := w.runs[r := row])
  }

  // ---------------------------------------------------------------- dependencies

  /** The newest run of a job among those created before `below`. */
  function NewestBelow(runs: map<RunId, RunRow>, j: JobId, below: RunId): (r: Option<RunId>)
    ensures r.Some? ==> r.value < below && r.value in runs && runs[r.value].job == j
    ensures forall s | s in runs && s < below && runs[s].job == j :: r.Some? && s <= r.value
  {
    if below == 0 then None
    else if below - 1 in runs && runs[below - 1].job == j then Some(below - 1)
    else NewestBelow(runs, j, below - 1)
  }

  function Newest(w: World, j: JobId): Option<RunId> {
    NewestBelow(w.runs, j, w.nextRun)
  }

  predicate EdgeMet(w: World, upstream: JobId, required: RunStatus) {
    var r := Newest(w, upstream);
    r.Some? && w.runs[r.value].status == required
  }

  predicate DepsSatisfied(w: World, j: JobId) {
    forall e | e in w.deps && e.0 == j :: EdgeMet(w, e.1, w.deps[e])
  }

  // ---------------------------------------------------------------- the queue

  /** Pending, under an enabled job, and neither row locked by another transaction. */
  predicate Lockable(w: World, busy: Busy, r: RunId) {
    && r in w.runs && r !in busy.runs
    && w.runs[r].status.Pending?
    && w.runs[r].job in w.jobs && w.runs[r].job !in busy.jobs
    && w.jobs[w.runs[r].job].enabled && w.jobs[w.runs[r].job].status.On()
  }

  function FirstLockable(w: World, busy: Busy, excluded: set<RunId>, from: RunId): (r: Option<RunId>)
    requires from <= w.nextRun
    ensures r.Some? ==> from <= r.value < w.nextRun && Lockable(w, busy, r.value) && r.value !in excluded
    ensures r.Some? ==> forall s | from <= s < r.value :: !(Lockable(w, busy, s) && s !in excluded)
    ensures r.None? ==> forall s | from <= s < w.nextRun :: !(Lockable(w, busy, s) && s !in excluded)
    decreases w.nextRun - from
  {
    if from == w.nextRun then None
    else if Lockable(w, busy, from) && from !in excluded then Some(from)
    else FirstLockable(w, busy, excluded, from + 1)
  }

  /** JobRunRepository.find_next_run_to_lock: the oldest lockable run outside `excluded`. */
  function FindNextRunToLock(w: World, busy: Busy, excluded: set<RunId>): Option<RunId> {
    FirstLockable(w, busy, excluded, 0)
  }

  lemma FoundIsOldest(w: World, busy: Busy, excluded: set<RunId>)
    ensures var c := FindNextRunToLock(w, busy, excluded);
            match c {
              case Some(r) =>
                && r < w.nextRun && Lockable(w, busy, r) && r !in excluded
                && forall s | s in w.runs && s < r :: !(Lockable(w, busy, s) && s !in excluded)
              case None => forall s | s in w.runs && s < w.nextRun :: !(Lockable(w, busy, s) && s !in excluded)
            }
  {
  }

  /** Pending runs that wait for an upstream job. */
  function Blocked(w: World): set<RunId> {
    set r | r in w.runs && w.runs[r].status.Pending? && !DepsSatisfied(w, w.runs[r].job)
  }

  /** The run that dequeue_next_run takes. */
  function Choice(w: World, busy: Busy): Option<RunId> {
    FindNextRunToLock(w, busy, Blocked(w))
  }

  function Claim(w: World, r: Option<RunId>, worker: string, lockSeconds: int): World
    requires r.Some? ==> r.value in w.runs
  {
    if r.None? then w else SetRun(w, r.value, Claimed(w.runs[r.value], worker, lockSeconds, w.now))
  }

  // JobRunService.dequeue_next_run
  function Dequeue(w: World, worker: string, lockSeconds: int, busy: Busy): World {
    Claim(w, Choice(w, busy), worker, lockSeconds)
  }

  // QueueService.dequeue_and_lock and db_lock_pending_job: the same without the dependency check
  function LockOldest(w: World, worker: string, lockSeconds: int, busy: Busy): World {
    Claim(w, FindNextRunToLock(w, busy, {}), worker, lockSeconds)
  }

  // ---------------------------------------------------------------- status updates and retries

  predicate BudgetLeft(w: World, row: RunRow) {
    row.job in w.jobs && row.retryCount < w.jobs[row.job].maxRetry
  }

  predicate CanRetry(w: World, row: RunRow) {
    row.status.Retryable() && (row.job in w.jobs ==> BudgetLeft(w, row))
  }

  // JobRunService.retry_run
  function RetryRun(w: World, r: RunId): World {
    if r in w.runs && CanRetry(w, w.runs[r]) then AddRun(w, RetryOf(r, w.runs[r])) else w
  }

  predicate AutoRetries(w: World, row: RunRow, status: Option<RunStatus>) {
    status.Some? && status.value.Failing() && BudgetLeft(w, row)
  }

  // JobRunService.update_status
  function UpdateStatus(w: World, r: RunId, status: Option<RunStatus>, out: Output): World {
    if r !in w.runs then w
    else
      var row := w.runs[r];
      var w1 := SetRun(w, r, WithOutput(StatusApplied(row, status, w.now), out));
      if AutoRetries(w, row, status) then AddRun(w1, RetryOf(r, row)) else w1
  }

  // JobRunService.heartbeat
  function Heartbeat(w: World, r: RunId): World {
    if r !in w.runs then w else SetRun(w, r, w.runs[r].(heartbeatAt := Some(w.now)))
  }

  // JobRunService.release_expired_locks and QueueService.cleanup_expired_runs
  function ReleaseExpired(w: World, stamp: bool): World {
    w.(runs := map r | r in w.runs ::
         if Expired(w.runs[r], w.now) then Released(w.runs[r], w.now, stamp) else w.runs[r])
  }

  // run_job_task, the awaiting branch; the executor never reports an empty external id
  function Park(w: World, r: RunId, externalId: string, stdout: Option<string>): World {
    if r in w.runs && externalId != "" then SetRun(w, r, Parked(w.runs[r], externalId, stdout)) else w
  }

  // ---------------------------------------------------------------- jobs

  /** Rules for which `sync_domain_logic` asks for a next run: it clears next_run_at for all others. */
  predicate Scheduled(rule: string) {
    rule != "" && rule != MANUAL
  }

  /** The next run of a rule as seen from a moment, if it can be computed. */
  function NextRun(cron: Cron, rule: string, at: Time): Option<Time> {
    var next := ComputeNextRun(cron, rule, at);
    if next.Ok? then Some(next.value) else None
  }

  /** Job.sync_domain_logic on a row whose status is already one of the five. */
  function Synced(row: JobRow, cron: Cron, now: Time): JobRow {
    var on := row.status.On();
    row.(enabled := on,
         nextRunAt :=
           if on && Scheduled(row.rule) then NextRun(cron, row.rule, now) else None,
         work := row.work.(payload := OrElse(row.work.payload, map[])))
  }

  function Normalized(t: StatusText): StatusText {
    if t.Blank? then Known(Enabled) else t
  }

  /** The column constraints on a job row. */
  predicate Acceptable(row: JobRow) {
    row.maxRetry >= 0 && row.work.timeoutSeconds > 0
  }

  /** find_by_task_name, among the jobs below a counter. */
  function Named(jobs: map<JobId, JobRow>, name: string, below: JobId): (r: Option<JobId>)
    ensures r.Some? ==> r.value < below && r.value in jobs && jobs[r.value].name == name
    ensures r.None? ==> forall j | j in jobs && j < below :: jobs[j].name != name
  {
    if below == 0 then None
    else if below - 1 in jobs && jobs[below - 1].name == name then Some(below - 1)
    else Named(jobs, name, below - 1)
  }

  /** The lookup by primary key. */
  function WithId(jobs: map<JobId, JobRow>, ids: JobId -> string, text: string, below: JobId): (r: Option<JobId>)
    ensures r.Some? ==> r.value < below && r.value in jobs && ids(r.value) == text
    ensures r.None? ==> forall j | j in jobs && j < below :: ids(j) != text
  {
    if below == 0 then None
    else if below - 1 in jobs && ids(below - 1) == text then Some(below - 1)
    else WithId(jobs, ids, text, below - 1)
  }

  /** The jobs table as a lookup sees it. */
  datatype JobTable = JobTable(jobs: map<JobId, JobRow>, ids: JobId -> string, next: JobId)

  /** The job that a text in `depends_on` means: by name, or else by id. */
  function Lookup(t: JobTable, text: string): (r: Option<JobId>)
    ensures r.Some? ==> r.value in t.jobs
  {
    var named := Named(t.jobs, text, t.next);
    if named.Some? then named else WithId(t.jobs, t.ids, text, t.next)
  }

  /** The jobs that the texts mean, if each means one. */
  function Meant(t: JobTable, texts: seq<string>): (r: Option<seq<JobId>>)
    ensures r.Some? <==> forall x | x in texts :: Lookup(t, x).Some?
    ensures r.Some? ==> |r.value| == |texts| && forall i | 0 <= i < |texts| :: Lookup(t, texts[i]) == Some(r.value[i])
  {
    if texts == [] then Some([])
    else
      var last, front := texts[|texts| - 1], Meant(t, texts[..|texts| - 1]);
      assert texts == texts[..|texts| - 1] + [last];
      if front.None? || Lookup(t, last).None? then None else Some(front.value + [Lookup(t, last).value])
  }

  /** Every named upstream exists, none twice (unique pair), and not the job itself. */
  predicate DepsAccepted(t: JobTable, j: JobId, texts: seq<string>) {
    var upstream := Meant(t, texts);
    upstream.Some? && NoDuplicates(upstream.value) && j !in upstream.value
  }

  /** The edges of job j replaced by "success" edges to the given jobs. */
  function WithDeps(deps: map<(JobId, JobId), RunStatus>, j: JobId, upstream: seq<JobId>)
    : map<(JobId, JobId), RunStatus>
  {
    (map e | e in deps && e.0 != j :: deps[e]) + (map u | u in upstream :: (j, u) := Success)
  }

  /** The edges of job j are exactly the new ones, those of all other jobs are as before. */
  lemma WithDepsEdges(deps: map<(JobId, JobId), RunStatus>, j: JobId, upstream: seq<JobId>)
    ensures forall e: (JobId, JobId) ::
              && (e in WithDeps(deps, j, upstream) <==> if e.0 == j then e.1 in upstream else e in deps)
              && (e in WithDeps(deps, j, upstream) ==>
                    WithDeps(deps, j, upstream)[e] == if e.0 == j then Success else deps[e])
  {
  }

  // db_create_dependency: a pair that exists already gets the new status
  function AddDependency(w: World, j: JobId, upstream: JobId, required: RunStatus): World {
    if j in w.jobs && upstream in w.jobs && j != upstream then w.(deps := w.deps[(j, upstream) := required]) else w
  }

  /** A request for a job that is run by hand only. */
  function ManualJob(name: string, maxRetry: int, q: Request): JobSpec {
    JobSpec(name, ScheduleFields(None, None, None), Blank, maxRetry, Ok(q), [])
  }

  function DraftJob(spec: JobSpec, status: JobStatus): JobRow
    requires spec.request.Ok?
  {
    JobRow(spec.name, ResolveScheduleRule(spec.schedule, None), status, true, spec.maxRetry,
           CreatedWork(spec.request.value), None, None)
  }

  function CreatedJob(w: World, spec: JobSpec): JobRow
    requires Normalized(spec.status).Known? && spec.request.Ok?
  {
    Synced(DraftJob(spec, Normalized(spec.status).status), w.cron, w.now)
  }

  /** The new job is flushed before its dependencies are looked up. */
  function TableWith(w: World, row: JobRow): JobTable {
    JobTable(w.jobs[w.nextJob := row], w.ids, w.nextJob + 1)
  }

  predicate CreateAccepted(w: World, spec: JobSpec) {
    && Named(w.jobs, spec.name, w.nextJob).None?
    && Normalized(spec.status).Known? && spec.request.Ok? && Acceptable(CreatedJob(w, spec))
    && DepsAccepted(TableWith(w, CreatedJob(w, spec)), w.nextJob, spec.dependsOn)
  }

  function CreatedUpstream(w: World, spec: JobSpec): seq<JobId>
    requires CreateAccepted(w, spec)
  {
    Meant(TableWith(w, CreatedJob(w, spec)), spec.dependsOn).value
  }

  // JobService.create_job
  function CreateJob(w: World, spec: JobSpec): World {
    if !CreateAccepted(w, spec) then w
    else w.(jobs := w.jobs[w.nextJob := CreatedJob(w, spec)], nextJob := w.nextJob + 1,
            deps := WithDeps(w.deps, w.nextJob, CreatedUpstream(w, spec)))
  }

  function EditStatus(row: JobRow, e: JobEdit): StatusText {
    Normalized(if e.status.Some? then e.status.value else Known(row.status))
  }

  function EditedJob(row: JobRow, e: JobEdit, status: JobStatus, cron: Cron, now: Time): JobRow
    requires e.change.Ok?
  {
    Synced(row.(name := if e.name.Some? then e.name.value else row.name,
                rule := if e.schedule.Some? then ResolveScheduleRule(e.schedule.value, Some(row.rule)) else row.rule,
                maxRetry := if e.maxRetry.Some? then e.maxRetry.value else row.maxRetry,
                work := ChangedWork(row.work, e.change.value),
                status := status),
           cron, now)
  }

  /** No other job has the name. */
  predicate NameFree(w: World, j: JobId, name: string) {
    forall k | k in w.jobs && k != j :: w.jobs[k].name != name
  }

  function TableOf(w: World): JobTable {
    JobTable(w.jobs, w.ids, w.nextJob)
  }

  predicate EditAccepted(w: World, j: JobId, e: JobEdit) {
    && j in w.jobs && e.change.Ok?
    && EditStatus(w.jobs[j], e).Known?
    && Acceptable(EditedJob(w.jobs[j], e, EditStatus(w.jobs[j], e).status, w.cron, w.now))
    && (e.name.Some? ==> NameFree(w, j, e.name.value))
    && (e.dependsOn.Some? ==> DepsAccepted(TableOf(w), j, e.dependsOn.value))
  }

  /** The session does not flush before the lookup, so names are those before the edit. */
  function EditedUpstream(w: World, j: JobId, e: JobEdit): seq<JobId>
    requires EditAccepted(w, j, e) && e.dependsOn.Some?
  {
    Meant(TableOf(w), e.dependsOn.value).value
  }

  // job_controller.update_job
  function EditJob(w: World, j: JobId, e: JobEdit): World {
    if !EditAccepted(w, j, e) then w
    else
      var row := EditedJob(w.jobs[j], e, EditStatus(w.jobs[j], e).status, w.cron, w.now);
      w.(jobs := w.jobs[j := row],
         deps := if e.dependsOn.Some? then WithDeps(w.deps, j, EditedUpstream(w, j, e)) else w.deps)
  }

  /** The edit that only switches a job on or off. */
  function Switch(on: bool): JobEdit {
    NO_EDIT.(status := Some(Known(if on then Enabled else Disabled)))
  }

  // job_controller.set_job_enabled
  function SetEnabled(w: World, j: JobId, on: bool): World {
    EditJob(w, j, Switch(on))
  }

  // job_controller.delete_job, with the cascade to the job's runs
  function DeleteJob(w: World, j: JobId): World {
    if j !in w.jobs then w
    else w.(jobs := w.jobs - {j},
            runs := map r | r in w.runs && w.runs[r].job != j :: w.runs[r],
            deps := map e | e in w.deps && e.0 != j && e.1 != j :: w.deps[e])
  }

  // job_controller.trigger_job
  function TriggerJob(w: World, j: JobId, trigger: Trigger): World {
    if j !in w.jobs || (trigger.BySchedule? && !w.jobs[j].enabled) then w
    else AddRun(w, NewRun(j, None, trigger, 0, Snapshot(w.jobs[j].work)))
  }

  // job_run_router.clear_all_runs
  function ClearRuns(w: World): World {
    w.(runs := map[])
  }

  // ---------------------------------------------------------------- the scheduler

  predicate Due(w: World, j: JobId) {
    && j in w.jobs && w.jobs[j].enabled && w.jobs[j].status.On()
    && w.jobs[j].nextRunAt.Some? && w.jobs[j].nextRunAt.value <= w.now
  }

  /** The jobs of `order` whose dependencies hold in the tables as they are before the scan. */
  function Ready(w: World, order: seq<JobId>): (q: seq<JobId>)
    ensures forall j :: j in q <==> j in order && DepsSatisfied(w, j)
    ensures NoDuplicates(order) ==> NoDuplicates(q)
  {
    if order == [] then []
    else
      var last, front := order[|order| - 1], order[..|order| - 1];
      assert order == front + [last];
      if DepsSatisfied(w, last) then Ready(w, front) + [last] else Ready(w, front)
  }

  predicate ScanRows(w: World, order: seq<JobId>) {
    NoDuplicates(order) && forall j | j in order :: Due(w, j)
  }

  function ScheduledRun(w: World, j: JobId): RunRow
    requires j in w.jobs
  {
    NewRun(j, None, BySchedule, 0, Snapshot(w.jobs[j].work))
  }

  function ScheduledRuns(w: World, batch: seq<JobId>): (rows: seq<RunRow>)
    requires forall j | j in batch :: j in w.jobs
    ensures |rows| == |batch|
  {
    seq(|batch|, i requires 0 <= i < |batch| => ScheduledRun(w, batch[i]))
  }

  function Rescheduled(w: World, j: JobId): JobRow
    requires j in w.jobs && ComputeNextRun(w.cron, w.jobs[j].rule, w.now).Ok?
  {
    w.jobs[j].(lastRunAt := Some(w.now), nextRunAt := Some(ComputeNextRun(w.cron, w.jobs[j].rule, w.now).value))
  }

  /** No rule in the batch makes compute_next_run raise. */
  predicate Computable(w: World, batch: seq<JobId>) {
    forall j | j in batch :: j in w.jobs && ComputeNextRun(w.cron, w.jobs[j].rule, w.now).Ok?
  }

  /** One pending run for every job of the batch, in order, and a new next_run_at for each. */
  function Enqueued(w: World, batch: seq<JobId>): World
    requires Computable(w, batch)
  {
    w.(jobs := map j | j in w.jobs :: if j in batch then Rescheduled(w, j) else w.jobs[j],
       runs := AddRuns(w.runs, w.nextRun, ScheduledRuns(w, batch)),
       nextRun := w.nextRun + |batch|)
  }

  // JobService.scan_due_jobs over the due rows in the order the query returned them
  function Scan(w: World, order: seq<JobId>): World {
    if ScanRows(w, order) && Computable(w, Ready(w, order)) then Enqueued(w, Ready(w, order)) else w
  }
}
