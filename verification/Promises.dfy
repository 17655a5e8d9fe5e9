/** What each call promises, said a second time and apart from the functions that compute it: relations between
    the tables before and after, in terms of rows and columns alone. */
module Promises {
  import opened Basics
  import opened Schedule
  import opened Rows
  import opened Payloads

  // ---------------------------------------------------------------- what stays

  /** No table but the runs, and there no row but r. */
  ghost predicate OnlyRun(w: World, w': World, r: RunId) {
    && r in w.runs && w' == w.(runs := w'.runs) && w'.runs.Keys == w.runs.Keys
    && forall s | s in w.runs && s != r :: w'.runs[s] == w.runs[s]
  }

  /** One new row, named by the counter. */
  ghost predicate OneInserted(w: World, w': World, row: RunRow) {
    && w' == w.(runs := w'.runs, nextRun := w.nextRun + 1) && w'.runs.Keys == w.runs.Keys + {w.nextRun}
    && w'.runs[w.nextRun] == row
    && forall s | s in w.runs :: w'.runs[s] == w.runs[s]
  }

  /** A run as it is inserted: nothing has happened to it. */
  function Untouched(job: JobId, parent: Option<RunId>, trigger: Trigger, retryCount: nat, work: Work): RunRow {
    RunRow(job, parent, trigger, retryCount, work, Pending, None, None, None, None, None, None, None, None, None,
           None, None, None)
  }

  // ---------------------------------------------------------------- dependencies

  /** Run r is the newest run of job u. */
  ghost predicate NewestRun(w: World, u: JobId, r: RunId) {
    r in w.runs && w.runs[r].job == u && forall s | s in w.runs && w.runs[s].job == u :: s <= r
  }

  /** For every dependency of job j, the upstream job has a newest run, and that has the required status. */
  ghost predicate AllMet(w: World, j: JobId) {
    forall e | e in w.deps && e.0 == j :: exists r :: NewestRun(w, e.1, r) && w.runs[r].status == w.deps[e]
  }

  // ---------------------------------------------------------------- the queue

  /** Nobody else holds the run or its job, it is pending, and its job is on. */
  ghost predicate Takeable(w: World, busy: Busy, r: RunId) {
    && r in w.runs && w.runs[r].status == Pending && r !in busy.runs
    && w.runs[r].job in w.jobs && w.runs[r].job !in busy.jobs
    && var job := w.jobs[w.runs[r].job]; job.enabled && (job.status == Enabled || job.status == Active)
  }

  ghost predicate Taken(w: World, w': World, r: RunId, worker: string, lockSeconds: int) {
    && OnlyRun(w, w', r)
    && w'.runs[r] == w.runs[r].(
         status := Running, workerId := Some(worker), lockedBy := Some(worker),
         lockedUntil := Some(w.now + lockSeconds * 1_000_000), heartbeatAt := Some(w.now),
         startTime := if w.runs[r].startTime.Some? then w.runs[r].startTime else Some(w.now))
  }

  /** The oldest run that can be taken and whose dependencies are all met is taken, or there is none. */
  ghost predicate Dequeued(w: World, w': World, run: Option<RunId>, worker: string, lockSeconds: int, busy: Busy) {
    match run
    case Some(r) =>
      && Takeable(w, busy, r) && AllMet(w, w.runs[r].job) && Taken(w, w', r, worker, lockSeconds)
      && forall s | s in w.runs && s < r && Takeable(w, busy, s) :: !AllMet(w, w.runs[s].job)
    case None =>
      w' == w && forall s | s in w.runs && Takeable(w, busy, s) :: !AllMet(w, w.runs[s].job)
  }

  /** The oldest run that can be taken is taken, or there is none. */
  ghost predicate OldestLocked(w: World, w': World, run: Option<RunId>, worker: string, lockSeconds: int, busy: Busy) {
    match run
    case Some(r) =>
      && Takeable(w, busy, r) && Taken(w, w', r, worker, lockSeconds)
      && forall s | s in w.runs && s < r :: !Takeable(w, busy, s)
    case None => w' == w && forall s | s in w.runs :: !Takeable(w, busy, s)
  }

  /** Every running run whose lease is over waits again, and every other run is left alone. */
  ghost predicate LeasesReleased(w: World, w': World, stamp: bool) {
    && w' == w.(runs := w'.runs) && w'.runs.Keys == w.runs.Keys
    && (forall r | r in w.runs ::
          var row := w.runs[r];
          w'.runs[r] == if row.status == Running && row.lockedUntil.Some? && row.lockedUntil.value < w.now
                        then row.(status := Pending, workerId := None, lockedBy := None, lockedUntil := None,
                                  heartbeatAt := if stamp then Some(w.now) else row.heartbeatAt)
                        else row)
    && (forall r | r in w'.runs && w'.runs[r].status == Running && w'.runs[r].lockedUntil.Some? ::
          w'.runs[r].lockedUntil.value >= w'.now)
  }

  ghost predicate HeartbeatSent(w: World, w': World, r: RunId) {
    if r in w.runs then OnlyRun(w, w', r) && w'.runs[r] == w.runs[r].(heartbeatAt := Some(w.now)) else w' == w
  }

  // ---------------------------------------------------------------- status reports

  /** The nearest millisecond, the even one of two, and the seconds rounded up, of at least one millisecond. */
  predicate EntityDurations(d: Time, ms: Option<int>, seconds: Option<int>) {
    var e := if d < 1000 then 1000 else d;
    && ms.Some? && seconds.Some?
    && -500 <= e - 1000 * ms.value <= 500 && (e - 1000 * ms.value in [-500, 500] ==> ms.value % 2 == 0)
    && 1_000_000 * (seconds.value - 1) < e <= 1_000_000 * seconds.value
  }

  /** Milliseconds and seconds rounded up, of at least one microsecond. */
  predicate TriggerDurations(d: Time, ms: Option<int>, seconds: Option<int>) {
    var e := if d < 1 then 1 else d;
    && ms.Some? && seconds.Some?
    && 1000 * (ms.value - 1) < e <= 1000 * ms.value
    && 1_000_000 * (seconds.value - 1) < e <= 1_000_000 * seconds.value
  }

  /** Each text that is given goes to its own column. */
  predicate TextsStored(row: RunRow, row': RunRow, out: Output) {
    && row'.stdout == (if out.stdout.Some? then out.stdout else row.stdout)
    && row'.stderr == (if out.stderr.Some? then out.stderr else row.stderr)
    && row'.errorMessage == (if out.errorMessage.Some? then out.errorMessage else row.errorMessage)
  }

  predicate RunStarted(row: RunRow, row': RunRow, now: Time) {
    row' == row.(stdout := row'.stdout, stderr := row'.stderr, errorMessage := row'.errorMessage,
                 status := Running, heartbeatAt := Some(now),
                 startTime := if row.startTime.Some? then row.startTime else Some(now))
  }

  predicate RunFinished(row: RunRow, row': RunRow, status: RunStatus, now: Time) {
    && row' == row.(stdout := row'.stdout, stderr := row'.stderr, errorMessage := row'.errorMessage,
                    durationMs := row'.durationMs, durationSeconds := row'.durationSeconds,
                    status := status, endTime := Some(now), heartbeatAt := Some(now),
                    lockedBy := None, lockedUntil := None)
    && (row.startTime.None? ==> row'.durationMs == row.durationMs && row'.durationSeconds == row.durationSeconds)
    && (row.startTime.Some? ==> EntityDurations(now - row.startTime.value, row'.durationMs, row'.durationSeconds))
  }

  /** Running starts the run, a final status finishes it, any other leaves all but the texts. */
  predicate RowReported(row: RunRow, row': RunRow, status: Option<RunStatus>, out: Output, now: Time) {
    && TextsStored(row, row', out)
    && match status
       case Some(Running) => RunStarted(row, row', now)
       case Some(Success) => RunFinished(row, row', Success, now)
       case Some(Failed) => RunFinished(row, row', Failed, now)
       case Some(Timeout) => RunFinished(row, row', Timeout, now)
       case Some(Canceled) => RunFinished(row, row', Canceled, now)
       case _ => row' == row.(stdout := row'.stdout, stderr := row'.stderr, errorMessage := row'.errorMessage)
  }

  /** The columns that the UPDATE of the database function sets, for every status; durations apart. */
  predicate ColumnsUpdated(row: RunRow, row': RunRow, status: RunStatus, out: Output, now: Time) {
    var final := status in [Success, Failed, Timeout, Canceled];
    && TextsStored(row, row', out)
    && row' == row.(stdout := row'.stdout, stderr := row'.stderr, errorMessage := row'.errorMessage,
                    durationMs := row'.durationMs, durationSeconds := row'.durationSeconds, status := status,
                    startTime := if status == Running && row.startTime.None? then Some(now) else row.startTime,
                    endTime := if final then Some(now) else row.endTime,
                    heartbeatAt := if final || status == Running then Some(now) else row.heartbeatAt,
                    lockedBy := if final then None else row.lockedBy,
                    lockedUntil := if final then None else row.lockedUntil)
    && (row'.startTime.None? || row'.endTime.None? ==>
          row'.durationMs == row.durationMs && row'.durationSeconds == row.durationSeconds)
    && (row'.startTime.Some? && row'.endTime.Some? ==>
          TriggerDurations(row'.endTime.value - row'.startTime.value, row'.durationMs, row'.durationSeconds))
  }

  /** The job has retries left for the run. */
  ghost predicate RetryLeft(w: World, row: RunRow) {
    row.job in w.jobs && row.retryCount < w.jobs[row.job].maxRetry
  }

  /** The next attempt of a run: action, payload and timeout are passed on, and nothing else of the work. */
  function NextAttempt(r: RunId, row: RunRow): RunRow {
    Untouched(row.job, Some(r), ByRetry, row.retryCount + 1,
              Work(None, None, None, row.work.actionType, row.work.payload, row.work.timeoutSeconds))
  }

  /** Only the run changes, and a failure or timeout with a retry left inserts the next attempt. */
  ghost predicate StatusReported(w: World, w': World, r: RunId, status: Option<RunStatus>, out: Output) {
    if r !in w.runs then w' == w
    else
      var retry := (status == Some(Failed) || status == Some(Timeout)) && RetryLeft(w, w.runs[r]);
      && w' == w.(runs := w'.runs, nextRun := w.nextRun + if retry then 1 else 0)
      && w'.runs.Keys == w.runs.Keys + (if retry then {w.nextRun} else {})
      && (forall s | s in w.runs && s != r :: w'.runs[s] == w.runs[s])
      && (retry ==> w'.runs[w.nextRun] == NextAttempt(r, w.runs[r]))
      && RowReported(w.runs[r], w'.runs[r], status, out, w.now)
  }

  /** A failed, timed out or canceled run is retried unless its job has no retry left for it. */
  ghost predicate Retried(w: World, w': World, r: RunId, accepted: bool) {
    && (accepted <==> r in w.runs && w.runs[r].status in [Failed, Timeout, Canceled]
                      && (w.runs[r].job in w.jobs ==> RetryLeft(w, w.runs[r])))
    && (accepted ==> OneInserted(w, w', NextAttempt(r, w.runs[r])))
    && (!accepted ==> w' == w)
  }

  ghost predicate ParkedForResult(w: World, w': World, r: RunId, externalId: string, stdout: Option<string>) {
    if r in w.runs && externalId != "" then
      && OnlyRun(w, w', r)
      && w'.runs[r] == w.runs[r].(status := AwaitingResult, externalId := Some(externalId), stdout := stdout)
    else w' == w
  }

  // ---------------------------------------------------------------- jobs

  /** The copy of a definition that a run carries. */
  function CopyOf(work: Work): Work {
    Work(Some(if work.taskType.Some? then work.taskType.value else work.actionType), work.script, work.workingDir,
         work.actionType, work.payload, work.timeoutSeconds)
  }

  /** Only a scheduled trigger of a disabled job is refused. */
  ghost predicate Triggered(w: World, w': World, j: JobId, trigger: Trigger, accepted: bool) {
    && (accepted <==> j in w.jobs && (trigger == BySchedule ==> w.jobs[j].enabled))
    && (accepted ==> OneInserted(w, w', Untouched(j, None, trigger, 0, CopyOf(w.jobs[j].work))))
    && (!accepted ==> w' == w)
  }

  /** The job is gone with its runs and all edges from and to it. */
  ghost predicate JobDeleted(w: World, w': World, j: JobId) {
    if j !in w.jobs then w' == w
    else
      && w' == w.(jobs := w'.jobs, runs := w'.runs, deps := w'.deps)
      && w'.jobs.Keys == w.jobs.Keys - {j} && (forall k | k in w'.jobs :: w'.jobs[k] == w.jobs[k])
      && (forall r :: r in w'.runs <==> r in w.runs && w.runs[r].job != j)
      && (forall r | r in w'.runs :: w'.runs[r] == w.runs[r])
      && (forall e :: e in w'.deps <==> e in w.deps && e.0 != j && e.1 != j)
      && (forall e | e in w'.deps :: w'.deps[e] == w.deps[e])
  }

  ghost predicate DependencyStored(w: World, w': World, j: JobId, upstream: JobId, required: RunStatus,
                                   accepted: bool) {
    && (accepted <==> j in w.jobs && upstream in w.jobs && j != upstream)
    && (accepted ==>
          && w' == w.(deps := w'.deps) && w'.deps.Keys == w.deps.Keys + {(j, upstream)}
          && w'.deps[(j, upstream)] == required
          && forall e | e in w.deps && e != (j, upstream) :: w'.deps[e] == w.deps[e])
    && (!accepted ==> w' == w)
  }

  /** Enabled and the next run follow from status and rule; a payload is stored. */
  predicate Synchronised(row: JobRow, cron: Cron, now: Time) {
    && row.enabled == (row.status == Enabled || row.status == Active)
    && (if row.enabled && row.rule != "" && row.rule != "manual" then
          match ComputeNextRun(cron, row.rule, now)
          case Ok(t) => row.nextRunAt == Some(t)
          case Err => row.nextRunAt == None
        else row.nextRunAt == None)
    && row.work.payload.Some?
  }

  /** Job u is what a text in `depends_on` names: by its name, or by its id if no job has such a name. */
  predicate Means(jobs: map<JobId, JobRow>, ids: JobId -> string, text: string, u: JobId) {
    && u in jobs
    && (jobs[u].name == text || (ids(u) == text && forall k | k in jobs :: jobs[k].name != text))
  }

  /** Job j has an edge requiring success for each text, to a job of its own, and no other; other edges stay. */
  ghost predicate EdgesNamed(w: World, deps: map<(JobId, JobId), RunStatus>, jobs: map<JobId, JobRow>, j: JobId,
                             texts: seq<string>) {
    && (forall e: (JobId, JobId) | e.0 != j :: (e in deps <==> e in w.deps) && (e in w.deps ==> deps[e] == w.deps[e]))
    && (forall e | e in deps && e.0 == j :: deps[e] == Success && e.1 != j && NamedBy(jobs, w.ids, texts, e.1))
    && (forall i | 0 <= i < |texts| :: HasEdgeFor(deps, jobs, w.ids, j, texts[i]))
    && |set e | e in deps && e.0 == j| == |texts|
  }

  predicate NamedBy(jobs: map<JobId, JobRow>, ids: JobId -> string, texts: seq<string>, u: JobId) {
    exists i :: 0 <= i < |texts| && Means(jobs, ids, texts[i], u)
  }

  ghost predicate HasEdgeFor(deps: map<(JobId, JobId), RunStatus>, jobs: map<JobId, JobRow>, ids: JobId -> string,
                             j: JobId, text: string) {
    exists u :: u in jobs && (j, u) in deps && Means(jobs, ids, text, u)
  }

  /** Why a list of dependencies is refused. */
  ghost predicate NamesRefused(jobs: map<JobId, JobRow>, ids: JobId -> string, j: JobId, texts: seq<string>) {
    || (exists i :: 0 <= i < |texts| && forall u | u in jobs :: !Means(jobs, ids, texts[i], u))
    || (exists i :: 0 <= i < |texts| && Means(jobs, ids, texts[i], j))
    || (exists i, k, u :: 0 <= i < k < |texts| && u in jobs
                          && Means(jobs, ids, texts[i], u) && Means(jobs, ids, texts[k], u))
  }

  function Value(p: Payload, key: string): Option<Json> {
    if key in p then Some(p[key]) else None
  }

  /** The first of three texts that is given and not empty. */
  function FirstText(a: Option<string>, b: Option<string>, c: Option<string>): Option<string> {
    if a.Some? && a.value != "" then a
    else if b.Some? && b.value != "" then b
    else if c.Some? && c.value != "" then c else None
  }

  function Inner(o: Option<Option<string>>): Option<string> {
    match o
    case Some(Some(text)) => Some(text)
    case _ => None
  }

  /** The key of the payload wins over a field that is not empty. */
  function KeyOrField(p: Payload, key: string, field: Option<string>): Option<Json> {
    if key in p then Some(p[key]) else if field.Some? && field.value != "" then Some(Text(field.value)) else None
  }

  /** A given field wins over the key, also a null one. */
  function FieldOrKey(p: Payload, key: string, field: Option<Option<string>>): Option<Json> {
    match field
    case Some(Some(text)) => Some(Text(text))
    case Some(None) => Some(Null)
    case None => Value(p, key)
  }

  /** For API calls and working directories a key of the request payload wins over the flat field; a script text
      wins over the payload; everything else is the request's own. */
  ghost predicate PayloadOfRequest(p: Payload, q: Request) {
    var script := FirstText(q.script, q.shellScript, q.scriptContent);
    forall key: string :: Value(p, key) ==
      if q.action == ApiCall && key == "method" then KeyOrField(q.payload, key, q.apiMethod)
      else if q.action == ApiCall && key == "url" then KeyOrField(q.payload, key, q.apiUrl)
      else if q.action in [Shell, Python] && key in ["script", "content"] && script.Some? then Some(Text(script.value))
      else if q.action in [Shell, Python] && key == "working_dir" then KeyOrField(q.payload, key, q.workingDir)
      else Value(q.payload, key)
  }

  /** The stored definition of a new job. */
  ghost predicate WorkOfRequest(work: Work, q: Request) {
    && work.taskType == Some(if q.taskType.Some? then q.taskType.value else q.action)
    && work.script == q.script && work.workingDir == q.workingDir && work.actionType == q.action
    && work.timeoutSeconds == q.timeoutSeconds
    && work.payload.Some? && PayloadOfRequest(work.payload.value, q)
  }

  /** A given field replaces the stored key, also by null; a non-empty script text is stored under both names. */
  ghost predicate PayloadRebuilt(p: Payload, base: Payload, action: ActionType, c: Change) {
    var script := FirstText(Inner(c.script), Inner(c.shellScript), Inner(c.scriptContent));
    forall key: string :: Value(p, key) ==
      if action == ApiCall && key == "method" then FieldOrKey(base, key, c.apiMethod)
      else if action == ApiCall && key == "url" then FieldOrKey(base, key, c.apiUrl)
      else if action in [Shell, Python] && key in ["script", "content"] && script.Some? then Some(Text(script.value))
      else if action in [Shell, Python] && key == "working_dir" then FieldOrKey(base, key, c.workingDir)
      else Value(base, key)
  }

  /** The stored definition after an edit. */
  ghost predicate WorkChanged(work: Work, work': Work, c: Change) {
    && work'.actionType == (if c.action.Some? then c.action.value else work.actionType)
    && work'.taskType == (if c.taskType.Some? then c.taskType.value else work.taskType)
    && work'.script == (if c.script.Some? then c.script.value else work.script)
    && work'.workingDir == (if c.workingDir.Some? then c.workingDir.value else work.workingDir)
    && work'.timeoutSeconds == (if c.timeoutSeconds.Some? then c.timeoutSeconds.value else work.timeoutSeconds)
    && work'.payload.Some?
    && var base := if work.payload.Some? then work.payload.value else map[];
       if c.payload.Some? then work'.payload.value == if c.payload.value.Some? then c.payload.value.value else map[]
       else if c.apiMethod.Some? || c.apiUrl.Some? || c.shellScript.Some? || c.scriptContent.Some? || c.script.Some?
               || c.workingDir.Some?
       then PayloadRebuilt(work'.payload.value, base, work'.actionType, c)
       else work'.payload.value == base
  }

  /** The new job row, before its edges. */
  ghost predicate RowOfRequest(row: JobRow, spec: JobSpec, cron: Cron, now: Time) {
    && row.name == spec.name && row.rule == ResolveScheduleRule(spec.schedule, None) && row.maxRetry == spec.maxRetry
    && row.lastRunAt == None
    && spec.status != Unknown && row.status == (if spec.status.Known? then spec.status.status else Enabled)
    && Synchronised(row, cron, now)
    && spec.request.Ok? && WorkOfRequest(row.work, spec.request.value)
  }

  ghost predicate JobCreated(w: World, w': World, spec: JobSpec, accepted: bool) {
    && (accepted ==>
          && w' == w.(jobs := w'.jobs, nextJob := w.nextJob + 1, deps := w'.deps)
          && w'.jobs.Keys == w.jobs.Keys + {w.nextJob}
          && (forall k | k in w.jobs :: w'.jobs[k] == w.jobs[k] && w.jobs[k].name != spec.name)
          && RowOfRequest(w'.jobs[w.nextJob], spec, w.cron, w.now)
          && spec.maxRetry >= 0 && spec.request.value.timeoutSeconds > 0
          && EdgesNamed(w, w'.deps, w'.jobs, w.nextJob, spec.dependsOn))
    && (!accepted ==>
          && w' == w
          && (|| (exists k :: k in w.jobs && w.jobs[k].name == spec.name)
              || spec.status == Unknown || spec.request.Err? || spec.maxRetry < 0
              || spec.request.value.timeoutSeconds <= 0
              || (exists row :: RowOfRequest(row, spec, w.cron, w.now)
                                && NamesRefused(w.jobs[w.nextJob := row], w.ids, w.nextJob, spec.dependsOn))))
  }

  /** The row of an edited job. */
  ghost predicate RowChanged(row: JobRow, row': JobRow, e: JobEdit, cron: Cron, now: Time) {
    && row'.name == (if e.name.Some? then e.name.value else row.name)
    && row'.rule == (if e.schedule.Some? then ResolveScheduleRule(e.schedule.value, Some(row.rule)) else row.rule)
    && row'.maxRetry == (if e.maxRetry.Some? then e.maxRetry.value else row.maxRetry)
    && row'.lastRunAt == row.lastRunAt
    && e.status != Some(Unknown)
    && row'.status == (if e.status.None? then row.status
                       else if e.status.value.Known? then e.status.value.status else Enabled)
    && Synchronised(row', cron, now)
    && e.change.Ok? && WorkChanged(row.work, row'.work, e.change.value)
  }

  ghost predicate JobEdited(w: World, w': World, j: JobId, e: JobEdit, accepted: bool) {
    && (accepted ==>
          && j in w.jobs && w' == w.(jobs := w'.jobs, deps := w'.deps) && w'.jobs.Keys == w.jobs.Keys
          && (forall k | k in w.jobs && k != j :: w'.jobs[k] == w.jobs[k])
          && RowChanged(w.jobs[j], w'.jobs[j], e, w.cron, w.now)
          && w'.jobs[j].maxRetry >= 0 && w'.jobs[j].work.timeoutSeconds > 0
          && (e.name.Some? ==> forall k | k in w.jobs && k != j :: w.jobs[k].name != e.name.value)
          && (if e.dependsOn.Some? then EdgesNamed(w, w'.deps, w.jobs, j, e.dependsOn.value) else w'.deps == w.deps))
    && (!accepted ==>
          && w' == w
          && (|| j !in w.jobs || e.change.Err? || e.status == Some(Unknown)
              || (exists row :: RowChanged(w.jobs[j], row, e, w.cron, w.now)
                                && (row.maxRetry < 0 || row.work.timeoutSeconds <= 0))
              || (e.name.Some? && exists k :: k in w.jobs && k != j && w.jobs[k].name == e.name.value)
              || (e.dependsOn.Some? && NamesRefused(w.jobs, w.ids, j, e.dependsOn.value))))
  }

  /** The job is on or off as asked; switched off it has no next run; nothing else of it changes. */
  ghost predicate JobSwitched(w: World, w': World, j: JobId, on: bool) {
    && j in w.jobs && w' == w.(jobs := w'.jobs) && w'.jobs.Keys == w.jobs.Keys
    && (forall k | k in w.jobs && k != j :: w'.jobs[k] == w.jobs[k])
    && w'.jobs[j] == w.jobs[j].(status := if on then Enabled else Disabled, enabled := on,
                                nextRunAt := w'.jobs[j].nextRunAt, work := w'.jobs[j].work)
    && (w.jobs[j].work.payload.Some? ==> w'.jobs[j].work == w.jobs[j].work)
    && (!on ==> w'.jobs[j].nextRunAt == None)
    && Synchronised(w'.jobs[j], w.cron, w.now)
  }

  // ---------------------------------------------------------------- the scheduler

  /** Of the jobs that the scan can see: on, with a next run that has come, and with all dependencies met. */
  ghost predicate Wanted(w: World, seen: set<JobId>, j: JobId) {
    && j in w.jobs && j in seen && w.jobs[j].enabled && (w.jobs[j].status == Enabled || w.jobs[j].status == Active)
    && w.jobs[j].nextRunAt.Some? && w.jobs[j].nextRunAt.value <= w.now
    && AllMet(w, j)
  }

  /** Run r is new and scheduled for job j. */
  ghost predicate ScheduledFor(w: World, w': World, r: RunId, j: JobId) {
    && w.nextRun <= r < w'.nextRun && r in w'.runs && j in w.jobs
    && w'.runs[r] == Untouched(j, None, BySchedule, 0, CopyOf(w.jobs[j].work))
  }

  /** Exactly the wanted jobs get one new run each, and their last and next run; or one of them has no next run,
      and nothing changes. */
  ghost predicate Scanned(w: World, w': World, seen: set<JobId>, done: bool) {
    && (done ==>
          && w' == w.(jobs := w'.jobs, runs := w'.runs, nextRun := w'.nextRun) && w.nextRun <= w'.nextRun
          && (forall r :: r in w'.runs <==> r in w.runs || w.nextRun <= r < w'.nextRun)
          && (forall r | r in w.runs :: w'.runs[r] == w.runs[r])
          && (forall r | w.nextRun <= r < w'.nextRun ::
                Wanted(w, seen, w'.runs[r].job) && ScheduledFor(w, w', r, w'.runs[r].job))
          && (forall r, s | w.nextRun <= r < s < w'.nextRun :: w'.runs[r].job != w'.runs[s].job)
          && (forall j | Wanted(w, seen, j) :: exists r :: ScheduledFor(w, w', r, j))
          && w'.jobs.Keys == w.jobs.Keys
          && (forall j | j in w.jobs && !Wanted(w, seen, j) :: w'.jobs[j] == w.jobs[j])
          && (forall j | j in w.jobs && Wanted(w, seen, j) ::
                && w'.jobs[j] == w.jobs[j].(lastRunAt := Some(w.now), nextRunAt := w'.jobs[j].nextRunAt)
                && w'.jobs[j].nextRunAt.Some?
                && ComputeNextRun(w.cron, w.jobs[j].rule, w.now) == Ok(w'.jobs[j].nextRunAt.value)))
    && (!done ==>
          w' == w && exists j :: Wanted(w, seen, j) && ComputeNextRun(w.cron, w.jobs[j].rule, w.now).Err?)
  }
}
