# Verified model of the job scheduler's run queue

This project models the protocol that the scheduler, the workers, the status poller and the API play on the
tables `jobs`, `job_runs` and `job_dependencies`, and proves what holds in every history of it. All proofs are
about all inputs, all histories and all interleavings of steps; there are no bounds.

`dafny verify dfyconfig.toml` checks the whole project.

## What is modelled

| module | contents |
|---|---|
| `Rows`, `Basics` | the rows of the three tables as values, the clock, the rows other transactions have locked |
| `Schedule` | rule strings: printing, the three readers, `str.strip` and `int`, the next due time |
| `Durations` | the two duration formulas on exact microseconds |
| `Operations` | the effect of each service call as a function on the tables |
| `Promises` | the effect of each service call said a second time, as relations between rows and columns before and after that use nothing of `Operations` |
| `PromisesKept` | every operation, and so every step, keeps its promise; the service methods promise the same |
| `Protocol` | the steps, histories, and the complete effect of a step on each row (`Follows`) |
| `Invariants` | what holds in every reachable state |
| `Leases` | disjoint leases; claims against notifications and releases |
| `Retries`, `Attempts` | depth of retries, visibility of failures, termination, the exact number of attempts |
| `Scheduling` | one scan, its order, the rate of scans over time |
| `Stalls` | what dequeue picks, and why it may find nothing |
| `Payloads` | how create and update requests become the stored definition of the work |
| `Snapshots`, `Repetition` | what a worker executes, and for which requests a retry repeats it |
| `SkipLocked`, `Sessions` | dequeue split into its single statements, refining the atomic protocol; what a session settles on |
| `Entities`, `JobRunService`, `JobService`, `QueueService`, `Workers`, `SchedulerLoop`, `StatusPoller` | the classes and methods, assigning fields in place, proved against `Operations` and `Protocol` |

A history (`Protocol.History`) starts from empty tables and takes any steps in any order: `Tick` (time passes),
`Create`, `Edit`, `Enable`, `Delete`, `Depend`, `TriggerNow`, `ScanDue`, `Pull` (the worker's dequeue),
`PullOldest` (the two dequeues without a dependency check), `Await`, `ReportStatus` (worker, poller, API and
cancel all finish runs this way, with any status and at any time), `Retry`, `Beat`, `ReleaseLeases` and `Clear`.

Assumptions that the model makes:

- There is one clock and it never runs backwards. `created_at` is strictly increasing, so a run is named by its
  position in the creation order.
- Every service call is one atomic step. `update_status` with an automatic retry commits twice in the source
  (the retry together with the failure, then the output texts); the model takes both as one step. That
  releasing leases is one step is an assumption and not a consequence: `find_expired_runs` takes no row locks.
  Dequeue does hold row locks while it decides, and it is also modelled statement by statement, with other
  sessions in between (`SkipLocked`, `Sessions`).
- Rows that other transactions hold are a parameter (`Busy`) of each dequeue; `SKIP LOCKED` passes over them.
  The joined `FOR UPDATE` locks the job row too, so "oldest" is always relative to `Busy`.
- `croniter` is a validity predicate and a next-time function that may give nothing (`get_next` then raises);
  nothing else is assumed of it. Formatting a template is a predicate in the same way.
- What is executed (`Snapshots.Executed`) is what the worker loop hands to an executor; a worker that pulls over
  HTTP is handed something else (`Snapshots.Pulled`).
- Action payloads are maps from keys to JSON values; booleans, fractions, lists and objects are told apart by how
  Python prints them and by whether Python takes them for true.

## What is false, and the exact conditions

- *A dependent job never sees a failure that can still be retried* fails when an edit raises `max_retry` after
  the failure (`Retries.RaisedBudgetShowsFailure` gives the history). It is kept by a step exactly when the step
  is not such an edit (`Retries.TransientFailureExactly`).
- *A retry repeats the work of the run it retries* fails because task type, script and working directory are not
  copied. Work means what the executor takes from the payload (`Snapshots.Read`): for scripts `content` before
  `script`, for shell jobs `command` before both, an empty working directory like none. A retry repeats it exactly
  when `Snapshots.SurvivesStripping` holds (`Snapshots.RetryRepeatsExactly`); `Repetition` says which create
  requests (`CreatedJobRepeats`) and which edits of which jobs (`EditedJobRepeats`) give such runs, and shows two
  histories that do not: a task type other than the action (`RetryLosesTaskType`), and an edit of the payload that
  drops the script (`RetryLosesScript`).
- *It does not matter which kind of worker claims a run* fails because a worker that pulls over HTTP is handed the
  action and the stored payload only. It holds for a run exactly under the same condition, and so for every retry
  (`Snapshots.PulledAlikeExactly`).
- *One job cannot abort the scheduler's scan* fails for a job whose cron expression has no further occurrence:
  `sync_domain_logic` catches that error, the scan does not, and the round ends before it releases leases
  (`SchedulerLoop.ExhaustedCronStopsScan` gives the history). In reachable states that is the only cause
  (`Invariants.ScanAbortsExactly`, `SchedulerLoop.RoundRunsExactly`).
- *A polling round polls every parked run* fails when the `status_url` of one cannot be formatted: that error is
  caught nowhere in the round (`StatusPoller.BrokenTemplateBlocks` gives the history). A run whose external system
  has answered is finished exactly if no run up to it, in query order, has such a template
  (`StatusPoller.RoundFinishesExactly`).
- *The service and the database function update a run alike* fails for `pending` and `awaiting_result`, which the
  service ignores (`QueueService.StatusUpdatesAgreeExactly`).
- *A rule is called an interval rule when it runs as one* fails exactly for rules with leading white space
  (`Schedule.ReadingsDiffer`, `Schedule.LeadingBlank`).
- *A stall always has a cause outside the queue* fails for two jobs that wait for each other's success, which the
  tables allow (`Stalls.DeadlockHappens` gives the history). A pending run of an enabled job has no such cause
  exactly when its job belongs to a set of jobs that wait only for each other, each one they wait for being queued
  (`Stalls.StallWithoutCauseIsDeadlock`). It always has one when no cycle of edges that ask for more than `pending`
  exists (`Stalls.AcyclicStallHasOutsideCause`).

## Where the code and its documentation disagree

The model follows the code.

- `README.md` line 416 of the repository says that disabled jobs cannot be triggered by hand. The code refuses
  only the trigger type `schedule` (`JobService.Service.TriggerJob`); a run triggered by hand then stays
  pending until its job is enabled.
- The legacy example with `"schedule_rule": "every:5m"` (`README.md` line 222) is rejected: the legacy parser
  accepts seconds only, although the scheduler understands minutes and hours
  (`Schedule.LegacyRejectsMinutesAndHours`). A bare cron expression is not recognised either: it is ignored, and
  the job becomes `manual` if the request has no schedule type of its own (`Schedule.BareLegacyRuleIgnored`).
- The declared constraint on `required_status` (`job_dependency.py:15-18`) allows only the four final statuses;
  `schema.sql` allows every run status, and so does the model.

## Model

| member | source | states |
|---|---|---|
| Leases.LeasesAreDisjoint | backend/app/application/services/job_run_service.py:20-42 | In every history, a claim locks the run for exactly the lock time, and the next claim of the same run happens strictly after that lease is over, whatever else happens between. |
| Leases.ExecutionsAreDisjoint | backend/app/services/worker_loop.py:44-58 | If an execution ends within the run's timeout and the timeout is at most the lock time, it is over before any other worker claims the run. |
| Leases.ClaimsMatchNotifications | backend/database/schema.sql:580-600 | For every run ever created: claims <= notifications <= claims + 1; releases = notifications - 1; pending means one notification not yet answered; locked means one claim not yet released. |
| Leases.GrantSetsLease | backend/app/application/services/job_run_service.py:32-37 | Only a pending run is handed out, and it then has the claiming worker, the lease and a status other than pending. |
| Leases.MoveKeepsGuard | backend/app/application/services/job_run_service.py:97-102 | Before a lease is over, nothing makes the run pending or prolongs the lease: no heartbeat, status report, parking or release. |
| Invariants.RunsAlwaysConsistent | backend/app/domain/entities/job_run.py:112-146 | In every reachable state: lock owner and lock time are null together; a lock means running or awaiting under that worker without an end time; pending means no lock, worker or end; final means no lock, an end not before the start and a heartbeat; running means started; awaiting means a non-empty external id. Job, parent, retry count, trigger, work and first start time of a run never change. |
| Invariants.JobsAlwaysConsistent | backend/app/domain/entities/job.py:97-123 | In every reachable state: enabled exactly when the status is enabled or active; without that, or with a blank or manual rule, no next run, and otherwise the one the rule gave at some moment up to now; a readable interval always gives one, at least an interval after the last run; the table constraints hold. |
| Invariants.ScanNeverAborts | backend/app/application/services/job_service.py:133-153 | Where every cron expression always has a next occurrence: no scan of a reachable state is aborted, and a job with a readable rule has a next run exactly when it is enabled. |
| Invariants.ScanAbortsExactly | backend/app/application/services/job_service.py:133-156 | In every reachable state, a scan is aborted, and then changes nothing, exactly when some ready job has a cron rule with no further occurrence. |
| Invariants.LookupFinds | backend/app/infrastructure/repositories/job_repository.py:10-12 | In every reachable state a job is found by its name, which is unique, and by its id exactly if that is no other job's name. |
| SchedulerLoop.Round | backend/app/services/scheduler_loop.py:15-28 | One round, in rows: exactly the enabled jobs whose next run has come and whose dependencies are all met get one new run each and their next run, then every running run whose lease is over waits again; or one of those jobs has no next run, and nothing changes. |
| SchedulerLoop.RoundRunsExactly | backend/app/services/scheduler_loop.py:17-26 | In every reachable state, a round is a scan step followed by a release step, or does nothing exactly when some ready job has a cron rule with no further occurrence. |
| SchedulerLoop.ExhaustedCronStopsScan | backend/app/services/schedule_utils.py:50-53 | For every cron expression with one occurrence left, a history after which a ready interval job is not scheduled because of it. |
| Invariants.InvKept | backend/database/schema.sql:53-131 | Every step keeps the whole invariant: the lives of runs, the state of jobs, unique task names, the retry forest, the foreign keys and the ban on self-dependencies. |
| Invariants.SyncedOk | backend/app/domain/entities/job.py:97-123 | Whatever a job row was before, after sync_domain_logic its enabled flag, next run and interval spacing are consistent. |
| Invariants.RescheduledOk | backend/app/application/services/job_service.py:151-153 | A job that a scan reschedules stays consistent. |
| Invariants.RowKept | backend/app/domain/entities/job_run.py:112-146 | Each way of changing a run keeps a consistent run consistent, including starting, finishing again and parking a finished run. |
| Invariants.EdgesKept | backend/app/domain/entities/job_dependency.py:12-20 | Every step keeps dependency edges between two different existing jobs. |
| Invariants.Continuity | backend/app/presentation/controllers/job_controller.py:149-158 | A run that exists at a late moment existed at every moment since it was created: deleted runs never come back under the same name. |
| Invariants.Forward | backend/app/services/schedule_utils.py:6-7 | Along every history the clock and the counters that name rows never decrease. |
| Protocol.StepFollows | backend/app/application/services/job_run_service.py:20-127 | The complete effect of every step, row by row: which runs disappear, how each other run changes, which runs are inserted; exactly how each job changes and which is created or deleted; which edges there are afterwards; the clock. |
| Protocol.BirthsAreFresh | backend/app/application/services/job_run_service.py:112-123 | Every inserted run is pending and untouched under an existing job; it is a first attempt with the job's current work, or the retry of the named run within the job's budget. |
| PromisesKept.StepKeepsPromise | backend/app/application/services/job_run_service.py:20-127 | Every step, on any tables, keeps the promise made of it in rows and columns alone: which row it takes or refuses, what every column is afterwards, and that nothing else changes. |
| PromisesKept.SatisfiedMeansAllMet | backend/app/domain/entities/job.py:84-94 | The dependency check holds if and only if for every edge there is a run of the upstream job with the required status and no run of that job is newer. |
| PromisesKept.DequeueKept | backend/app/infrastructure/repositories/job_run_repository.py:18-27 | The run taken is pending, of an enabled job, held by nobody, with all dependencies met, and no older run is all that; none is taken only if there is no such run. |
| PromisesKept.ReleaseKept | backend/app/infrastructure/repositories/job_run_repository.py:33-42 | After the release every run that was running with a lock time before now is pending without worker or lock, every other row is as before, and no running run has a lease that is over. |
| PromisesKept.ReportKept | backend/app/application/services/job_run_service.py:44-80 | A status report changes its run column by column as promised, and inserts the next attempt exactly for a failure or timeout with a retry left. |
| PromisesKept.ScanKept | backend/app/application/services/job_service.py:120-157 | A scan creates a run of a job exactly if it is enabled, seen, its stored next run is at or before now and its dependencies are met, one for each; or one of those has no next run, and nothing changes. |
| PromisesKept.CreateKept | backend/app/application/services/job_service.py:15-81 | A request that is accepted adds one row with the columns it asks for and one edge for each named job; one that is refused has one of the stated faults. |
| PromisesKept.EditKept | backend/app/presentation/controllers/job_controller.py:126-146 | An accepted edit changes the job column by column as asked and replaces its edges if it names any; a refused one has one of the stated faults. |
| PromisesKept.SwitchKept | backend/app/presentation/controllers/job_controller.py:161-167 | Switching on or off sets status and flag as asked, clears the next run when off, and leaves everything else. |
| PromisesKept.DeleteKept | backend/app/presentation/controllers/job_controller.py:149-158 | The job goes with exactly its runs and the edges from and to it; all other rows stay. |
| PromisesKept.EntityDurationsKept | backend/app/domain/entities/job_run.py:124-133 | The entity stores the nearest millisecond, the even one of two, and the seconds rounded up, of at least one millisecond. |
| PromisesKept.TriggerDurationsKept | backend/database/schema.sql:185-195 | The trigger stores milliseconds and seconds rounded up, of at least one microsecond. |
| Retries.TransientFailureExactly | backend/app/application/services/job_run_service.py:50-63 | From tables in which no newest run of a job is a failure with retries left, a step leads to such tables again if and only if it is not an edit that raises max_retry above the attempts of a failed newest run. |
| Retries.FailureDependencyIsFinal | backend/app/domain/entities/job.py:84-94 | In every history without such an edit, a dependency on failed or timeout is met only by a run that has used up its job's retries. |
| Retries.FailureWasSpent | backend/app/application/services/job_run_service.py:50-63 | In every history, with any edits: if the newest run of a job is failed or timed out, it had at some earlier moment used up the budget the job then had. |
| Retries.RaisedBudgetShowsFailure | backend/app/presentation/controllers/job_controller.py:126-146 | A concrete four-step history after which dependents see a failure that can still be retried. |
| Retries.NewestFailureStep | backend/app/application/services/job_run_service.py:55-60 | If the newest run of a job is a failure after a step, it was the newest before, and was a failure already or had no retry left. |
| Retries.RetryDepthBounded | backend/app/application/services/job_run_service.py:104-127 | In every history, with any manual retries and repeated finishes: a run's retry count is its depth in the retry tree and at most the max_retry its job had at some moment. |
| Retries.DepthIsRetryCount | backend/app/application/services/job_run_service.py:112-119 | Following parent links, the number of retries above a run is its retry count. |
| Retries.NewestIsNewest | backend/app/domain/entities/job.py:85-90 | The query for the latest run of a job finds a run exactly when no run of that job is newer. |
| Attempts.ExactlyMinPlusOneAttempts | backend/app/application/services/job_run_service.py:50-63 | If the first k attempts of a run fail and no later one does, and nobody retries by hand, reports on a finished attempt, changes the budget or deletes the runs, then once all are over there are exactly min(k, max_retry) + 1 attempts, under any interleaving with other jobs, other edits and lease expiries. |
| Attempts.AttemptsAreBirths | backend/app/application/services/job_run_service.py:44-127 | In every history without any condition: as long as a run exists, its attempts are those it had before, and one more for each failure of an attempt with a retry left and each retry of an attempt by hand. |
| Attempts.ChainKept | backend/app/application/services/job_run_service.py:55-60 | Every orderly step keeps the attempts of a run a chain in which all but the last failed within the budget, and leaves the budget unchanged. |
| Attempts.ProgressDecreases | backend/app/services/worker_loop.py:44-81 | Every claim, parking and finish strictly decreases a measure of the whole run table, also a failure that adds a retry. |
| Attempts.WorkIsBounded | backend/app/services/worker_loop.py:36-84 | Over any stretch of worker steps in any history, the number of claims, parkings and finishes is at most the measure at its start. |
| Scheduling.ScanCreatesOnePerReadyJob | backend/app/application/services/job_service.py:120-157 | A scan creates exactly one run, a copy of the job before the scan, for exactly the met jobs whose dependencies held before the scan, and reschedules exactly those. |
| Scheduling.ScanOrderIrrelevant | backend/app/application/services/job_service.py:133-154 | Any two orders of the due jobs give the same job rows, the same number of runs, and per job the same new run rows. |
| Scheduling.ScheduleRateBounded | backend/app/application/services/job_service.py:120-157 | While the rule asks for at least d between runs, scans between two moments create at most elapsed / d + 1 runs of the job, whatever else is edited, enabled or triggered. |
| Stalls.ChoiceIsOldestReady | backend/app/application/services/job_run_service.py:22-29 | The chosen run is the oldest that is pending, unlocked, under an enabled job and waiting for nothing; none is chosen exactly when there is none. |
| Stalls.DequeueIsLockOldestWithoutBlocked | backend/app/domain/services/queue_service.py:17-39 | The choice equals that of the two dequeues without dependency check on the table from which the waiting runs are removed. |
| Stalls.NoSpuriousStall | backend/app/application/services/job_run_service.py:22-29 | With nothing locked elsewhere, if dequeue finds nothing then every pending run of an enabled job starts a chain of unmet dependencies that ends at an upstream job without a run, with a newest run past pending, or switched off, or one that closes a cycle of queued jobs. |
| Stalls.AcyclicStallHasOutsideCause | backend/app/domain/entities/job_dependency.py:12-20 | Without cycles of edges that ask for more than pending, the chain always ends at such an upstream job. |
| Stalls.StallWithoutCauseIsDeadlock | backend/app/domain/entities/job.py:84-95 | In a stall, a pending run of an enabled job has no cause outside the queue if and only if its job is in a set of jobs that wait only for queued jobs of the set; and then a cycle of waiting runs inside the set. |
| Stalls.NoOutsideCauseExactly | backend/app/domain/entities/job.py:84-95 | The same equivalence for every job in every state, stalled or not. |
| Stalls.DeadlockHappens | backend/app/domain/entities/job_dependency.py:12-20 | A concrete history of five requests after which two pending runs wait for each other and dequeue finds nothing. |
| Snapshots.ExecutionFixedAtCreation | backend/app/services/worker_loop.py:24-52 | In every history, the task type, payload and timeout a worker would execute for a run are the same at any two moments at which the run exists, whatever edits its job gets. |
| Snapshots.RetryRepeatsExactly | backend/app/application/services/job_run_service.py:112-122 | In every reachable state, along a retry chain of any length, the executor does the same with the same inputs for a retry as for the first attempt if and only if task type and action agree (or do not matter) and the payload holds what the executor would take from the run's own script and working directory. |
| Snapshots.PulledAlikeExactly | backend/app/presentation/api/worker_router.py:26-41 | In every reachable state, a worker that pulls a run over HTTP is asked to do the same as the worker loop would exactly under that condition, and so for every retry. |
| Snapshots.DescendantWork | backend/app/application/services/job_run_service.py:112-122 | Every direct or indirect retry of a run carries that run's work without task type, script and working directory, under the same job. |
| Snapshots.OverlayVisible | backend/app/application/services/executor.py:30-177 | For every executor: laying script and working directory over a payload changes what it takes from the payload exactly unless the payload holds them already, or hides them, or nothing is run. |
| Snapshots.ReadAlikeSameInputs | backend/app/application/services/executor.py:30-177 | Two payloads that count as the same work for an executor agree on every input it uses: command, script text, arguments, directory, method, URL, headers and body. |
| Snapshots.TaskTypeIsRead | backend/app/application/services/executor.py:30-31 | Executions under different task types do the same exactly when both are API executors stopped by the same method that is no text. |
| Snapshots.AttemptNumberIsNoInput | backend/app/application/services/executor.py:17-20 | The attempt number in the payload changes nothing that an executor takes, apart from the environment variable that reports it. |
| Repetition.CreatedJobRepeats | backend/app/application/services/job_service.py:22-53 | For every create request of any action: runs of the new job and their retries execute the same work if and only if task type and action agree and, for a script, the request gives text and working directory without contradiction. |
| Repetition.EditedJobRepeats | backend/app/presentation/controllers/job_controller.py:71-123 | For every stored definition and every edit, whether it gives a payload, has it rebuilt or keeps it: exactly when later runs and their retries execute the same work. |
| Repetition.RetryAfterEdit | backend/app/application/services/job_run_service.py:104-127 | For every create request and every edit, a history in which the job is created, edited and triggered and its run fails: run and retry execute the same work exactly under that condition. |
| Repetition.RetryLosesTaskType | backend/app/application/services/job_run_service.py:112-122 | A history in which a run executes a report and its retry an API call. |
| Repetition.RetryLosesScript | backend/app/presentation/controllers/job_controller.py:119-123 | A history in which an edit of the payload drops the script: the run executes the text of the script field, its retry finds no script. |
| Repetition.ApiJobSends | backend/app/application/services/executor.py:30-45 | What a new API job sends: method and URL of the payload, else the flat fields, else GET; nothing when the method is no text or there is no URL. |
| Repetition.EditedApiJobSends | backend/app/presentation/controllers/job_controller.py:102-108 | What it sends after an edit: a given method or URL replaces the stored one; nothing when that makes the method or the URL null. |
| Payloads.BuildPayload | backend/app/application/services/job_service.py:24-37 | For API calls and working directories a key of the request payload wins over the flat field; a non-empty script text wins over the payload under both its names; every other key is the request's own. |
| Payloads.RebuildActionPayload | backend/app/presentation/controllers/job_controller.py:102-116 | For API calls a given method or URL, and for scripts a given working directory, replaces the stored one, also by null; a script is replaced, under both names, only when one of the three texts is non-empty; every other key stays. |
| Payloads.ApplyChange | backend/app/presentation/controllers/job_controller.py:71-123 | A given payload wins over all fields that would rebuild it; without such fields the payload stays; an empty edit changes nothing; else the fields replace the old ones and the payload is rebuilt for the new action. |
| SkipLocked.NoRowLockedTwice | backend/app/infrastructure/repositories/job_run_repository.py:18-27 | In every interleaving of split dequeues no run and no job is locked by two open transactions, and a locked run is still pending under an enabled job. |
| SkipLocked.SplitRefinesAtomic | backend/app/application/services/job_run_service.py:22-41 | Every interleaving of split dequeues is, table state by table state, a history of the atomic protocol, in which each commit claims its one run; which run that is, the next two rows say. |
| Sessions.CommitWasOldestReady | backend/app/application/services/job_run_service.py:22-29 | For every commit of every interleaving, whatever others commit between the statements: the run was locked when every older run that could be taken had been skipped; the dependencies of its job were then read, and each was looked up and found met; and each skipped run had been locked, too, and one of the dependencies then read was found unmet. |
| Sessions.UndisturbedCommitIsDequeue | backend/app/application/services/job_run_service.py:20-42 | If nobody changes the tables between the beginning of a session and its commit, the commit is exactly the atomic dequeue with its dependency check among the rows others held when the run was locked. |
| SkipLocked.SplitStepIsAtomic | backend/app/application/services/job_run_service.py:32-41 | A commit changes the tables as one atomic claim of its run; beginning, selecting, locking, skipping and closing change no table. |
| SkipLocked.CommittedLeasesAreDisjoint | backend/app/application/services/job_run_service.py:20-42 | Two commits of the same run, by any workers in any interleaving, are separated by the whole lease of the first. |
| QueueService.StatusUpdatesAgreeExactly | backend/database/schema.sql:407-419 | The database function and update_status write the same row, durations aside, if and only if the new status is running, final, or the one the run has. |
| QueueService.StatusTablesAgreeExactly | backend/app/application/services/job_run_service.py:44-80 | Without retry budget the two leave the same tables, durations aside, exactly under that condition. |
| QueueService.FinishDurationsAgree | backend/database/schema.sql:185-195 | Finishing a started run, both give the same duration in seconds and milliseconds at most one apart. |
| QueueService.Service.DequeueAndLock | backend/app/domain/services/queue_service.py:17-39 | Takes the oldest pending run that nobody holds, of a job that is enabled and that nobody holds, and writes exactly the claim to its row; none if there is none. |
| QueueService.Service.CleanupExpiredRuns | backend/app/domain/services/queue_service.py:41-56 | Every running run whose lock time has passed is pending without worker or lock, every other run is as before, and no running run keeps a lease that is over; heartbeats stay as they were; the number is returned. |
| QueueService.Service.DbLockPendingJob | backend/database/schema.sql:358-381 | The same run and the same new state as dequeue_and_lock. |
| QueueService.Service.DbCheckDependencyFinished | backend/database/schema.sql:466-488 | True exactly when for every dependency the upstream job has a newest run, and that has the required status. |
| QueueService.Service.DbCreateDependency | backend/database/schema.sql:443-464 | Inserts the edge or replaces its required status; refuses a self-dependency and unknown jobs. |
| QueueService.Service.DbUpdateJobRunStatus | backend/database/schema.sql:388-441 | Every column of the row for every status; for running and final statuses of a run without retry budget it leaves the tables that update_status leaves, durations aside; a finished run has milliseconds and seconds rounded up. Only that run changes, or nothing when it does not exist. |
| JobRunService.Service.DequeueNextRun | backend/app/application/services/job_run_service.py:20-42 | The skip loop ends and takes the oldest pending run that nobody holds, of an enabled job that nobody holds, for which every upstream job has a newest run with the required status; or there is no such run. Only its row changes, by the claim. |
| JobRunService.Service.UpdateStatus | backend/app/application/services/job_run_service.py:44-80 | Unknown statuses only store texts; running starts; a final status finishes, with the durations in nearest milliseconds and whole seconds; each given text goes to its column; a failure or timeout within the budget also inserts one next attempt; a missing run is an error. |
| JobRunService.Service.RetryRun | backend/app/application/services/job_run_service.py:104-127 | Succeeds exactly for failed, timed out or canceled runs with retries left, and inserts one pending run with action, payload and timeout and nothing else of the work. |
| JobRunService.Service.ReleaseExpiredLocks | backend/app/application/services/job_run_service.py:82-95 | Every running run whose lock time has passed is pending without worker or lock and with a new heartbeat, every other run is as before, and no running run keeps a lease that is over; the number is returned. |
| JobRunService.Service.Heartbeat | backend/app/application/services/job_run_service.py:97-102 | Sets the heartbeat and nothing else. |
| JobRunService.SkippingIsSafe | backend/app/application/services/job_run_service.py:22-29 | As long as only waiting runs are skipped, the first run found that waits for nothing is the first of all. |
| JobRunService.FlushedRetry | backend/app/application/services/job_run_service.py:57-60 | The retry made from the flushed run, followed by later writes to that run, is the same as finishing and then inserting the retry of the run as it was. |
| JobService.Service.ScanDueJobs | backend/app/application/services/job_service.py:120-157 | Of the jobs nobody else holds, exactly those that are enabled, whose stored next run is at or before now, whatever their rule, and whose dependencies are all met get exactly one new run, and their last and next run; or the next run of one of them cannot be computed, and nothing changes. |
| JobService.Service.CreateJob | backend/app/application/services/job_service.py:15-81 | Refused, without any change, exactly for a taken name, a status, text or number that is not acceptable, or a dependency that is missing, repeated or the job itself; else one row is added with each column as the request asks, enabled and next run following from status and rule, and one edge for each named job. |
| JobService.Service.ResolveDependencies | backend/app/application/services/job_service.py:62-77 | Succeeds exactly when every text is the name, or else the id, of a job, none means a job twice and none the job itself; then the edges are exactly those, each requiring success. |
| JobService.Service.UpdateDependencies | backend/app/application/services/job_service.py:92-118 | After success the job has an edge, requiring success, to exactly the named jobs, and all edges of other jobs are as before; a missing, repeated or self name is an error. |
| JobService.EditedDependencies | backend/app/application/services/job_service.py:92-118 | After an accepted edit naming upstream jobs, the job is ready exactly when the newest run of each of them succeeded; every other job is ready exactly when it was. |
| JobService.Service.UpdateJob | backend/app/presentation/controllers/job_controller.py:126-146 | Sets the given fields and the change of the work column by column, replaces the edges if named, and recomputes enabled and next run; changes nothing when rejected: for a taken name, a null or unknown text in a checked column, a bad number or a bad dependency. |
| JobService.Service.SetJobEnabled | backend/app/presentation/controllers/job_controller.py:161-167 | In every consistent state, never rejected for an existing job: its status is then enabled or disabled as asked, and so is its flag; switched off it has no next run; name, rule, budget and work, all edges, runs and other jobs stay. |
| JobService.Service.DeleteJob | backend/app/presentation/controllers/job_controller.py:149-158 | Removes the job, all its runs and all edges from and to it. |
| JobService.Service.TriggerJob | backend/app/presentation/controllers/job_controller.py:170-192 | Refused exactly for a missing job or for the trigger type schedule on a disabled one; else inserts one pending copy of the job. |
| Entities.JobRun.Start | backend/app/domain/entities/job_run.py:135-146 | Sets the start time only if there is none, the heartbeat, and the status. |
| Entities.JobRun.Complete | backend/app/domain/entities/job_run.py:112-133 | Sets end and heartbeat, clears the lock, and computes durations exactly when the run was started. |
| Entities.Job.SyncDomainLogic | backend/app/domain/entities/job.py:97-123 | Blank becomes enabled; enabled, next run and payload are recomputed from status and rule. |
| Entities.AreDependenciesSatisfied | backend/app/domain/entities/job.py:73-95 | True exactly when for every dependency the upstream job has a newest run, and that has the required status. |
| Entities.PreparePayload | backend/app/services/worker_loop.py:24-34 | Key by key: the attempt number, then the given working directory and script of the run, then the stored payload of the run or else of the job. |
| Entities.PrepareExecution | backend/app/services/worker_loop.py:48-58 | The executor gets the run's own task type, or else its action, the prepared payload, and the run's timeout, or the job's if that is zero. |
| Workers.HandleResult | backend/app/services/worker_loop.py:60-84 | What the row is for each outcome: a stderr that starts with the timeout text makes it timeout, otherwise success gives success without a new run, and anything else failed with the error text; an exception is failed; an awaiting run gets external id and output, and keeps its lock. Each is one protocol step. |
| StatusPoller.PollAwaitingRuns | backend/app/services/status_poller.py:11-50 | The round raises exactly when some parked run has a template that cannot be formatted; it polls exactly the runs before the first such one, in query order, or else all; a run that is done becomes success with the text as output, a broken one failed with its text and error; the invariant is kept. |
| StatusPoller.RoundFinishesExactly | backend/app/services/status_poller.py:17-44 | A parked run whose external system has answered gets the status of the answer by a round if and only if no run up to it has a template that cannot be formatted; otherwise its row is untouched. |
| StatusPoller.BrokenTemplateBlocks | backend/app/services/status_poller.py:24-29 | For every bad and every good template, a history in which a job is corrected by an edit and its old parked run keeps the new one from being polled, whatever the external systems say. |
| Durations.DurationsAgree | backend/database/schema.sql:185-195 | For every elapsed time, also negative: the trigger's milliseconds are the entity's or one more, the seconds agree, and seconds and milliseconds fit together. |
| Durations.DurationsMonotone | backend/app/domain/entities/job_run.py:124-133 | A longer run never has a shorter duration, in all four columns. |
| Durations.RoundHalfEvenIsNearest | backend/app/domain/entities/job_run.py:130-131 | Python's rounding gives the nearest integer, the even one of two. |
| Schedule.IntervalRoundTrip | backend/app/services/schedule_utils.py:10-33 | For every integer n, the printed interval rule is read back as n by the job, by the scheduler and by the legacy parser. |
| Schedule.EveryRulesAgree | backend/app/domain/entities/job.py:137-160 | For every rule that starts with every:, whatever follows, the next run lies exactly interval_seconds ahead, and there is none exactly when that has no number. |
| Schedule.ReadingsDiffer | backend/app/services/schedule_utils.py:36-40 | The job and the scheduler disagree on whether a rule is an interval exactly when white space precedes every:. |
| Schedule.LeadingBlank | backend/app/domain/entities/job.py:137-143 | A blank before an interval rule changes what it is called but not when it runs. |
| Schedule.UnitsMean | backend/app/services/schedule_utils.py:40-48 | For every integer n: with the units s, m and h an interval of n lies n seconds, minutes or hours ahead. |
| Schedule.CronRequestRuns | backend/app/services/schedule_utils.py:50-53 | A requested cron expression is stored as it is, called a cron rule, and its next run is exactly the next occurrence of that expression, if it has one. |
| Schedule.UntypedRequestKeepsRule | backend/app/services/schedule_utils.py:10-33 | A request without a known schedule type keeps the rule of the job, or stays manual. |
| Schedule.SignedLiterals | backend/app/services/schedule_utils.py:42-47 | Python's int reads a sign and blanks around the digits. |
| Schedule.Underscores | backend/app/services/schedule_utils.py:42-47 | Python's int reads an underscore between two digits, and nowhere else. |
| Schedule.CronRoundTrip | backend/app/presentation/dtos/job_schema.py:69-71 | A cron expression written in the legacy form is stored unchanged. |
| Schedule.LegacyRejectsMinutesAndHours | backend/app/presentation/dtos/job_schema.py:72-76 | The legacy parser rejects every interval rule in minutes or hours. |
| Schedule.SyncLegacyFields | backend/app/presentation/dtos/job_schema.py:64-80 | What is then stored: manual and cron rules mean what they say; an interval becomes seconds, and is an error exactly when its number cannot be read; any other text is ignored. |
| Schedule.LegacyKeepsMeaning | backend/app/services/schedule_utils.py:36-48 | For every legacy interval rule with a readable number: with the unit s, the stored rule has the same next run as the rule itself; without it, the scheduler would have refused the rule. |
| Schedule.BareLegacyRuleIgnored | backend/app/presentation/dtos/job_schema.py:77-79 | Any other legacy text, such as a bare cron expression, has no influence on what is stored; it is manual when the request has no schedule type. |
| Schedule.PyIntReadsBack | backend/app/services/schedule_utils.py:42-47 | Python's int reads back the printed form of every integer. |

## Left out

- Schedule.SyncLegacyFields: models only the reading of `schedule_rule` as a text; the renaming of other legacy keys only moves values.
- JobService.Service.UpdateJob: leaves out the description; all nulls and unknown texts that the table rejects are one rejected case.
- Snapshots.RetryRepeatsExactly: compares what executors take from the payload, not what it then does: two spellings of one directory count as two, and a shell and a python run that are both refused for their directory count as different.
- Scheduling.ScanOrderIrrelevant: new runs of one scan get their names in the order of the scan, so the run tables of two orders agree per job and not name by name.
- QueueService.Service.DbUpdateJobRunStatus: stores the trigger's durations; elsewhere the tables hold the entity's durations although the trigger overwrites them, because no step reads a duration.
- StatusPoller.PollAwaitingRuns: takes the replies of the external systems as a parameter; no reply stands for a failed request and for unfinished work. The round is not interleaved with other sessions.
- Workers.HandleResult: requires an awaiting outcome to have an external id, which the executor guarantees (`executor.py:164-167`).
- The execution itself (subprocesses, HTTP calls, temporary files): any outcome may be reported at any time.
- Job logs, user ids, access checks, display names and descriptions, creation and update times: no step reads them.
- `create_job_run` and `db_create_job_run` with a retry count chosen by the caller: they break the link between depth and retry count, and no service uses them that way.
- The cron syntax and the times that cron expressions denote.
- Non-ASCII digits and white space in `int` and `strip`, and the overflow of `timedelta`.
- Rounding errors of floating point in elapsed times: durations are exact microseconds.
- Stale objects in the session, failures of the database, deadlocks, and the unguarded read-then-write of the lease release against a concurrent finish: calls are atomic steps.
- The clear endpoint as a method: it appears as the step `Clear`.
- The event loop, the semaphore and the LISTEN socket: a notification is counted when it is sent, and a worker may ask for work at any time.
- The front end, authentication, log search, dashboards and deployment: no run or job changes there.
