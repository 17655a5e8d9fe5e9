/** The tables of the scheduler as values: jobs, runs and dependency edges, with a clock. */
module Rows {
  import opened Basics
  import opened Schedule

  datatype RunStatus = Pending | Running | Success | Failed | Timeout | Canceled | AwaitingResult
  {
    predicate Terminal() { Success? || Failed? || Timeout? || Canceled? }
    predicate Failing() { Failed? || Timeout? }
    predicate Retryable() { Failed? || Timeout? || Canceled? }
    predicate Live() { !Terminal() }
  }

  datatype JobStatus = Enabled | Active | Paused | Disabled | Deleted
  {
    predicate On() { Enabled? || Active? }
  }

  datatype Trigger = BySchedule | ByHand | ByApi | ByRetry | ByDependency

  datatype ActionType = ApiCall | Shell | Python | Report | Email | Backup | FailTest | LongTask | ApiPoll

  /** Values of an action payload. Booleans, fractions, lists and objects are told apart by how Python prints
      them, and by whether Python takes them for true. */
  datatype Json = Null | Text(s: string) | Number(n: int) | Other(text: string, nonEmpty: bool)
  {
    predicate Truthy() {
      match this
      case Null => false
      case Text(s) => s != ""
      case Number(n) => n != 0
      case Other(_, nonEmpty) => nonEmpty
    }

    /** `str(v)` */
    function Printed(): string {
      match this
      case Null => "None"
      case Text(s) => s
      case Number(n) => Print(n)
      case Other(text, _) => text
    }
  }

  type Payload = map<string, Json>

  /** What a job asks to be executed, and the copy of it that a run carries. */
  datatype Work = Work(
    taskType: Option<ActionType>,
    script: Option<string>,
    workingDir: Option<string>,
    actionType: ActionType,
    payload: Option<Payload>,
    timeoutSeconds: int)

  type JobId = nat
  /** A run is named by its position in the creation order, which is also the order of `created_at`. */
  type RunId = nat

  datatype JobRow = JobRow(
    name: string,
    rule: string,
    status: JobStatus,
    enabled: bool,
    maxRetry: int,
    work: Work,
    nextRunAt: Option<Time>,
    lastRunAt: Option<Time>)

  /** `parent` names the run that a retry was made from; the table itself does not store it. */
  datatype RunRow = RunRow(
    job: JobId,
    parent: Option<RunId>,
    trigger: Trigger,
    retryCount: nat,
    work: Work,
    status: RunStatus,
    workerId: Option<string>,
    lockedBy: Option<string>,
    lockedUntil: Option<Time>,
    startTime: Option<Time>,
    endTime: Option<Time>,
    heartbeatAt: Option<Time>,
    durationMs: Option<int>,
    durationSeconds: Option<int>,
    externalId: Option<string>,
    stdout: Option<string>,
    stderr: Option<string>,
    errorMessage: Option<string>)

  /** The texts of a status report, None where one is not given. */
  datatype Output = Output(stdout: Option<string>, stderr: Option<string>, errorMessage: Option<string>)

  /** `deps[(j, u)] == s` is the edge "j waits until the newest run of u has status s"; `ids(j)` is the text of
      the primary key of job j. */
  datatype World = World(
    cron: Cron,
    ids: JobId -> string,
    now: Time,
    jobs: map<JobId, JobRow>,
    nextJob: JobId,
    runs: map<RunId, RunRow>,
    nextRun: RunId,
    deps: map<(JobId, JobId), RunStatus>)

  /** Rows that other open transactions hold; `SKIP LOCKED` passes over them. */
  datatype Busy = Busy(runs: set<RunId>, jobs: set<JobId>)

  const IDLE := Busy({}, {})
}
