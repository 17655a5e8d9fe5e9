/** The worker's side of a run: which step each outcome of an execution becomes. */
module Workers {
  import opened Basics
  import opened Rows
  import opened Operations
  import opened Protocol
  import opened Entities
  import opened Promises
  import opened PromisesKept
  import opened Invariants
  import RunService = JobRunService

  /** What an executor hands back; an exception is the last case. */
  datatype Outcome =
    | Finished(success: bool, stdout: Option<string>, stderr: Option<string>)
    | Awaiting(externalId: string, stdout: Option<string>)
    | Raised(message: string)

  const TIMEOUT_PREFIX := "timeout after"

  function FinishStatus(success: bool, stderr: string): RunStatus {
    if TIMEOUT_PREFIX <= stderr then Timeout else if success then Success else Failed
  }

  /** The protocol step that the worker takes for the outcome of run r. */
  function WorkerStep(r: RunId, o: Outcome): Action {
    match o
    case Awaiting(ext, stdout) => Await(r, ext, stdout)
    case Finished(success, stdout, stderr) =>
      var text := if stderr.Some? then stderr.value else "";
      ReportStatus(r, Some(FinishStatus(success, text)),
                   Output(stdout, Some(text),
                          if success then None else if stderr.Some? then stderr else Some("execution failed")))
    case Raised(message) => ReportStatus(r, Some(Failed), Output(None, None, Some(message)))
  }

  /** The executor that parks a run reports an external id; it fails when the reply has none. */
  predicate Reportable(o: Outcome) {
    o.Awaiting? ==> o.externalId != ""
  }

  /** What the run is after an execution that ended. A stderr that starts with the timeout text makes it a timeout,
      otherwise success makes it a success without a new run, and anything else a failure; the error text is
      stderr, or a fixed one if there is none. */
  ghost predicate ExecutionEnded(w: World, w': World, r: RunId, success: bool, stdout: Option<string>,
                                 stderr: Option<string>) {
    if r !in w.runs then w' == w
    else
      var text := if stderr.Some? then stderr.value else "";
      && r in w'.runs
      && var row' := w'.runs[r];
      && row'.status == (if "timeout after" <= text then Timeout else if success then Success else Failed)
      && row'.stderr == Some(text)
      && row'.stdout == (if stdout.Some? then stdout else w.runs[r].stdout)
      && row'.errorMessage == (if success then w.runs[r].errorMessage
                               else if stderr.Some? then stderr else Some("execution failed"))
      && (row'.status == Success ==> w'.nextRun == w.nextRun)
      && StatusReported(w, w', r, Some(row'.status),
                        Output(stdout, Some(text), if success then None else row'.errorMessage))
  }

  /** run_job_task after the execution; the run may have been changed or deleted meanwhile. A run that awaits a
      result keeps its lock, an exception is a failure with its text. */
  method HandleResult(db: Database, r: RunId, o: Outcome)
    requires db.Valid() && Reportable(o)
    modifies db
    ensures db.tables == Step(old(db.tables), WorkerStep(r, o))
    ensures o.Awaiting? ==> ParkedForResult(old(db.tables), db.tables, r, o.externalId, o.stdout)
    ensures o.Raised? ==>
              StatusReported(old(db.tables), db.tables, r, Some(Failed), Output(None, None, Some(o.message)))
    ensures o.Finished? ==> ExecutionEnded(old(db.tables), db.tables, r, o.success, o.stdout, o.stderr)
  {
    hide Completed, Started, RetryOf, Operations.UpdateStatus, StatusReported, StatusApplied, WithOutput;
    hide ParkedForResult, ExecutionEnded;
    var runs := new RunService.Service(db);
    if o.Awaiting? {
      ParkKept(db.tables, r, o.externalId, o.stdout);
      if r in db.tables.runs {
        var run := new JobRun.Load(db.tables.runs[r]);
        run.status := AwaitingResult;
        run.externalId := Some(o.externalId);
        run.stdout := o.stdout;
        db.tables := SetRun(db.tables, r, run.Row());
      }
    } else if o.Finished? {
      var text := if o.stderr.Some? then o.stderr.value else "";
      var status := if o.success then Success else Failed;
      if TIMEOUT_PREFIX <= text {
        status := Timeout;
      }
      var message := if o.success then None else if o.stderr.Some? then o.stderr else Some("execution failed");
      var found := runs.UpdateStatus(r, Some(status), Output(o.stdout, Some(text), message));
      EndedAs(old(db.tables), db.tables, r, o.success, o.stdout, o.stderr, status);
    } else {
      var found := runs.UpdateStatus(r, Some(Failed), Output(None, None, Some(o.message)));
    }
  }

  lemma EndedAs(w: World, w': World, r: RunId, success: bool, stdout: Option<string>, stderr: Option<string>,
                status: RunStatus)
    requires var text := if stderr.Some? then stderr.value else "";
             && status == (if "timeout after" <= text then Timeout else if success then Success else Failed)
             && StatusReported(w, w', r, Some(status),
                               Output(stdout, Some(text), if success then None
                                                          else if stderr.Some? then stderr
                                                          else Some("execution failed")))
    ensures ExecutionEnded(w, w', r, success, stdout, stderr)
  {
    hide EntityDurations;
  }
}
