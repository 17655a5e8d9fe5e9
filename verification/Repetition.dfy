/** Which create and update requests give jobs whose retries repeat the work, shown on histories that contain
    the request, a run, its failure and its retry. */
module Repetition {
  import opened Basics
  import opened Schedule
  import opened Rows
  import opened Payloads
  import opened Operations
  import opened Protocol
  import opened Invariants
  import opened Attempts
  import opened Snapshots

  // ---------------------------------------------------------------- requests

  /** A create request whose runs keep their work on a retry: the task type is the action, or both only call an
      API with a method that is no text; and for a script
      job that is not a shell command, an empty script field comes with another text, or with nothing to
      hide; and a working directory is given once, or twice the same. */
  predicate CreateRepeats(q: Request) {
    && (q.taskType.Some? ==> SameExecutor(q.taskType.value, q.action, q.payload))
    && (RunsScript(q.action) ==>
          if q.action.Shell? && Get(q.payload, COMMAND).Truthy() then GivenOnce(q)
          else if RequestedScript(q).Some? then GivenOnce(q)
          else if q.script.Some? && !Get(q.payload, CONTENT).Truthy() then !Get(q.payload, SCRIPT).Truthy()
          else NothingToRun(q.payload) || GivenOnce(q))
  }

  predicate GivenOnce(q: Request) {
    WORKING_DIR in q.payload ==> DirectoryKept(q.payload, q.workingDir)
  }

  /** For every create request: a run of the new job and its retries execute the same work if and only if
      the request is of that kind. */
  lemma CreatedJobRepeats(q: Request)
    ensures SurvivesStripping(Snapshot(CreatedWork(q))) <==> CreateRepeats(q)
  {
    if RunsScript(q.action) {
      CreatedScriptPayload(q);
    } else {
      PayloadKeys();
    }
  }

  lemma CreatedScriptPayload(q: Request)
    requires RunsScript(q.action)
    ensures var p := BuiltPayload(q);
            && Get(p, COMMAND) == Get(q.payload, COMMAND)
            && (forall key | key in [SCRIPT, CONTENT] ::
                  Get(p, key) == if RequestedScript(q).Some? then Text(RequestedScript(q).value)
                                 else Get(q.payload, key))
            && Get(p, WORKING_DIR) == if WORKING_DIR !in q.payload && NonEmpty(q.workingDir)
                                      then Text(q.workingDir.value) else Get(q.payload, WORKING_DIR)
  {
    PayloadKeys();
    Keys();
    assert COMMAND != CONTENT by { assert COMMAND[2] == 'm' && CONTENT[2] == 'n'; }
  }

  /** An edit after which runs keep their work on a retry. With `base` the payload the edit starts from, the
      new text, if there is one, reaches both names of the script; a given working directory reaches the
      payload; otherwise the fields of the job have to be in the payload already. */
  predicate EditRepeats(work: Work, c: Change) {
    var base := OrEmpty(if c.payload.Some? then c.payload.value else work.payload);
    var action := if c.action.Some? then c.action.value else work.actionType;
    var taskType := if c.taskType.Some? then c.taskType.value else work.taskType;
    var script := if c.script.Some? then c.script.value else work.script;
    var dir := if c.workingDir.Some? then c.workingDir.value else work.workingDir;
    var dirSafe := (c.payload.None? && c.workingDir.Some?) || DirectoryKept(base, dir);
    && (taskType.Some? ==>
          taskType.value == action || (Calls(taskType.value) && Calls(action) && BadVerbAfter(base, action, c)))
    && (RunsScript(action) ==>
          if action.Shell? && Get(base, COMMAND).Truthy() then dirSafe
          else if c.payload.None? && ChangedScript(c).Some? then dirSafe
          else ScriptKept(base, script) && (NothingToRun(base) || dirSafe))
  }

  /** A given method reaches the payload only by rebuilding it for an API call. */
  predicate BadVerbAfter(base: Payload, action: ActionType, c: Change) {
    if action.ApiCall? && c.payload.None? && c.apiMethod.Some? then c.apiMethod.value.None? else BadVerb(base)
  }

  /** The stored definition after an edit: a null payload is stored as an empty one. */
  function EditedWork(work: Work, c: Change): Work {
    var changed := ChangedWork(work, c);
    changed.(payload := OrElse(changed.payload, map[]))
  }

  /** For every stored definition and every edit, whether it gives a payload, has it rebuilt, or keeps it. */
  lemma EditedJobRepeats(work: Work, c: Change)
    ensures EditedWork(work, c).payload.Some?
    ensures SurvivesStripping(Snapshot(EditedWork(work, c))) <==> EditRepeats(work, c)
  {
    var action := ChangedWork(work, c).actionType;
    if RunsScript(action) && c.payload.None? && NeedsRebuild(c) {
      RebuiltScriptPayload(action, work.payload, c);
    } else {
      PayloadKeys();
    }
  }

  lemma RebuiltScriptPayload(action: ActionType, stored: Option<Payload>, c: Change)
    requires RunsScript(action)
    ensures var p, base := Rebuilt(action, stored, c), OrEmpty(stored);
            && Get(p, COMMAND) == Get(base, COMMAND)
            && (forall key | key in [SCRIPT, CONTENT] ::
                  Get(p, key) == if ChangedScript(c).Some? then Text(ChangedScript(c).value) else Get(base, key))
            && Get(p, WORKING_DIR) == if c.workingDir.Some? then Cell(c.workingDir.value) else Get(base, WORKING_DIR)
  {
    PayloadKeys();
    Keys();
    assert COMMAND != CONTENT by { assert COMMAND[2] == 'm' && CONTENT[2] == 'n'; }
  }

  // ---------------------------------------------------------------- API jobs

  /** What a new API job sends: the payload's own method and URL, or else the flat fields, or else GET. A method
      that is no text is an error, and without a URL nothing is sent. */
  lemma ApiJobSends(q: Request)
    requires q.action.ApiCall?
    ensures var url := if URL in q.payload || !NonEmpty(q.apiUrl) then Get(q.payload, URL) else Text(q.apiUrl.value);
            var verb := if METHOD in q.payload then q.payload[METHOD]
                        else Text(if NonEmpty(q.apiMethod) then q.apiMethod.value else "GET");
            Read(ApiCall, BuiltPayload(q)) ==
            if !verb.Text? then BadMethod(verb)
            else if url.Truthy() then Send(false, verb, url, Used(Get(q.payload, HEADERS)), Get(q.payload, BODY))
            else NoUrl(false)
  {
    PayloadKeys();
    OtherKeys();
  }

  lemma OtherKeys()
    ensures METHOD !in [HEADERS, BODY] && URL !in [HEADERS, BODY]
  {
    assert METHOD[0] == 'm' && URL[0] == 'u' && HEADERS[0] == 'h' && BODY[0] == 'b';
  }

  /** What an API job sends after an edit without a payload: a given method or URL replaces the stored one,
      also by null: a null method is an error, and with a null URL nothing is sent. */
  lemma EditedApiJobSends(work: Work, c: Change)
    requires ChangedWork(work, c).actionType.ApiCall? && c.payload.None?
    ensures var base := OrEmpty(work.payload);
            var url := if c.apiUrl.Some? then Cell(c.apiUrl.value) else Get(base, URL);
            var verb := if c.apiMethod.Some? then Cell(c.apiMethod.value)
                        else if METHOD in base then base[METHOD] else Text("GET");
            Read(ApiCall, OrEmpty(ChangedWork(work, c).payload)) ==
            if !verb.Text? then BadMethod(verb)
            else if url.Truthy() then Send(false, verb, url, Used(Get(base, HEADERS)), Get(base, BODY))
            else NoUrl(false)
  {
    PayloadKeys();
    OtherKeys();
  }

  // ---------------------------------------------------------------- histories

  /** One job, created by q and edited by c, and what its runs will carry. */
  predicate OneJob(w: World, work: Work) {
    && w.jobs.Keys == {0} && w.jobs[0].maxRetry == 1 && w.jobs[0].work == work
    && w.runs == map[] && w.nextRun == 0
  }

  lemma JobCreated(w: World, spec: JobSpec)
    requires Initial(w) && spec.request.Ok? && spec == ManualJob(spec.name, 1, spec.request.value)
    requires spec.request.value.timeoutSeconds > 0
    ensures OneJob(CreateJob(w, spec), CreatedWork(spec.request.value))
  {
    hide BuiltPayload, ResolveScheduleRule, ComputeNextRun;
  }

  lemma JobEdited(w: World, c: Change, q: Request)
    requires OneJob(w, CreatedWork(q)) && q.timeoutSeconds > 0
    requires c.timeoutSeconds.Some? ==> c.timeoutSeconds.value > 0
    ensures OneJob(EditJob(w, 0, NO_EDIT.(change := Ok(c))), EditedWork(CreatedWork(q), c))
  {
    hide BuiltPayload, Rebuilt, ResolveScheduleRule, ComputeNextRun;
  }

  lemma FailedAndRetried(w1: World, w2: World, w3: World, work: Work, out: Output)
    requires OneJob(w1, work)
    requires w2 == TriggerJob(w1, 0, ByHand) && w3 == UpdateStatus(w2, 0, Some(Failed), out)
    ensures w3.runs.Keys == {0, 1} && w3.runs[0].work == Snapshot(work) && w3.runs[0].job == 0
    ensures w3.runs[1].parent == Some(0) && InTree(w3.runs, 1, 0) && w3.runs[1].work == Stripped(Snapshot(work))
  {
  }

  /** For every create request, every edit, and every start: a history in which the job is created, edited
      and triggered, and its run fails, after which the run and its retry execute the same work if and only
      if the edit keeps it so. (The edit `UNCHANGED` leaves the created job as it is.) */
  lemma RetryAfterEdit(w0: World, name: string, q: Request, c: Change)
    returns (tr: seq<World>, acts: seq<Action>)
    requires Initial(w0) && q.timeoutSeconds > 0 && (c.timeoutSeconds.Some? ==> c.timeoutSeconds.value > 0)
    ensures History(tr, acts) && tr[0] == w0 && |acts| == 4
    ensures tr[4].runs.Keys == {0, 1} && tr[4].runs[1].parent == Some(0) && 0 in tr[4].jobs
    ensures tr[4].runs[0].work == Snapshot(EditedWork(CreatedWork(q), c))
    ensures tr[4].runs[1].work == Stripped(tr[4].runs[0].work)
    ensures SameWork(Executed(tr[4].runs[0], tr[4].jobs[0]), Executed(tr[4].runs[1], tr[4].jobs[0]))
            <==> EditRepeats(CreatedWork(q), c)
  {
    hide CreateJob, EditJob, TriggerJob, UpdateStatus, OneJob, EditRepeats, SurvivesStripping, EditedWork, InTree;
    hide Executed, SameWork, CreatedWork, Snapshot, Stripped;
    var spec := ManualJob(name, 1, q);
    var edit := NO_EDIT.(change := Ok(c));
    var out := Output(None, None, None);
    acts := [Create(spec), Edit(0, edit), TriggerNow(0, ByHand), ReportStatus(0, Some(Failed), out)];
    var w1 := CreateJob(w0, spec);
    JobCreated(w0, spec);
    var w2 := EditJob(w1, 0, edit);
    JobEdited(w1, c, q);
    var w3 := TriggerJob(w2, 0, ByHand);
    var w4 := UpdateStatus(w3, 0, Some(Failed), out);
    FailedAndRetried(w2, w3, w4, EditedWork(CreatedWork(q), c), out);
    tr := [w0, w1, w2, w3, w4];
    assert StepAt(tr, acts, 0) && StepAt(tr, acts, 1) && StepAt(tr, acts, 2) && StepAt(tr, acts, 3);
    RetryRepeatsExactly(tr, acts, 4, 1, 0);
    EditedJobRepeats(CreatedWork(q), c);
  }

  /** What a worker's executor takes for run r of job 0. */
  function Reads(w: World, r: RunId): Reading
    requires r in w.runs && 0 in w.jobs
  {
    var e := Executed(w.runs[r], w.jobs[0]);
    Read(e.taskType, e.payload)
  }

  /** A task type other than the action: the run executes a report, its retry sends a request. */
  lemma RetryLosesTaskType(w0: World, name: string, url: string) returns (tr: seq<World>, acts: seq<Action>)
    requires Initial(w0) && url != ""
    ensures History(tr, acts) && |acts| == 4 && tr[4].runs.Keys == {0, 1} && tr[4].runs[1].parent == Some(0)
    ensures 0 in tr[4].jobs
    ensures Reads(tr[4], 0) == BuiltIn(Report)
    ensures Reads(tr[4], 1) == Send(false, Text("GET"), Text(url), None, Null)
  {
    hide History;
    var q := Request(ApiCall, Some(Report), map[], None, Some(url), None, None, None, None, 300);
    tr, acts := RetryAfterEdit(w0, name, q, UNCHANGED);
    ApiJobSends(q);
    AttemptNumberIsNoInput(ApiCall, BuiltPayload(q), 1);
    SecondAttempt(tr, acts);
  }

  lemma SecondAttempt(tr: seq<World>, acts: seq<Action>)
    requires History(tr, acts) && |acts| == 4 && tr[4].runs.Keys == {0, 1} && tr[4].runs[1].parent == Some(0)
    ensures tr[4].runs[0].retryCount == 0 && tr[4].runs[1].retryCount == 1
  {
    hide Step, RunOk, JobOk, EdgesOk, NamesUnique;
    Always(tr, acts, 4);
    assert ParentOk(tr[4].runs, 0) && ParentOk(tr[4].runs, 1);
  }

  /** An edit that replaces the payload of a script job: the run executes the script of the job's own field,
      its retry finds no script. */
  lemma RetryLosesScript(w0: World, name: string, text: string) returns (tr: seq<World>, acts: seq<Action>)
    requires Initial(w0) && text != ""
    ensures History(tr, acts) && |acts| == 4 && tr[4].runs.Keys == {0, 1} && tr[4].runs[1].parent == Some(0)
    ensures 0 in tr[4].jobs
    ensures Reads(tr[4], 0) == PythonText(text, None) && Reads(tr[4], 1) == NoScript(true)
  {
    hide History;
    var q := Request(Python, None, map[], None, None, Some(text), None, None, None, 300);
    var c := UNCHANGED.(payload := Some(Some(map[])));
    tr, acts := RetryAfterEdit(w0, name, q, c);
    Keys();
    PayloadKeys();
  }
}
