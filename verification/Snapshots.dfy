/** What a worker executes for a run: fixed when the run is created, and what a retry repeats of it. */
module Snapshots {
  import opened Basics
  import opened Rows
  import opened Payloads
  import opened Operations
  import opened Protocol
  import opened Invariants
  import opened Attempts
  import Schedule

  const RETRY_COUNT := "retry_count"
  const COMMAND := "command"
  const ARGS := "args"
  const TRIGGER_URL := "trigger_url"
  const HEADERS := "headers"
  const BODY := "body"

  // ---------------------------------------------------------------- what is handed to an executor

  datatype Execution = Execution(taskType: ActionType, payload: Payload, timeoutSeconds: int)

  /** The payload with the run's own script and working directory laid over it. */
  function Overlaid(payload: Payload, script: Option<string>, workingDir: Option<string>): Payload {
    var p := if script.Some? then payload[SCRIPT := Text(script.value)] else payload;
    if workingDir.Some? then p[WORKING_DIR := Text(workingDir.value)] else p
  }

  /** _prepare_payload and the choices of task type and timeout in run_job_task. */
  function Executed(run: RunRow, job: JobRow): Execution {
    var base := if run.work.payload.Some? then run.work.payload.value
                else if job.work.payload.Some? then job.work.payload.value else map[];
    Execution(
      if run.work.taskType.Some? then run.work.taskType.value else run.work.actionType,
      Overlaid(base, run.work.script, run.work.workingDir)[RETRY_COUNT := Number(run.retryCount)],
      if run.work.timeoutSeconds != 0 then run.work.timeoutSeconds else job.work.timeoutSeconds)
  }

  /** In every history, whatever happens to the job or the run between two moments at which the run
      exists, a worker would execute the same task with the same payload and timeout at both. */
  lemma ExecutionFixedAtCreation(tr: seq<World>, acts: seq<Action>, i: nat, j: nat, r: RunId)
    requires History(tr, acts) && i <= j < |tr| && r in tr[i].runs && r in tr[j].runs
    ensures tr[i].runs[r].job in tr[i].jobs && tr[j].runs[r].job in tr[j].jobs
    ensures Executed(tr[i].runs[r], tr[i].jobs[tr[i].runs[r].job])
            == Executed(tr[j].runs[r], tr[j].jobs[tr[j].runs[r].job])
  {
    hide JobOk, ParentOk, EdgesOk, NamesUnique, Follows, Overlaid, Step;
    RunsAlwaysConsistent(tr, acts, i, j, r);
    Always(tr, acts, i);
    Always(tr, acts, j);
    assert RunOk(tr[j].runs[r], tr[j].now);
  }

  // ---------------------------------------------------------------- what an executor takes from it

  /** What an executor does with a payload: every value it takes, or why it does nothing. A method that is no
      text makes both API executors raise the same error before they look at anything else. The attempt number,
      which the two script executors also pass on, is meant to differ between attempts and is left out. */
  datatype Reading =
    | BadMethod(verb: Json)
    | NoUrl(poll: bool)
    | Send(poll: bool, verb: Json, url: Json, headers: Option<Json>, body: Json)
    | NoScript(python: bool)
    | Command(parts: Json, directory: Option<Json>)
    | ShellText(text: string, args: Option<Json>, directory: Option<Json>)
    | PythonText(text: string, directory: Option<Json>)
    | BuiltIn(t: ActionType)

  /** `payload.get(key)` */
  function Get(p: Payload, key: string): Json {
    if key in p then p[key] else Null
  }

  function Or(a: Json, b: Json): Json {
    if a.Truthy() then a else b
  }

  /** A value that counts only if Python takes it for true. */
  function Used(v: Json): Option<Json> {
    if v.Truthy() then Some(v) else None
  }

  function Sending(poll: bool, p: Payload, url: Json, verb: string): Reading {
    if BadVerb(p) then BadMethod(p[METHOD])
    else if !url.Truthy() then NoUrl(poll)
    else Send(poll, if METHOD in p then p[METHOD] else Text(verb), url, Used(Get(p, HEADERS)), Get(p, BODY))
  }

  /** `payload.get("method", ...).upper()` raises for null and everything else that is no text. */
  predicate BadVerb(p: Payload) {
    METHOD in p && !p[METHOD].Text?
  }

  predicate Calls(t: ActionType) {
    t.ApiCall? || t.ApiPoll?
  }

  /** execute_job: a script is read from `content` before `script`, a shell command before both. */
  function Read(t: ActionType, p: Payload): Reading {
    var script, directory := Or(Get(p, CONTENT), Get(p, SCRIPT)), Used(Get(p, WORKING_DIR));
    match t
    case ApiCall => Sending(false, p, Get(p, URL), "GET")
    case ApiPoll => Sending(true, p, Or(Get(p, TRIGGER_URL), Get(p, URL)), "POST")
    case Shell =>
      if Get(p, COMMAND).Truthy() then Command(Get(p, COMMAND), directory)
      else if script.Truthy() then ShellText(script.Printed(), Used(Get(p, ARGS)), directory)
      else NoScript(false)
    case Python => if script.Truthy() then PythonText(script.Printed(), directory) else NoScript(true)
    case _ => BuiltIn(t)
  }

  /** Two executions do the same: one executor with the same inputs and the same timeout. */
  predicate SameWork(a: Execution, b: Execution) {
    Read(a.taskType, a.payload) == Read(b.taskType, b.payload) && a.timeoutSeconds == b.timeoutSeconds
  }

  /** Python's view of a value: what is true, and how numbers are printed. */
  lemma PythonValues(v: Json, n: int)
    ensures !v.Truthy() <==> v in [Null, Text(""), Number(0)] || (v.Other? && !v.nonEmpty)
    ensures Schedule.PyInt(Number(n).Printed()) == Some(n) && Text("x").Printed() == "x"
  {
    Schedule.PyIntReadsBack(n);
  }

  /** Payloads that are read alike agree on every input that the executor used. */
  lemma ReadAlikeSameInputs(t: ActionType, p: Payload, q: Payload)
    requires Read(t, p) == Read(t, q)
    ensures t == Shell && Get(p, "command").Truthy() ==> Get(q, "command") == Get(p, "command")
    ensures t == Shell && !Get(p, "command").Truthy() && Or(Get(p, "content"), Get(p, "script")).Truthy() ==>
              && Or(Get(p, "content"), Get(p, "script")).Printed() == Or(Get(q, "content"), Get(q, "script")).Printed()
              && Used(Get(p, "args")) == Used(Get(q, "args"))
              && Used(Get(p, "working_dir")) == Used(Get(q, "working_dir"))
    ensures t == Python && Or(Get(p, "content"), Get(p, "script")).Truthy() ==>
              && Or(Get(p, "content"), Get(p, "script")).Printed() == Or(Get(q, "content"), Get(q, "script")).Printed()
              && Used(Get(p, "working_dir")) == Used(Get(q, "working_dir"))
    ensures t == ApiCall && "method" in p && p["method"].Text? && Get(p, "url").Truthy() ==>
              && Get(q, "url") == Get(p, "url") && Used(Get(q, "headers")) == Used(Get(p, "headers"))
              && Get(q, "body") == Get(p, "body") && (if "method" in q then q["method"] else Text("GET")) == p["method"]
    ensures t == ApiPoll && "method" in p && p["method"].Text? && Or(Get(p, "trigger_url"), Get(p, "url")).Truthy() ==>
              && Or(Get(q, "trigger_url"), Get(q, "url")) == Or(Get(p, "trigger_url"), Get(p, "url"))
              && Used(Get(q, "headers")) == Used(Get(p, "headers")) && Get(q, "body") == Get(p, "body")
              && (if "method" in q then q["method"] else Text("POST")) == p["method"]
  {
    hide Get, Or, Used;
    assert COMMAND == "command" && ARGS == "args" && TRIGGER_URL == "trigger_url" && HEADERS == "headers";
    assert BODY == "body" && SCRIPT == "script" && CONTENT == "content" && WORKING_DIR == "working_dir";
  }

  // ---------------------------------------------------------------- retries

  lemma {:induction false} DescendantWork(runs: map<RunId, RunRow>, r: RunId, root: RunId)
    requires ParentsOk(runs) && r in runs && root in runs && r != root && InTree(runs, r, root)
    ensures runs[r].work == Stripped(runs[root].work) && runs[r].job == runs[root].job
    decreases r
  {
    assert ParentOk(runs, r);
    if runs[r].parent.value != root {
      DescendantWork(runs, runs[r].parent.value, root);
    }
  }

  /** The stored payload has a text under which the executor reads the same script. */
  predicate HoldsText(v: Json, text: string) {
    if text == "" then !v.Truthy() else v.Truthy() && v.Printed() == text
  }

  /** The run's script field is not there, or hidden by `content`, or in the payload too. */
  predicate ScriptKept(p: Payload, script: Option<string>) {
    script.Some? ==> Get(p, CONTENT).Truthy() || HoldsText(Get(p, SCRIPT), script.value)
  }

  /** The run's working directory is not there, or in the payload too. */
  predicate DirectoryKept(p: Payload, dir: Option<string>) {
    dir.Some? ==> if dir.value == "" then !Get(p, WORKING_DIR).Truthy() else Get(p, WORKING_DIR) == Text(dir.value)
  }

  predicate NothingToRun(p: Payload) {
    !Get(p, CONTENT).Truthy() && !Get(p, SCRIPT).Truthy()
  }

  /** What the executor for task type t takes from the run's own fields is in the payload as well. */
  predicate FieldsKept(t: ActionType, p: Payload, script: Option<string>, dir: Option<string>) {
    match t
    case Shell =>
      if Get(p, COMMAND).Truthy() then DirectoryKept(p, dir)
      else ScriptKept(p, script) && (NothingToRun(p) || DirectoryKept(p, dir))
    case Python => ScriptKept(p, script) && (NothingToRun(p) || DirectoryKept(p, dir))
    case _ => true
  }

  /** The task type is the action, or neither gets as far as to matter. */
  predicate SameExecutor(t: ActionType, u: ActionType, p: Payload) {
    t == u || (Calls(t) && Calls(u) && BadVerb(p))
  }

  /** Losing task type, script and working directory changes nothing that is executed. */
  predicate SurvivesStripping(work: Work)
    requires work.payload.Some?
  {
    && (work.taskType.Some? ==> SameExecutor(work.taskType.value, work.actionType, work.payload.value))
    && FieldsKept(work.actionType, work.payload.value, work.script, work.workingDir)
  }

  lemma Keys()
    ensures RETRY_COUNT !in [METHOD, URL, SCRIPT, CONTENT, WORKING_DIR, COMMAND, ARGS, TRIGGER_URL, HEADERS, BODY]
    ensures SCRIPT !in [METHOD, URL, CONTENT, WORKING_DIR, COMMAND, ARGS, TRIGGER_URL, HEADERS, BODY]
    ensures WORKING_DIR !in [METHOD, URL, CONTENT, COMMAND, ARGS, TRIGGER_URL, HEADERS, BODY]
  {
    assert RETRY_COUNT[0] == 'r' && SCRIPT[0] == 's' && WORKING_DIR[0] == 'w' && METHOD[0] == 'm' && URL[0] == 'u';
    assert CONTENT[0] == COMMAND[0] == 'c' && ARGS[0] == 'a' && TRIGGER_URL[0] == 't' && HEADERS[0] == 'h';
    assert BODY[0] == 'b';
  }

  /** Payloads that agree on the keys that executors read are read alike. */
  predicate SameInputs(p: Payload, q: Payload) {
    forall key | key in [METHOD, URL, SCRIPT, CONTENT, WORKING_DIR, COMMAND, ARGS, TRIGGER_URL, HEADERS, BODY] ::
      At(p, key) == At(q, key)
  }

  lemma SameInputsReadAlike(t: ActionType, p: Payload, q: Payload)
    requires SameInputs(p, q)
    ensures Read(t, p) == Read(t, q)
  {
    assert forall key | key in [METHOD, URL, SCRIPT, CONTENT, WORKING_DIR, COMMAND, ARGS, TRIGGER_URL, HEADERS, BODY] ::
        Get(p, key) == Get(q, key) && (key in p <==> key in q);
  }

  /** The attempt number is none of the inputs. */
  lemma AttemptNumberIsNoInput(t: ActionType, p: Payload, n: int)
    ensures Read(t, p[RETRY_COUNT := Number(n)]) == Read(t, p)
  {
    Keys();
    SameInputsReadAlike(t, p[RETRY_COUNT := Number(n)], p);
  }

  /** Different task types do the same exactly when both are API executors stopped by the same method. */
  lemma TaskTypeIsRead(t: ActionType, u: ActionType, p: Payload, q: Payload)
    requires t != u
    ensures Read(t, p) == Read(u, q) <==> Calls(t) && Calls(u) && BadVerb(p) && BadVerb(q) && p[METHOD] == q[METHOD]
  {
    hide Get, Or, Used;
  }

  lemma OverlaidInputs(p: Payload, script: Option<string>, dir: Option<string>)
    ensures var o := Overlaid(p, script, dir);
            && (forall key | key in [METHOD, URL, CONTENT, COMMAND, ARGS, TRIGGER_URL, HEADERS, BODY] ::
                  Get(o, key) == Get(p, key) && (key in o <==> key in p))
            && Get(o, SCRIPT) == (if script.Some? then Text(script.value) else Get(p, SCRIPT))
            && Get(o, WORKING_DIR) == (if dir.Some? then Text(dir.value) else Get(p, WORKING_DIR))
  {
    Keys();
  }

  /** Laying the run's fields over the payload changes what is executed exactly unless they are kept. */
  lemma OverlayVisible(t: ActionType, p: Payload, script: Option<string>, dir: Option<string>)
    ensures Read(t, Overlaid(p, script, dir)) == Read(t, p) <==> FieldsKept(t, p, script, dir)
  {
    hide Overlaid, Get;
    if t.Shell? {
      ShellOverlayVisible(p, script, dir);
    } else if t.Python? {
      PythonOverlayVisible(p, script, dir);
    } else {
      OverlaidInputs(p, script, dir);
      var o := Overlaid(p, script, dir);
      assert Get(o, URL) == Get(p, URL) && Get(o, TRIGGER_URL) == Get(p, TRIGGER_URL);
      SendsAlike(o, p);
    }
  }

  lemma ShellOverlayVisible(p: Payload, script: Option<string>, dir: Option<string>)
    ensures Read(Shell, Overlaid(p, script, dir)) == Read(Shell, p) <==> FieldsKept(Shell, p, script, dir)
  {
    hide Overlaid, Get, Sending;
    OverlaidInputs(p, script, dir);
    var o := Overlaid(p, script, dir);
    assert Get(o, CONTENT) == Get(p, CONTENT) && Get(o, COMMAND) == Get(p, COMMAND) && Get(o, ARGS) == Get(p, ARGS);
  }

  lemma PythonOverlayVisible(p: Payload, script: Option<string>, dir: Option<string>)
    ensures Read(Python, Overlaid(p, script, dir)) == Read(Python, p) <==> FieldsKept(Python, p, script, dir)
  {
    hide Overlaid, Get, Sending;
    OverlaidInputs(p, script, dir);
    assert Get(Overlaid(p, script, dir), CONTENT) == Get(p, CONTENT);
  }

  lemma SendsAlike(o: Payload, p: Payload)
    requires forall key | key in [METHOD, HEADERS, BODY] :: Get(o, key) == Get(p, key) && (key in o <==> key in p)
    ensures forall poll, url, verb :: Sending(poll, o, url, verb) == Sending(poll, p, url, verb)
  {
    assert Get(o, METHOD) == Get(p, METHOD) && Get(o, HEADERS) == Get(p, HEADERS) && Get(o, BODY) == Get(p, BODY);
  }

  /** In every reachable state, along a retry chain of any length: a retry executes the same work as the
      first attempt if and only if that work survives the stripping. */
  lemma RetryRepeatsExactly(tr: seq<World>, acts: seq<Action>, n: nat, r: RunId, root: RunId)
    requires History(tr, acts) && n < |tr| && r in tr[n].runs && root in tr[n].runs
    requires r != root && InTree(tr[n].runs, r, root)
    ensures tr[n].runs[root].work.payload.Some? && tr[n].runs[r].job == tr[n].runs[root].job
    ensures tr[n].runs[root].job in tr[n].jobs
    ensures var job := tr[n].jobs[tr[n].runs[root].job];
            SameWork(Executed(tr[n].runs[root], job), Executed(tr[n].runs[r], job))
            <==> SurvivesStripping(tr[n].runs[root].work)
  {
    hide JobOk, ParentOk, EdgesOk, NamesUnique, InTree, Overlaid, Step, Read, FieldsKept;
    Always(tr, acts, n);
    var w := tr[n];
    DescendantWork(w.runs, r, root);
    assert RunOk(w.runs[root], w.now);
    StrippedReading(w.runs[root], w.runs[r], w.jobs[w.runs[root].job]);
  }

  /** The stored definition without the run's own fields, which is also what pull_task hands to a worker that
      claims the run over HTTP. (The attempt number then stands beside it.) */
  function Pulled(run: RunRow): Execution {
    Execution(run.work.actionType, OrEmpty(run.work.payload), run.work.timeoutSeconds)
  }

  lemma PulledReading(run: RunRow, job: JobRow)
    requires run.work.payload.Some? && run.work.timeoutSeconds > 0
    ensures SameWork(Executed(run, job), Pulled(run)) <==> SurvivesStripping(run.work)
  {
    hide Read, FieldsKept, Overlaid;
    var work := run.work;
    var p, a := work.payload.value, work.actionType;
    var t := if work.taskType.Some? then work.taskType.value else a;
    AttemptNumberIsNoInput(t, Overlaid(p, work.script, work.workingDir), run.retryCount);
    if t == a {
      OverlayVisible(a, p, work.script, work.workingDir);
    } else {
      TaskTypeIsRead(t, a, Overlaid(p, work.script, work.workingDir), p);
      OverlaidMethod(p, work.script, work.workingDir);
      CallsKeepFields(a, p, work.script, work.workingDir);
    }
  }

  lemma StrippedReading(first: RunRow, retry: RunRow, job: JobRow)
    requires first.work.payload.Some? && first.work.timeoutSeconds > 0 && retry.work == Stripped(first.work)
    ensures SameWork(Executed(first, job), Executed(retry, job)) <==> SurvivesStripping(first.work)
  {
    hide Read, Overlaid;
    PulledReading(first, job);
    PulledReading(retry, job);
    assert SurvivesStripping(retry.work);
    assert Pulled(first) == Pulled(retry);
  }

  // ---------------------------------------------------------------- workers that pull over the API

  /** In every reachable state: it matters who claims a run exactly when its work does not survive the
      stripping. A retry is executed alike by both kinds of worker. */
  lemma PulledAlikeExactly(tr: seq<World>, acts: seq<Action>, n: nat, r: RunId)
    requires History(tr, acts) && n < |tr| && r in tr[n].runs
    ensures tr[n].runs[r].work.payload.Some? && tr[n].runs[r].job in tr[n].jobs
    ensures SameWork(Executed(tr[n].runs[r], tr[n].jobs[tr[n].runs[r].job]), Pulled(tr[n].runs[r]))
            <==> SurvivesStripping(tr[n].runs[r].work)
    ensures tr[n].runs[r].parent.Some? ==> SurvivesStripping(tr[n].runs[r].work)
  {
    hide JobOk, EdgesOk, NamesUnique, Read, Overlaid, Step;
    Always(tr, acts, n);
    assert RunOk(tr[n].runs[r], tr[n].now) && ParentOk(tr[n].runs, r);
    PulledReading(tr[n].runs[r], tr[n].jobs[tr[n].runs[r].job]);
  }

  lemma OverlaidMethod(p: Payload, script: Option<string>, dir: Option<string>)
    ensures At(Overlaid(p, script, dir), METHOD) == At(p, METHOD)
  {
    Keys();
  }

  lemma CallsKeepFields(t: ActionType, p: Payload, script: Option<string>, dir: Option<string>)
    ensures Calls(t) ==> FieldsKept(t, p, script, dir)
  {
  }

  lemma NothingOverlaid(p: Payload)
    ensures Overlaid(p, None, None) == p
  {
  }
}
