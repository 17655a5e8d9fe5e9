/** Create and update requests, and how they become the stored definition of a job's work. */
module Payloads {
  import opened Basics
  import opened Schedule
  import opened Rows

  const METHOD := "method"
  const URL := "url"
  const SCRIPT := "script"
  const CONTENT := "content"
  const WORKING_DIR := "working_dir"

  function At(p: Payload, key: string): Option<Json> {
    if key in p then Some(p[key]) else None
  }

  predicate NonEmpty(o: Option<string>) {
    o.Some? && o.value != ""
  }

  /** `a or b or c`, when only a non-empty result matters. */
  function FirstNonEmpty(a: Option<string>, b: Option<string>, c: Option<string>): Option<string> {
    if NonEmpty(a) then a else if NonEmpty(b) then b else if NonEmpty(c) then c else None
  }

  predicate RunsScript(t: ActionType) {
    t.Shell? || t.Python?
  }

  lemma PayloadKeys()
    ensures SCRIPT != CONTENT && SCRIPT != WORKING_DIR && CONTENT != WORKING_DIR && METHOD != URL
    ensures METHOD != SCRIPT && METHOD != WORKING_DIR && URL != SCRIPT && URL != WORKING_DIR
  {
    assert SCRIPT[0] == 's' && CONTENT[0] == 'c' && WORKING_DIR[0] == 'w' && METHOD[0] == 'm' && URL[0] == 'u';
  }

  // ---------------------------------------------------------------- create requests

  /** The fields of a create request that reach the definition of the work. */
  datatype Request = Request(
    action: ActionType, taskType: Option<ActionType>, payload: Payload,
    apiMethod: Option<string>, apiUrl: Option<string>,
    script: Option<string>, shellScript: Option<string>, scriptContent: Option<string>,
    workingDir: Option<string>, timeoutSeconds: int)

  function RequestedScript(q: Request): Option<string> {
    FirstNonEmpty(q.script, q.shellScript, q.scriptContent)
  }

  function WithScript(p: Payload, script: Option<string>): Payload {
    if script.None? then p else p[SCRIPT := Text(script.value)][CONTENT := Text(script.value)]
  }

  function SetMissing(p: Payload, key: string, value: Option<string>): Payload {
    if key !in p && NonEmpty(value) then p[key := Text(value.value)] else p
  }

  function BuiltPayload(q: Request): Payload {
    if q.action.ApiCall? then SetMissing(SetMissing(q.payload, METHOD, q.apiMethod), URL, q.apiUrl)
    else if RunsScript(q.action) then SetMissing(WithScript(q.payload, RequestedScript(q)), WORKING_DIR, q.workingDir)
    else q.payload
  }

  /** The value of a key that the payload of the request keeps and a flat field only fills in. */
  function Filled(p: Payload, key: string, field: Option<string>): Option<Json> {
    if key in p then Some(p[key]) else if NonEmpty(field) then Some(Text(field.value)) else None
  }

  /** JobService.create_job, the payload. For an API call and for a working directory a key of the payload
      wins over the flat field; a script text wins over the payload, under both its names; all other keys
      are the request's own. */
  method BuildPayload(q: Request) returns (p: Payload)
    ensures p == BuiltPayload(q)
    ensures q.action.ApiCall? ==> At(p, METHOD) == Filled(q.payload, METHOD, q.apiMethod)
    ensures q.action.ApiCall? ==> At(p, URL) == Filled(q.payload, URL, q.apiUrl)
    ensures RunsScript(q.action) && RequestedScript(q).Some? ==>
              At(p, SCRIPT) == At(p, CONTENT) == Some(Text(RequestedScript(q).value))
    ensures RunsScript(q.action) && RequestedScript(q).None? ==>
              At(p, SCRIPT) == At(q.payload, SCRIPT) && At(p, CONTENT) == At(q.payload, CONTENT)
    ensures RunsScript(q.action) ==> At(p, WORKING_DIR) == Filled(q.payload, WORKING_DIR, q.workingDir)
    ensures forall key | key !in [METHOD, URL, SCRIPT, CONTENT, WORKING_DIR] :: At(p, key) == At(q.payload, key)
    ensures !q.action.ApiCall? && !RunsScript(q.action) ==> p == q.payload
  {
    PayloadKeys();
    p := q.payload;
    if q.action == ApiCall {
      if METHOD !in p && NonEmpty(q.apiMethod) {
        p := p[METHOD := Text(q.apiMethod.value)];
      }
      if URL !in p && NonEmpty(q.apiUrl) {
        p := p[URL := Text(q.apiUrl.value)];
      }
    } else if RunsScript(q.action) {
      var script := FirstNonEmpty(q.script, q.shellScript, q.scriptContent);
      if script.Some? {
        p := p[SCRIPT := Text(script.value)];
        p := p[CONTENT := Text(script.value)];
      }
      if WORKING_DIR !in p && NonEmpty(q.workingDir) {
        p := p[WORKING_DIR := Text(q.workingDir.value)];
      }
    }
  }

  function CreatedWork(q: Request): Work {
    Work(Some(if q.taskType.Some? then q.taskType.value else q.action), q.script, q.workingDir, q.action,
         Some(BuiltPayload(q)), q.timeoutSeconds)
  }

  // ---------------------------------------------------------------- update requests

  /** The fields of an update request that reach the definition of the work. The outer None is a field that
      the request leaves out, the inner None an explicit null. */
  datatype Change = Change(
    action: Option<ActionType>, taskType: Option<Option<ActionType>>, payload: Option<Option<Payload>>,
    apiMethod: Option<Option<string>>, apiUrl: Option<Option<string>>,
    script: Option<Option<string>>, shellScript: Option<Option<string>>, scriptContent: Option<Option<string>>,
    workingDir: Option<Option<string>>, timeoutSeconds: Option<int>)

  const UNCHANGED := Change(None, None, None, None, None, None, None, None, None, None)

  function Flat(o: Option<Option<string>>): Option<string> {
    if o.Some? then o.value else None
  }

  function Cell(o: Option<string>): Json {
    if o.Some? then Text(o.value) else Null
  }

  function SetGiven(p: Payload, key: string, value: Option<Option<string>>): Payload {
    if value.Some? then p[key := Cell(value.value)] else p
  }

  function ChangedScript(c: Change): Option<string> {
    FirstNonEmpty(Flat(c.script), Flat(c.shellScript), Flat(c.scriptContent))
  }

  predicate NeedsRebuild(c: Change) {
    || c.apiMethod.Some? || c.apiUrl.Some? || c.shellScript.Some? || c.scriptContent.Some?
    || c.script.Some? || c.workingDir.Some?
  }

  function OrEmpty(p: Option<Payload>): Payload {
    if p.Some? then p.value else map[]
  }

  function Rebuilt(action: ActionType, stored: Option<Payload>, c: Change): Payload {
    var p := OrEmpty(stored);
    if action.ApiCall? then SetGiven(SetGiven(p, METHOD, c.apiMethod), URL, c.apiUrl)
    else if RunsScript(action) then SetGiven(WithScript(p, ChangedScript(c)), WORKING_DIR, c.workingDir)
    else p
  }

  function ChangedWork(work: Work, c: Change): Work {
    var action := if c.action.Some? then c.action.value else work.actionType;
    Work(if c.taskType.Some? then c.taskType.value else work.taskType,
         if c.script.Some? then c.script.value else work.script,
         if c.workingDir.Some? then c.workingDir.value else work.workingDir,
         action,
         if c.payload.Some? then c.payload.value
         else if NeedsRebuild(c) then Some(Rebuilt(action, work.payload, c)) else work.payload,
         if c.timeoutSeconds.Some? then c.timeoutSeconds.value else work.timeoutSeconds)
  }

  /** The value of a key that a given field replaces, also by null. */
  function Replaced(p: Payload, key: string, field: Option<Option<string>>): Option<Json> {
    if field.Some? then Some(Cell(field.value)) else At(p, key)
  }

  /** _rebuild_action_payload: for an API call the given fields replace method and URL, for a script job a
      given working directory replaces the stored one, also by null; a script is replaced, under both its
      names, only by a non-empty one of the three texts; all other keys stay. */
  method RebuildActionPayload(work: Work, c: Change) returns (p: Payload)
    ensures p == Rebuilt(work.actionType, work.payload, c)
    ensures work.actionType.ApiCall? ==> At(p, METHOD) == Replaced(OrEmpty(work.payload), METHOD, c.apiMethod)
    ensures work.actionType.ApiCall? ==> At(p, URL) == Replaced(OrEmpty(work.payload), URL, c.apiUrl)
    ensures RunsScript(work.actionType) && ChangedScript(c).Some? ==>
              At(p, SCRIPT) == At(p, CONTENT) == Some(Text(ChangedScript(c).value))
    ensures RunsScript(work.actionType) && ChangedScript(c).None? ==>
              && At(p, SCRIPT) == At(OrEmpty(work.payload), SCRIPT)
              && At(p, CONTENT) == At(OrEmpty(work.payload), CONTENT)
    ensures RunsScript(work.actionType) ==>
              At(p, WORKING_DIR) == Replaced(OrEmpty(work.payload), WORKING_DIR, c.workingDir)
    ensures forall key | key !in [METHOD, URL, SCRIPT, CONTENT, WORKING_DIR] ::
              At(p, key) == At(OrEmpty(work.payload), key)
    ensures !work.actionType.ApiCall? && !RunsScript(work.actionType) ==> p == OrEmpty(work.payload)
  {
    PayloadKeys();
    p := OrEmpty(work.payload);
    if work.actionType == ApiCall {
      if c.apiMethod.Some? {
        p := p[METHOD := Cell(c.apiMethod.value)];
      }
      if c.apiUrl.Some? {
        p := p[URL := Cell(c.apiUrl.value)];
      }
    } else if RunsScript(work.actionType) {
      var script := FirstNonEmpty(Flat(c.script), Flat(c.shellScript), Flat(c.scriptContent));
      if script.Some? {
        p := p[SCRIPT := Text(script.value)];
        p := p[CONTENT := Text(script.value)];
      }
      if c.workingDir.Some? {
        p := p[WORKING_DIR := Cell(c.workingDir.value)];
      }
    }
  }

  /** _apply_field_aliases, _apply_direct_fields and _sync_action_payload, on the work of the loaded job. A
      payload that is given wins over all fields that would only rebuild it, and an edit that gives nothing
      changes nothing. */
  method ApplyChange(work: Work, c: Change) returns (changed: Work)
    ensures changed == ChangedWork(work, c)
    ensures c.payload.Some? ==> changed.payload == c.payload.value
    ensures c.payload.None? && !NeedsRebuild(c) ==> changed.payload == work.payload
    ensures c == UNCHANGED ==> changed == work
  {
    changed := work;
    if c.action.Some? {
      changed := changed.(actionType := c.action.value);
    }
    if c.taskType.Some? {
      changed := changed.(taskType := c.taskType.value);
    }
    if c.script.Some? {
      changed := changed.(script := c.script.value);
    }
    if c.workingDir.Some? {
      changed := changed.(workingDir := c.workingDir.value);
    }
    if c.timeoutSeconds.Some? {
      changed := changed.(timeoutSeconds := c.timeoutSeconds.value);
    }
    if c.payload.Some? {
      changed := changed.(payload := c.payload.value);
    } else if NeedsRebuild(c) {
      var p := RebuildActionPayload(changed, c);
      changed := changed.(payload := Some(p));
    }
  }

  // ---------------------------------------------------------------- whole requests

  /** The text of a status field: blank, one of the five, or something the table rejects. */
  datatype StatusText = Blank | Known(status: JobStatus) | Unknown

  /** `request` is Err when the request puts a text into a checked column that the table rejects. */
  datatype JobSpec = JobSpec(
    name: string, schedule: ScheduleFields, status: StatusText, maxRetry: int, request: Result<Request>,
    dependsOn: seq<string>)

  /** The fields of an update request, None where the request leaves a field out. `change` is Err when the
      request puts a null or an unknown text into a checked column. */
  datatype JobEdit = JobEdit(
    name: Option<string>, schedule: Option<ScheduleFields>, status: Option<StatusText>, maxRetry: Option<int>,
    change: Result<Change>, dependsOn: Option<seq<string>>)

  const NO_EDIT := JobEdit(None, None, None, None, Ok(UNCHANGED), None)
}
