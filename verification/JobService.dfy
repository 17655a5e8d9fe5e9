/** The job service and controller: the scheduler's scan and the life of a job. */
module JobService {
  import opened Basics
  import opened Schedule
  import opened Rows
  import opened Payloads
  import opened Operations
  import opened Entities
  import opened Promises
  import opened PromisesKept
  import opened Invariants
  import opened Protocol

  class Service {
    const db: Database

    constructor (db: Database)
      ensures this.db == db
    {
      this.db := db;
    }

    /** One scan. Due rows come back in any order, without those that other transactions hold. New runs and
        changed jobs stay in the session until the commit, so every dependency check reads the tables as
        they were; a rule that cannot be computed aborts the whole batch. */
    method ScanDueJobs(busyJobs: set<JobId>) returns (order: seq<JobId>, created: Result<nat>)
      modifies db
      ensures ScanRows(old(db.tables), order)
      ensures forall j :: j in order <==> Due(old(db.tables), j) && j !in busyJobs
      ensures created.Ok? <==> Computable(old(db.tables), Ready(old(db.tables), order))
      ensures created.Ok? ==> created.value == |Ready(old(db.tables), order)|
      ensures db.tables == Scan(old(db.tables), order)
      ensures old(db.Valid()) ==> Scanned(old(db.tables), db.tables, old(db.tables).jobs.Keys - busyJobs, created.Ok?)
    {
      hide DepsSatisfied, ComputeNextRun, Ready, ScheduledRuns, Enqueued, Snapshot, NewRun, Scanned, AllMet;
      var w := db.tables;
      var now := w.now;
      var rows: set<JobId> := set j | j in w.jobs.Keys && Due(w, j) && j !in busyJobs;
      order := Enumerate(rows);
      assert ScanRows(w, order) by {
        assert forall j | j in order :: j in rows;
      }
      assert IdsBelow(w) ==> Scanned(w, Scan(w, order), w.jobs.Keys - busyJobs, Computable(w, Ready(w, order))) by {
        if IdsBelow(w) {
          ScanKept(w, order, w.jobs.Keys - busyJobs);
        }
      }
      var added: seq<RunRow> := [];
      var changed: map<JobId, JobRow> := map[];
      ghost var batch: seq<JobId> := [];
      NothingReady(w);
      for i := 0 to |order|
        invariant db.tables == w && batch == Ready(w, order[..i])
        invariant BatchIs(w, batch, added, changed)
      {
        var j := order[i];
        assert j in order;
        NextReady(w, order, i);
        var job := new Job.Load(w.jobs[j]);
        var satisfied := AreDependenciesSatisfied(db, j);
        if satisfied {
          added := added + [NewRun(j, None, BySchedule, 0, Snapshot(job.work))];
          job.lastRunAt := Some(now);
          var next := ComputeNextRun(w.cron, job.rule, now);
          if next.Err? {
            FailureStaysInBatch(w, order, i);
            return order, Err;
          }
          job.nextRunAt := Some(next.value);
          changed := changed[j := job.Row()];
          BatchGrows(w, batch, j, added[..|added| - 1], added, changed);
          batch := batch + [j];
        }
      }
      assert order[..|order|] == order;
      db.tables := w.(jobs := w.jobs + changed,
                      runs := AddRuns(w.runs, w.nextRun, added), nextRun := w.nextRun + |added|);
      BatchCommitted(w, batch, added, changed);
      created := Ok(|added|);
    }

    /** Every text is looked up in turn, by name and then by id, and the first that is missing, repeated or the
        job itself stops it. */
    method ResolveDependencies(t: JobTable, j: JobId, texts: seq<string>)
      returns (edges: Result<map<(JobId, JobId), RunStatus>>)
      ensures edges.Ok? <==> DepsAccepted(t, j, texts)
      ensures edges.Ok? ==>
                Meant(t, texts).Some? && edges.value == map u | u in Meant(t, texts).value :: (j, u) := Success
    {
      hide Lookup;
      var added: map<(JobId, JobId), RunStatus> := map[];
      for i := 0 to |texts|
        invariant DepsAccepted(t, j, texts[..i])
        invariant forall e :: e in added <==> e.0 == j && e.1 in Meant(t, texts[..i]).value
        invariant forall e | e in added :: added[e] == Success
      {
        var u := Lookup(t, texts[i]);
        OneMoreText(t, texts, i);
        if u.None? || u.value == j || (j, u.value) in added {
          PrefixAccepted(t, j, texts, i + 1);
          return Err;
        }
        added := added[(j, u.value) := Success];
      }
      assert texts[..|texts|] == texts;
      edges := Ok(added);
      assert added == map u | u in Meant(t, texts).value :: (j, u) := Success;
    }

    /** The job's edges are cleared first, then the named ones are added; an error leaves everything. */
    method UpdateDependencies(deps: map<(JobId, JobId), RunStatus>, t: JobTable, j: JobId, texts: seq<string>)
      returns (updated: Result<map<(JobId, JobId), RunStatus>>)
      ensures updated.Ok? <==> DepsAccepted(t, j, texts)
      ensures updated.Ok? ==>
                forall e: (JobId, JobId) ::
                  && (e in updated.value <==> if e.0 == j then e.1 in Meant(t, texts).value else e in deps)
                  && (e in updated.value ==> updated.value[e] == if e.0 == j then Success else deps[e])
      ensures updated.Ok? ==> updated.value == WithDeps(deps, j, Meant(t, texts).value)
    {
      hide Meant, DepsAccepted, WithDeps;
      var cleared := map d | d in deps && d.0 != j :: deps[d];
      var edges := ResolveDependencies(t, j, texts);
      if edges.Err? {
        return Err;
      }
      NewEdges(deps, j, Meant(t, texts).value);
      WithDepsEdges(deps, j, Meant(t, texts).value);
      updated := Ok(cleared + edges.value);
    }

    method RequestedWork(q: Request) returns (work: Work)
      ensures work == CreatedWork(q)
    {
      var payload := BuildPayload(q);
      work := Work(Some(if q.taskType.Some? then q.taskType.value else q.action), q.script, q.workingDir, q.action,
                   Some(payload), q.timeoutSeconds);
    }

    method CreateJob(spec: JobSpec) returns (created: Result<JobId>)
      modifies db
      ensures created.Ok? <==> CreateAccepted(old(db.tables), spec)
      ensures created.Ok? ==> created.value == old(db.tables).nextJob
      ensures created.Err? ==> db.tables == old(db.tables)
      ensures db.tables == Operations.CreateJob(old(db.tables), spec)
      ensures old(db.Valid()) ==> JobCreated(old(db.tables), db.tables, spec, created.Ok?)
    {
      hide DepsAccepted, CreatedJob, Named, Meant, WithDeps, CreateAccepted, Operations.CreateJob, JobCreated;
      if db.Valid() {
        CreateKept(db.tables, spec);
      }
      CreateDecided(db.tables, spec);
      var w, j := db.tables, db.tables.nextJob;
      if Named(w.jobs, spec.name, w.nextJob).Some? || spec.request.Err? {
        return Err;
      }
      var job := NewJob(spec);
      if job.status.Unknown? {
        return Err;
      }
      var row := job.Row();
      if row.maxRetry < 0 || row.work.timeoutSeconds <= 0 {
        return Err;
      }
      // The new job has no edges that would have to be cleared.
      var deps := UpdateDependencies(w.deps, TableWith(w, row), j, spec.dependsOn);
      if deps.Err? {
        return Err;
      }
      db.tables := w.(jobs := w.jobs[j := row], nextJob := j + 1, deps := deps.value);
      created := Ok(j);
    }

    method NewJob(spec: JobSpec) returns (job: Job)
      requires spec.request.Ok?
      ensures fresh(job) && job.status == Normalized(spec.status)
      ensures job.status.Known? ==> job.Row() == CreatedJob(db.tables, spec)
    {
      hide ComputeNextRun, ResolveScheduleRule, BuiltPayload, Synced;
      var work := RequestedWork(spec.request.value);
      job := new Job.New(spec.name, ResolveScheduleRule(spec.schedule, None), spec.status, spec.maxRetry, work);
      job.SyncDomainLogic(db.tables.cron, db.tables.now);
    }

    /** The fields of the request, one after the other, on the loaded job. */
    method ApplyFields(job: Job, e: JobEdit)
      modifies job
      requires e.change.Ok?
      ensures job.status == if e.status.Some? then e.status.value else old(job.status)
      ensures forall s :: job.RowWith(s) == old(job.RowWith(s)).(
                name := if e.name.Some? then e.name.value else old(job.name),
                rule := if e.schedule.Some? then ResolveScheduleRule(e.schedule.value, Some(old(job.rule)))
                        else old(job.rule),
                maxRetry := if e.maxRetry.Some? then e.maxRetry.value else old(job.maxRetry),
                work := ChangedWork(old(job.work), e.change.value))
    {
      hide ResolveScheduleRule;
      if e.schedule.Some? {
        job.rule := ResolveScheduleRule(e.schedule.value, Some(job.rule));
      }
      if e.maxRetry.Some? {
        job.maxRetry := e.maxRetry.value;
      }
      if e.name.Some? {
        job.name := e.name.value;
      }
      if e.status.Some? {
        job.status := e.status.value;
      }
      job.work := ApplyChange(job.work, e.change.value);
    }

    method UpdateJob(j: JobId, e: JobEdit) returns (updated: bool)
      modifies db
      ensures updated == EditAccepted(old(db.tables), j, e)
      ensures db.tables == EditJob(old(db.tables), j, e)
      ensures old(db.Valid()) ==> JobEdited(old(db.tables), db.tables, j, e, updated)
    {
      hide DepsAccepted, ComputeNextRun, ResolveScheduleRule, Synced, WithDeps, ChangedWork, Meant, JobEdited;
      assert db.Valid() ==> JobEdited(db.tables, EditJob(db.tables, j, e), j, e, EditAccepted(db.tables, j, e)) by {
        if db.Valid() {
          EditKept(db.tables, j, e);
        }
      }
      var w := db.tables;
      if j !in w.jobs || e.change.Err? {
        return false;
      }
      var job := new Job.Load(w.jobs[j]);
      ApplyFields(job, e);
      var deps := w.deps;
      if e.dependsOn.Some? {
        var edges := UpdateDependencies(w.deps, TableOf(w), j, e.dependsOn.value);
        if edges.Err? {
          return false;
        }
        deps := edges.value;
      }
      job.SyncDomainLogic(w.cron, w.now);
      if job.status.Unknown? {
        return false;
      }
      assert job.Row() == EditedJob(w.jobs[j], e, EditStatus(w.jobs[j], e).status, w.cron, w.now);
      if job.maxRetry < 0 || job.work.timeoutSeconds <= 0 {
        return false;
      }
      if e.name.Some? && exists k :: k in w.jobs && k != j && w.jobs[k].name == e.name.value {
        return false;
      }
      db.tables := w.(jobs := w.jobs[j := job.Row()], deps := deps);
      return true;
    }

    method SetJobEnabled(j: JobId, on: bool) returns (found: bool)
      modifies db
      ensures Inv(old(db.tables)) ==> found == (j in old(db.tables).jobs)
      ensures db.tables == SetEnabled(old(db.tables), j, on)
      ensures Inv(old(db.tables)) && found ==> JobSwitched(old(db.tables), db.tables, j, on)
    {
      hide Inv, EditAccepted, JobSwitched;
      SwitchKept(db.tables, j, on);
      ConsistentIsAcceptable(db.tables, j);
      SwitchAccepted(db.tables, j, on);
      found := UpdateJob(j, Switch(on));
    }

    method DeleteJob(j: JobId) returns (found: bool)
      modifies db
      ensures found == (j in old(db.tables).jobs)
      ensures db.tables == Operations.DeleteJob(old(db.tables), j)
      ensures JobDeleted(old(db.tables), db.tables, j)
    {
      DeleteKept(db.tables, j);
      var w := db.tables;
      if j !in w.jobs {
        return false;
      }
      db.tables := w.(deps := map e | e in w.deps && !(e.0 == j || e.1 == j) :: w.deps[e]);
      db.tables := db.tables.(jobs := w.jobs - {j}, runs := map r | r in w.runs && w.runs[r].job != j :: w.runs[r]);
      return true;
    }

    method TriggerJob(j: JobId, trigger: Trigger) returns (run: Result<RunId>)
      modifies db
      ensures run.Ok? <==> j in old(db.tables).jobs && (trigger.BySchedule? ==> old(db.tables).jobs[j].enabled)
      ensures run.Ok? ==> run.value == old(db.tables).nextRun
      ensures db.tables == Operations.TriggerJob(old(db.tables), j, trigger)
      ensures old(db.Valid()) ==> Triggered(old(db.tables), db.tables, j, trigger, run.Ok?)
    {
      if db.Valid() {
        TriggerKept(db.tables, j, trigger);
      }
      var w := db.tables;
      if j !in w.jobs {
        return Err;
      }
      if trigger == BySchedule && !w.jobs[j].enabled {
        return Err;
      }
      run := Ok(w.nextRun);
      db.tables := AddRun(w, NewRun(j, None, trigger, 0, Snapshot(w.jobs[j].work)));
    }
  }

  lemma CreateDecided(w: World, spec: JobSpec)
    ensures CreateAccepted(w, spec) <==>
            && Named(w.jobs, spec.name, w.nextJob).None? && spec.request.Ok? && Normalized(spec.status).Known?
            && Acceptable(CreatedJob(w, spec))
            && DepsAccepted(TableWith(w, CreatedJob(w, spec)), w.nextJob, spec.dependsOn)
    ensures Named(w.jobs, spec.name, w.nextJob).Some? || spec.request.Err? || Normalized(spec.status).Unknown? ==>
              Operations.CreateJob(w, spec) == w
    ensures Named(w.jobs, spec.name, w.nextJob).None? && spec.request.Ok? && Normalized(spec.status).Known? ==>
              var row := CreatedJob(w, spec);
              var t := TableWith(w, row);
              Operations.CreateJob(w, spec) ==
              if Acceptable(row) && DepsAccepted(t, w.nextJob, spec.dependsOn)
              then w.(jobs := w.jobs[w.nextJob := row], nextJob := w.nextJob + 1,
                      deps := WithDeps(w.deps, w.nextJob, Meant(t, spec.dependsOn).value))
              else w
  {
    hide CreatedJob, Named, Meant, WithDeps;
  }

  lemma NewEdges(deps: map<(JobId, JobId), RunStatus>, j: JobId, upstream: seq<JobId>)
    ensures WithDeps(deps, j, upstream) ==
            (map e | e in deps && e.0 != j :: deps[e]) + (map u | u in upstream :: (j, u) := Success)
  {
  }

  lemma OneMoreText(t: JobTable, texts: seq<string>, i: nat)
    requires i < |texts| && Meant(t, texts[..i]).Some?
    ensures Meant(t, texts[..i + 1]) ==
            if Lookup(t, texts[i]).None? then None else Some(Meant(t, texts[..i]).value + [Lookup(t, texts[i]).value])
  {
    hide Lookup;
    assert texts[..i + 1][..i] == texts[..i];
  }

  /** What is wrong with the first texts is wrong with all of them. */
  lemma PrefixAccepted(t: JobTable, j: JobId, texts: seq<string>, n: nat)
    requires n <= |texts|
    ensures DepsAccepted(t, j, texts) ==> DepsAccepted(t, j, texts[..n])
  {
    hide Lookup;
    if DepsAccepted(t, j, texts) {
      AcceptedPrefix(t, j, texts, n);
    }
  }

  lemma AcceptedPrefix(t: JobTable, j: JobId, texts: seq<string>, n: nat)
    requires n <= |texts| && DepsAccepted(t, j, texts)
    ensures DepsAccepted(t, j, texts[..n])
  {
    hide Lookup;
    var all, some := Meant(t, texts).value, Meant(t, texts[..n]);
    assert forall x | x in texts[..n] :: x in texts;
    assert forall i | 0 <= i < n :: Lookup(t, texts[i]) == Some(all[i]) && texts[..n][i] == texts[i];
    assert some.value == all[..n];
  }

  /** After an accepted edit that names upstream jobs, the job waits for the newest run of each of them to
      succeed, and for nothing else; what any other job waits for is as before. */
  lemma EditedDependencies(w: World, j: JobId, e: JobEdit, k: JobId)
    requires EditAccepted(w, j, e) && e.dependsOn.Some?
    ensures DepsSatisfied(EditJob(w, j, e), k) <==>
            if k == j then forall u | u in EditedUpstream(w, j, e) :: EdgeMet(w, u, Success) else DepsSatisfied(w, k)
  {
    hide EditAccepted, EditedJob;
    var w' := EditJob(w, j, e);
    assert forall u, s :: EdgeMet(w', u, s) == EdgeMet(w, u, s);
    if k == j {
      forall u | u in EditedUpstream(w, j, e)
        ensures (j, u) in w'.deps && w'.deps[(j, u)] == Success
      {
      }
    } else {
      assert forall d: (JobId, JobId) | d.0 == k ::
          (d in w'.deps <==> d in w.deps) && (d in w.deps ==> w'.deps[d] == w.deps[d]);
    }
  }

  lemma ConsistentIsAcceptable(w: World, j: JobId)
    ensures Inv(w) && j in w.jobs ==> w.jobs[j].maxRetry >= 0 && w.jobs[j].work.timeoutSeconds > 0
  {
  }

  /** Switching an existing job on or off is never rejected by the table. */
  lemma SwitchAccepted(w: World, j: JobId, on: bool)
    ensures Inv(w) ==> (EditAccepted(w, j, Switch(on)) <==> j in w.jobs)
  {
    hide RunOk, ParentOk, EdgesOk, NamesUnique, RuleInterval, ComputeNextRun;
  }

  /** What the session holds for a batch before the commit. */
  ghost predicate BatchIs(w: World, batch: seq<JobId>, added: seq<RunRow>, changed: map<JobId, JobRow>) {
    && Computable(w, batch)
    && added == ScheduledRuns(w, batch)
    && (forall j :: j in changed <==> j in batch)
    && (forall j | j in changed :: changed[j] == Rescheduled(w, j))
  }

  lemma NothingReady(w: World)
    ensures Ready(w, []) == [] && BatchIs(w, [], [], map[])
  {
  }

  lemma NextReady(w: World, order: seq<JobId>, i: nat)
    requires i < |order|
    ensures Ready(w, order[..i + 1]) == Ready(w, order[..i]) + if DepsSatisfied(w, order[i]) then [order[i]] else []
  {
    hide DepsSatisfied;
    assert order[..i + 1][..i] == order[..i];
  }

  lemma BatchGrows(w: World, batch: seq<JobId>, j: JobId, before: seq<RunRow>, added: seq<RunRow>,
                   changed: map<JobId, JobRow>)
    requires j in w.jobs && ComputeNextRun(w.cron, w.jobs[j].rule, w.now).Ok?
    requires Computable(w, batch) && before == ScheduledRuns(w, batch)
    requires forall k :: k in changed <==> k in batch || k == j
    requires forall k | k in changed ::
               k in w.jobs && ComputeNextRun(w.cron, w.jobs[k].rule, w.now).Ok? && changed[k] == Rescheduled(w, k)
    requires added == before + [ScheduledRun(w, j)]
    ensures BatchIs(w, batch + [j], added, changed)
  {
    hide ComputeNextRun, Rescheduled, ScheduledRun;
  }

  lemma BatchCommitted(w: World, batch: seq<JobId>, added: seq<RunRow>, changed: map<JobId, JobRow>)
    requires BatchIs(w, batch, added, changed)
    ensures w.(jobs := w.jobs + changed, runs := AddRuns(w.runs, w.nextRun, added), nextRun := w.nextRun + |added|)
            == Enqueued(w, batch)
    ensures |added| == |batch|
  {
    hide ComputeNextRun, Rescheduled, ScheduledRuns, AddRuns;
    assert w.jobs + changed == Enqueued(w, batch).jobs;
  }

  /** A rule that fails while a prefix is scanned fails in the whole batch. */
  lemma FailureStaysInBatch(w: World, order: seq<JobId>, i: nat)
    requires i < |order| && DepsSatisfied(w, order[i]) && order[i] in w.jobs
    requires ComputeNextRun(w.cron, w.jobs[order[i]].rule, w.now).Err?
    ensures !Computable(w, Ready(w, order))
  {
    hide DepsSatisfied, ComputeNextRun;
    assert order[i] in order;
    assert order[i] in Ready(w, order);
  }
}
