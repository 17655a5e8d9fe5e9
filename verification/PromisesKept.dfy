/** Every operation on the tables, and so every step of the protocol, keeps what is promised of it. */
module PromisesKept {
  import opened Basics
  import opened Schedule
  import opened Rows
  import opened Payloads
  import opened Operations
  import opened Protocol
  import opened Promises
  import Durations

  // ---------------------------------------------------------------- dependencies and the queue

  /** The dependency check holds exactly when every upstream job has a newest run with the required status. */
  lemma SatisfiedMeansAllMet(w: World, j: JobId)
    requires IdsBelow(w)
    ensures DepsSatisfied(w, j) <==> AllMet(w, j)
  {
    forall e | e in w.deps && e.0 == j
      ensures EdgeMet(w, e.1, w.deps[e]) <==> exists r :: NewestRun(w, e.1, r) && w.runs[r].status == w.deps[e]
    {
      EdgeMeans(w, e.1, w.deps[e]);
    }
  }

  lemma EdgeMeans(w: World, u: JobId, required: RunStatus)
    requires IdsBelow(w)
    ensures EdgeMet(w, u, required) <==> exists r :: NewestRun(w, u, r) && w.runs[r].status == required
  {
    var newest := Newest(w, u);
    if newest.Some? {
      assert NewestRun(w, u, newest.value);
    }
  }

  lemma LockableMeans(w: World, busy: Busy, r: RunId)
    ensures Lockable(w, busy, r) <==> Takeable(w, busy, r)
  {
  }

  lemma ClaimMeans(w: World, r: RunId, worker: string, lockSeconds: int)
    requires r in w.runs
    ensures Taken(w, Claim(w, Some(r), worker, lockSeconds), r, worker, lockSeconds)
  {
  }

  lemma DequeueKept(w: World, worker: string, lockSeconds: int, busy: Busy)
    requires IdsBelow(w)
    ensures Dequeued(w, Dequeue(w, worker, lockSeconds, busy), Choice(w, busy), worker, lockSeconds, busy)
  {
    hide DepsSatisfied, AllMet, FindNextRunToLock, Lockable, Takeable, Claim, Taken;
    FoundIsOldest(w, busy, Blocked(w));
    forall r
      ensures Lockable(w, busy, r) <==> Takeable(w, busy, r)
    {
      LockableMeans(w, busy, r);
    }
    forall j
      ensures DepsSatisfied(w, j) <==> AllMet(w, j)
    {
      SatisfiedMeansAllMet(w, j);
    }
    TakeableIsPending(w, busy);
    if Choice(w, busy).Some? {
      ClaimMeans(w, Choice(w, busy).value, worker, lockSeconds);
    } else {
      NoClaim(w, worker, lockSeconds);
    }
  }

  lemma TakeableIsPending(w: World, busy: Busy)
    ensures forall r | Takeable(w, busy, r) :: r in w.runs && w.runs[r].status.Pending?
  {
  }

  lemma NoClaim(w: World, worker: string, lockSeconds: int)
    ensures Claim(w, None, worker, lockSeconds) == w
  {
  }

  lemma LockOldestKept(w: World, worker: string, lockSeconds: int, busy: Busy)
    requires IdsBelow(w)
    ensures OldestLocked(w, LockOldest(w, worker, lockSeconds, busy), FindNextRunToLock(w, busy, {}),
                         worker, lockSeconds, busy)
  {
    hide FindNextRunToLock, Lockable, Takeable, Claim, Taken;
    FoundIsOldest(w, busy, {});
    forall r
      ensures Lockable(w, busy, r) <==> Takeable(w, busy, r)
    {
      LockableMeans(w, busy, r);
    }
    TakeableIsPending(w, busy);
    var found := FindNextRunToLock(w, busy, {});
    if found.Some? {
      ClaimMeans(w, found.value, worker, lockSeconds);
    } else {
      NoClaim(w, worker, lockSeconds);
    }
  }

  lemma ReleaseKept(w: World, stamp: bool)
    ensures LeasesReleased(w, ReleaseExpired(w, stamp), stamp)
  {
  }

  lemma HeartbeatKept(w: World, r: RunId)
    ensures HeartbeatSent(w, Heartbeat(w, r), r)
  {
  }

  // ---------------------------------------------------------------- status reports

  lemma EntityDurationsKept(d: Time)
    ensures EntityDurations(d, Some(Durations.PyMilliseconds(d)), Some(Durations.PySeconds(d)))
  {
    hide Durations.RoundHalfEven;
    Durations.RoundHalfEvenIsNearest(Durations.PyElapsed(d), 1000);
  }

  lemma TriggerDurationsKept(d: Time)
    ensures TriggerDurations(d, Some(Durations.SqlMilliseconds(d)), Some(Durations.SqlSeconds(d)))
  {
  }

  lemma FinishKept(row: RunRow, now: Time)
    ensures RunFinished(row, Completed(row, now), row.status, now)
  {
    hide EntityDurations, Durations.PyMilliseconds, Durations.PySeconds;
    if row.startTime.Some? {
      EntityDurationsKept(now - row.startTime.value);
    }
  }

  lemma RowReportKept(row: RunRow, status: Option<RunStatus>, out: Output, now: Time)
    ensures RowReported(row, WithOutput(StatusApplied(row, status, now), out), status, out, now)
  {
    hide EntityDurations, Durations.PyMilliseconds, Durations.PySeconds;
    if row.startTime.Some? {
      EntityDurationsKept(now - row.startTime.value);
    }
  }

  lemma ReportKept(w: World, r: RunId, status: Option<RunStatus>, out: Output)
    requires IdsBelow(w)
    ensures StatusReported(w, UpdateStatus(w, r, status, out), r, status, out)
  {
    hide RowReported, StatusApplied, WithOutput;
    if r in w.runs {
      RowReportKept(w.runs[r], status, out, w.now);
    }
  }

  lemma RetryKept(w: World, r: RunId)
    requires IdsBelow(w)
    ensures Retried(w, RetryRun(w, r), r, r in w.runs && CanRetry(w, w.runs[r]))
  {
  }

  lemma ParkKept(w: World, r: RunId, externalId: string, stdout: Option<string>)
    ensures ParkedForResult(w, Park(w, r, externalId, stdout), r, externalId, stdout)
  {
  }

  // ---------------------------------------------------------------- jobs

  lemma TriggerKept(w: World, j: JobId, trigger: Trigger)
    requires IdsBelow(w)
    ensures Triggered(w, TriggerJob(w, j, trigger), j, trigger,
                      j in w.jobs && (trigger.BySchedule? ==> w.jobs[j].enabled))
  {
  }

  lemma DeleteKept(w: World, j: JobId)
    ensures JobDeleted(w, DeleteJob(w, j), j)
  {
  }

  lemma DependencyKept(w: World, j: JobId, upstream: JobId, required: RunStatus)
    ensures DependencyStored(w, AddDependency(w, j, upstream, required), j, upstream, required,
                             j in w.jobs && upstream in w.jobs && j != upstream)
  {
  }

  lemma SyncKept(row: JobRow, cron: Cron, now: Time)
    ensures Synchronised(Synced(row, cron, now), cron, now)
  {
    hide ComputeNextRun;
  }

  /** A lookup finds a job that the text means, if there is one. */
  lemma LookupMeans(t: JobTable, text: string)
    requires forall j | j in t.jobs :: j < t.next
    ensures Lookup(t, text).Some? ==> Means(t.jobs, t.ids, text, Lookup(t, text).value)
    ensures Lookup(t, text).None? ==> forall u | u in t.jobs :: !Means(t.jobs, t.ids, text, u)
  {
  }

  lemma AcceptedNames(w: World, t: JobTable, j: JobId, texts: seq<string>)
    requires (forall k | k in t.jobs :: k < t.next) && t.ids == w.ids && DepsAccepted(t, j, texts)
    ensures EdgesNamed(w, WithDeps(w.deps, j, Meant(t, texts).value), t.jobs, j, texts)
  {
    hide Lookup, Means, WithDeps, Meant, EdgesNamed;
    var upstream := Meant(t, texts).value;
    WithDepsEdges(w.deps, j, upstream);
    forall i | 0 <= i < |texts|
      ensures Means(t.jobs, w.ids, texts[i], upstream[i])
    {
      LookupMeans(t, texts[i]);
    }
    NamedOneByOne(w, WithDeps(w.deps, j, upstream), t.jobs, j, texts, upstream);
  }

  lemma NamedOneByOne(w: World, deps: map<(JobId, JobId), RunStatus>, jobs: map<JobId, JobRow>, j: JobId,
                      texts: seq<string>, upstream: seq<JobId>)
    requires |upstream| == |texts| && j !in upstream && NoDuplicates(upstream)
    requires forall u | u in upstream :: u in jobs
    requires forall i | 0 <= i < |texts| :: Means(jobs, w.ids, texts[i], upstream[i])
    requires forall e: (JobId, JobId) ::
               && (e in deps <==> if e.0 == j then e.1 in upstream else e in w.deps)
               && (e in deps ==> deps[e] == if e.0 == j then Success else w.deps[e])
    ensures EdgesNamed(w, deps, jobs, j, texts)
  {
    hide Means, NamedBy, HasEdgeFor;
    OneEdgeEach(deps, j, upstream);
    forall e | e in deps && e.0 == j
      ensures NamedBy(jobs, w.ids, texts, e.1)
    {
      var i :| 0 <= i < |upstream| && upstream[i] == e.1;
      TextNames(jobs, w.ids, texts, i, e.1);
    }
    forall i | 0 <= i < |texts|
      ensures HasEdgeFor(deps, jobs, w.ids, j, texts[i])
    {
      assert upstream[i] in upstream;
      TextHasEdge(deps, jobs, w.ids, j, texts[i], upstream[i]);
    }
  }

  lemma OneEdgeEach(deps: map<(JobId, JobId), RunStatus>, j: JobId, upstream: seq<JobId>)
    requires NoDuplicates(upstream) && forall e: (JobId, JobId) | e.0 == j :: e in deps <==> e.1 in upstream
    ensures |set e | e in deps && e.0 == j| == |upstream|
  {
    var edges: seq<(JobId, JobId)> := seq(|upstream|, i requires 0 <= i < |upstream| => (j, upstream[i]));
    forall e: (JobId, JobId)
      ensures e in edges <==> e in deps && e.0 == j
    {
      if e.0 == j && e.1 in upstream {
        var i :| 0 <= i < |upstream| && upstream[i] == e.1;
        assert edges[i] == e;
      }
    }
    EnumerationSize(edges, set e | e in deps && e.0 == j);
  }

  lemma TextNames(jobs: map<JobId, JobRow>, ids: JobId -> string, texts: seq<string>, i: nat, u: JobId)
    requires i < |texts| && Means(jobs, ids, texts[i], u)
    ensures NamedBy(jobs, ids, texts, u)
  {
    hide Means;
  }

  lemma TextHasEdge(deps: map<(JobId, JobId), RunStatus>, jobs: map<JobId, JobRow>, ids: JobId -> string,
                    j: JobId, text: string, u: JobId)
    requires u in jobs && (j, u) in deps && Means(jobs, ids, text, u)
    ensures HasEdgeFor(deps, jobs, ids, j, text)
  {
    hide Means;
  }

  lemma RefusedNames(t: JobTable, j: JobId, texts: seq<string>)
    requires (forall k | k in t.jobs :: k < t.next) && !DepsAccepted(t, j, texts)
    ensures NamesRefused(t.jobs, t.ids, j, texts)
  {
    hide Lookup, Means;
    if Meant(t, texts).None? {
      var x :| x in texts && Lookup(t, x).None?;
      var i :| 0 <= i < |texts| && texts[i] == x;
      LookupMeans(t, texts[i]);
    } else {
      var upstream := Meant(t, texts).value;
      forall i | 0 <= i < |texts|
        ensures Means(t.jobs, t.ids, texts[i], upstream[i]) && upstream[i] in t.jobs
      {
        LookupMeans(t, texts[i]);
      }
      if j in upstream {
        var i :| 0 <= i < |upstream| && upstream[i] == j;
        assert Means(t.jobs, t.ids, texts[i], j);
      } else {
        var i, k :| 0 <= i < k < |upstream| && upstream[i] == upstream[k];
        assert Means(t.jobs, t.ids, texts[i], upstream[i]) && Means(t.jobs, t.ids, texts[k], upstream[i]);
      }
    }
  }

  lemma BuiltKept(q: Request)
    ensures PayloadOfRequest(BuiltPayload(q), q)
  {
    PayloadKeys();
  }

  lemma RebuiltKept(action: ActionType, stored: Option<Payload>, c: Change)
    ensures PayloadRebuilt(Rebuilt(action, stored, c), OrEmpty(stored), action, c)
  {
    PayloadKeys();
  }

  lemma CreatedWorkKept(q: Request)
    ensures WorkOfRequest(CreatedWork(q), q)
  {
    hide PayloadOfRequest, BuiltPayload;
    BuiltKept(q);
  }

  lemma ChangedWorkKept(work: Work, c: Change)
    ensures var changed := ChangedWork(work, c);
            WorkChanged(work, changed.(payload := OrElse(changed.payload, map[])), c)
  {
    hide PayloadRebuilt, Rebuilt;
    RebuiltKept(ChangedWork(work, c).actionType, work.payload, c);
  }

  lemma CreatedRowKept(w: World, spec: JobSpec)
    requires Normalized(spec.status).Known? && spec.request.Ok?
    ensures RowOfRequest(CreatedJob(w, spec), spec, w.cron, w.now)
  {
    hide ComputeNextRun, ResolveScheduleRule, WorkOfRequest, CreatedWork, Synchronised;
    CreatedWorkKept(spec.request.value);
    CreatedPayload(spec.request.value);
    SyncKept(DraftJob(spec, Normalized(spec.status).status), w.cron, w.now);
  }

  lemma CreatedPayload(q: Request)
    ensures CreatedWork(q).payload.Some?
  {
  }

  lemma CreateKept(w: World, spec: JobSpec)
    requires IdsBelow(w)
    ensures JobCreated(w, CreateJob(w, spec), spec, CreateAccepted(w, spec))
  {
    hide CreatedJob, RowOfRequest, DepsAccepted, EdgesNamed, NamesRefused, WithDeps, Meant, Named;
    NamedMeans(w, spec.name);
    if Normalized(spec.status).Known? && spec.request.Ok? {
      CreatedRowKept(w, spec);
      NewRowFields(w, spec);
      var t := TableWith(w, CreatedJob(w, spec));
      if DepsAccepted(t, w.nextJob, spec.dependsOn) {
        AcceptedNames(w, t, w.nextJob, spec.dependsOn);
      } else {
        RefusedNames(t, w.nextJob, spec.dependsOn);
      }
    }
  }

  lemma NamedMeans(w: World, name: string)
    requires IdsBelow(w)
    ensures Named(w.jobs, name, w.nextJob).Some? <==> exists k :: k in w.jobs && w.jobs[k].name == name
  {
  }

  lemma NewRowFields(w: World, spec: JobSpec)
    requires Normalized(spec.status).Known? && spec.request.Ok?
    ensures Acceptable(CreatedJob(w, spec)) <==> spec.maxRetry >= 0 && spec.request.value.timeoutSeconds > 0
  {
    hide ComputeNextRun, ResolveScheduleRule, BuiltPayload;
  }

  lemma EditedRowKept(row: JobRow, e: JobEdit, cron: Cron, now: Time)
    requires EditStatus(row, e).Known? && e.change.Ok?
    ensures RowChanged(row, EditedJob(row, e, EditStatus(row, e).status, cron, now), e, cron, now)
  {
    hide ComputeNextRun, ResolveScheduleRule, WorkChanged, ChangedWork, Synchronised;
    ChangedWorkKept(row.work, e.change.value);
    SyncKept(row.(name := if e.name.Some? then e.name.value else row.name,
                  rule := if e.schedule.Some? then ResolveScheduleRule(e.schedule.value, Some(row.rule)) else row.rule,
                  maxRetry := if e.maxRetry.Some? then e.maxRetry.value else row.maxRetry,
                  work := ChangedWork(row.work, e.change.value),
                  status := EditStatus(row, e).status), cron, now);
  }

  lemma EditKept(w: World, j: JobId, e: JobEdit)
    requires IdsBelow(w)
    ensures JobEdited(w, EditJob(w, j, e), j, e, EditAccepted(w, j, e))
  {
    hide EditedJob, RowChanged, DepsAccepted, EdgesNamed, NamesRefused, WithDeps, Meant;
    if j in w.jobs && e.change.Ok? && EditStatus(w.jobs[j], e).Known? {
      EditedRowKept(w.jobs[j], e, w.cron, w.now);
      if e.dependsOn.Some? {
        if DepsAccepted(TableOf(w), j, e.dependsOn.value) {
          AcceptedNames(w, TableOf(w), j, e.dependsOn.value);
        } else {
          RefusedNames(TableOf(w), j, e.dependsOn.value);
        }
      }
    }
  }

  /** Switching a job that meets the column constraints on or off. */
  lemma SwitchKept(w: World, j: JobId, on: bool)
    ensures j in w.jobs && w.jobs[j].maxRetry >= 0 && w.jobs[j].work.timeoutSeconds > 0 ==>
              JobSwitched(w, SetEnabled(w, j, on), j, on)
    ensures !(j in w.jobs && w.jobs[j].maxRetry >= 0 && w.jobs[j].work.timeoutSeconds > 0) ==> SetEnabled(w, j, on) == w
  {
    hide ComputeNextRun;
  }

  // ---------------------------------------------------------------- the scheduler

  lemma ReadyMeansWanted(w: World, order: seq<JobId>, seen: set<JobId>)
    requires IdsBelow(w) && ScanRows(w, order)
    requires forall j :: j in order <==> Due(w, j) && j in seen
    ensures forall j :: j in Ready(w, order) <==> Wanted(w, seen, j)
  {
    hide DepsSatisfied, AllMet;
    forall j
      ensures DepsSatisfied(w, j) <==> AllMet(w, j)
    {
      SatisfiedMeansAllMet(w, j);
    }
  }

  lemma ScanKept(w: World, order: seq<JobId>, seen: set<JobId>)
    requires IdsBelow(w) && ScanRows(w, order)
    requires forall j :: j in order <==> Due(w, j) && j in seen
    ensures Scanned(w, Scan(w, order), seen, Computable(w, Ready(w, order)))
  {
    hide Wanted, Ready, ComputeNextRun, ScanRows, Enqueued;
    ReadyMeansWanted(w, order, seen);
    ReadyDistinct(w, order);
    if Computable(w, Ready(w, order)) {
      EnqueuedKept(w, Ready(w, order), seen);
    }
  }

  lemma EnqueuedKept(w: World, q: seq<JobId>, seen: set<JobId>)
    requires IdsBelow(w) && Computable(w, q) && NoDuplicates(q) && forall j :: j in q <==> Wanted(w, seen, j)
    ensures Scanned(w, Enqueued(w, q), seen, true)
  {
    hide Wanted, ComputeNextRun, ScheduledFor, ScheduledRuns, Rescheduled, AddRuns;
    var w' := Enqueued(w, q);
    forall r | w.nextRun <= r < w'.nextRun
      ensures r in w'.runs && w'.runs[r].job == q[r - w.nextRun] && Wanted(w, seen, w'.runs[r].job)
      ensures ScheduledFor(w, w', r, w'.runs[r].job)
    {
      assert q[r - w.nextRun] in q;
      EnqueuedFor(w, q, r - w.nextRun);
    }
    forall j | Wanted(w, seen, j)
      ensures exists r :: ScheduledFor(w, w', r, j)
    {
      var i :| 0 <= i < |q| && q[i] == j;
      EnqueuedFor(w, q, i);
      assert ScheduledFor(w, w', w.nextRun + i, j);
    }
    forall j | j in w.jobs && Wanted(w, seen, j)
      ensures w'.jobs[j] == Rescheduled(w, j)
      ensures w'.jobs[j] == w.jobs[j].(lastRunAt := Some(w.now), nextRunAt := w'.jobs[j].nextRunAt)
      ensures w'.jobs[j].nextRunAt.Some?
      ensures ComputeNextRun(w.cron, w.jobs[j].rule, w.now) == Ok(w'.jobs[j].nextRunAt.value)
    {
      RescheduledRow(w, j);
    }
  }

  lemma RescheduledRow(w: World, j: JobId)
    requires j in w.jobs && ComputeNextRun(w.cron, w.jobs[j].rule, w.now).Ok?
    ensures var row := Rescheduled(w, j);
            && row == w.jobs[j].(lastRunAt := Some(w.now), nextRunAt := row.nextRunAt) && row.nextRunAt.Some?
            && ComputeNextRun(w.cron, w.jobs[j].rule, w.now) == Ok(row.nextRunAt.value)
  {
    hide ComputeNextRun;
  }

  lemma ReadyDistinct(w: World, order: seq<JobId>)
    requires ScanRows(w, order)
    ensures NoDuplicates(Ready(w, order))
  {
  }

  lemma EnqueuedFor(w: World, q: seq<JobId>, i: nat)
    requires Computable(w, q) && i < |q|
    ensures var w' := Enqueued(w, q);
            w.nextRun + i in w'.runs && w'.runs[w.nextRun + i].job == q[i] && ScheduledFor(w, w', w.nextRun + i, q[i])
  {
    hide ComputeNextRun;
    assert q[i] in q;
  }

  // ---------------------------------------------------------------- every step

  function Elements(order: seq<JobId>): set<JobId> {
    set j | j in order
  }

  /** The rows that the query of a scan may return. */
  predicate ItsTimeHasCome(w: World, j: JobId) {
    && j in w.jobs && w.jobs[j].enabled && (w.jobs[j].status == Enabled || w.jobs[j].status == Active)
    && w.jobs[j].nextRunAt.Some? && w.jobs[j].nextRunAt.value <= w.now
  }

  /** What a step of the protocol promises. */
  ghost predicate Promised(w: World, a: Action, w': World) {
    match a
    case Tick(d) => w' == w.(now := w.now + d)
    case Create(spec) => exists accepted :: JobCreated(w, w', spec, accepted)
    case Edit(j, e) => exists accepted :: JobEdited(w, w', j, e, accepted)
    case Enable(j, on) =>
      if j in w.jobs && w.jobs[j].maxRetry >= 0 && w.jobs[j].work.timeoutSeconds > 0 then JobSwitched(w, w', j, on)
      else w' == w
    case Delete(j) => JobDeleted(w, w', j)
    case Depend(j, u, required) => exists accepted :: DependencyStored(w, w', j, u, required, accepted)
    case TriggerNow(j, trigger) => exists accepted :: Triggered(w, w', j, trigger, accepted)
    case ScanDue(order) =>
      if NoDuplicates(order) && forall j | j in order :: ItsTimeHasCome(w, j)
      then exists done :: Scanned(w, w', Elements(order), done)
      else w' == w
    case Pull(worker, secs, busy) => exists run :: Dequeued(w, w', run, worker, secs, busy)
    case PullOldest(worker, secs, busy) => exists run :: OldestLocked(w, w', run, worker, secs, busy)
    case Await(r, ext, stdout) => ParkedForResult(w, w', r, ext, stdout)
    case ReportStatus(r, status, out) => StatusReported(w, w', r, status, out)
    case Retry(r) => exists accepted :: Retried(w, w', r, accepted)
    case Beat(r) => HeartbeatSent(w, w', r)
    case ReleaseLeases(stamp) => LeasesReleased(w, w', stamp)
    case Clear => w' == w.(runs := map[])
  }

  lemma ScanStepKept(w: World, order: seq<JobId>)
    requires IdsBelow(w)
    ensures Promised(w, ScanDue(order), Scan(w, order))
  {
    hide Scan, Ready, Computable, Scanned;
    assert forall j :: Due(w, j) <==> ItsTimeHasCome(w, j);
    if ScanRows(w, order) {
      ScanKept(w, order, Elements(order));
    } else {
      NoScan(w, order);
    }
  }

  lemma NoScan(w: World, order: seq<JobId>)
    requires !ScanRows(w, order)
    ensures Scan(w, order) == w
  {
  }

  /** Every step of the protocol does what it promises, whatever the tables are. */
  lemma StepKeepsPromise(w: World, a: Action)
    requires IdsBelow(w)
    ensures Promised(w, a, Step(w, a))
  {
    hide CreateJob, EditJob, SetEnabled, DeleteJob, AddDependency, TriggerJob, Scan, Dequeue, LockOldest, Park;
    hide UpdateStatus, RetryRun, Heartbeat, ReleaseExpired;
    hide JobCreated, JobEdited, JobSwitched, JobDeleted, DependencyStored, Triggered, Scanned, Dequeued, OldestLocked;
    hide ParkedForResult, StatusReported, Retried, HeartbeatSent, LeasesReleased;
    match a {
      case Create(spec) => CreateKept(w, spec);
      case Edit(j, e) => EditKept(w, j, e);
      case Enable(j, on) => SwitchKept(w, j, on);
      case Delete(j) => DeleteKept(w, j);
      case Depend(j, u, required) => DependencyKept(w, j, u, required);
      case TriggerNow(j, trigger) => TriggerKept(w, j, trigger);
      case ScanDue(order) => ScanStepKept(w, order);
      case Pull(worker, secs, busy) => DequeueKept(w, worker, secs, busy);
      case PullOldest(worker, secs, busy) => LockOldestKept(w, worker, secs, busy);
      case Await(r, ext, stdout) => ParkKept(w, r, ext, stdout);
      case ReportStatus(r, status, out) => ReportKept(w, r, status, out);
      case Retry(r) => RetryKept(w, r);
      case Beat(r) => HeartbeatKept(w, r);
      case ReleaseLeases(stamp) => ReleaseKept(w, stamp);
      case _ =>
    }
  }
}
