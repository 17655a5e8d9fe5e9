/** The system as a state machine: every request, worker, scheduler and poller step, and its histories. */
module Protocol {
  import opened Basics
  import opened Schedule
  import opened Rows
  import opened Payloads
  import opened Operations

  datatype Action =
    | Tick(d: nat)
    | Create(spec: JobSpec)
    | Edit(j: JobId, e: JobEdit)
    | Enable(j: JobId, on: bool)
    | Delete(j: JobId)
    | Depend(j: JobId, upstream: JobId, required: RunStatus)
    | TriggerNow(j: JobId, trigger: Trigger)
    | ScanDue(order: seq<JobId>)
    | Pull(worker: string, lockSeconds: int, busy: Busy)
    | PullOldest(worker: string, lockSeconds: int, busy: Busy)
    | Await(r: RunId, externalId: string, stdout: Option<string>)
    | ReportStatus(r: RunId, status: Option<RunStatus>, out: Output)
    | Retry(r: RunId)
    | Beat(r: RunId)
    | ReleaseLeases(stamp: bool)
    | Clear

  function Step(w: World, a: Action): World {
    match a
    case Tick(d) => w.(now := w.now + d)
    case Create(spec) => CreateJob(w, spec)
    case Edit(j, e) => EditJob(w, j, e)
    case Enable(j, on) => SetEnabled(w, j, on)
    case Delete(j) => DeleteJob(w, j)
    case Depend(j, u, required) => AddDependency(w, j, u, required)
    case TriggerNow(j, t) => TriggerJob(w, j, t)
    case ScanDue(order) => Scan(w, order)
    case Pull(worker, secs, busy) => Dequeue(w, worker, secs, busy)
    case PullOldest(worker, secs, busy) => LockOldest(w, worker, secs, busy)
    case Await(r, ext, stdout) => Park(w, r, ext, stdout)
    case ReportStatus(r, status, out) => UpdateStatus(w, r, status, out)
    case Retry(r) => RetryRun(w, r)
    case Beat(r) => Heartbeat(w, r)
    case ReleaseLeases(stamp) => ReleaseExpired(w, stamp)
    case Clear => ClearRuns(w)
  }

  predicate Initial(w: World) {
    w.jobs == map[] && w.runs == map[] && w.deps == map[] && w.nextJob == 0 && w.nextRun == 0
  }

  ghost predicate StepAt(tr: seq<World>, acts: seq<Action>, k: nat)
    requires |tr| == |acts| + 1 && k < |acts|
  {
    tr[k + 1] == Step(tr[k], acts[k])
  }

  /** `tr` is the sequence of table states that `acts` produces from empty tables. */
  ghost predicate History(tr: seq<World>, acts: seq<Action>) {
    && |tr| == |acts| + 1
    && Initial(tr[0])
    && forall k | 0 <= k < |acts| :: StepAt(tr, acts, k)
  }

  // ---------------------------------------------------------------- what a step does to one run

  /** The ways a step can change a row of the run table. */
  datatype Move =
    | Stay
    | Take(worker: string, lockSeconds: int)
    | Update(status: Option<RunStatus>, out: Output)
    | ParkIt(externalId: string, stdout: Option<string>)
    | LetGo(stamp: bool)
    | Touch

  function Moved(row: RunRow, now: Time, m: Move): RunRow {
    match m
    case Stay => row
    case Take(worker, secs) => Claimed(row, worker, secs, now)
    case Update(status, out) => WithOutput(StatusApplied(row, status, now), out)
    case ParkIt(ext, stdout) => Parked(row, ext, stdout)
    case LetGo(stamp) => Released(row, now, stamp)
    case Touch => row.(heartbeatAt := Some(now))
  }

  /** When each way is open: only a pending run is taken, only an expired lease is let go. */
  predicate Open(row: RunRow, now: Time, m: Move) {
    match m
    case Take(_, _) => row.status.Pending?
    case ParkIt(ext, _) => ext != ""
    case LetGo(_) => Expired(row, now)
    case _ => true
  }

  function MoveOf(w: World, a: Action, r: RunId): Move
    requires r in w.runs
  {
    match a
    case Pull(worker, secs, busy) => if Choice(w, busy) == Some(r) then Take(worker, secs) else Stay
    case PullOldest(worker, secs, busy) =>
      if FindNextRunToLock(w, busy, {}) == Some(r) then Take(worker, secs) else Stay
    case Await(s, ext, stdout) => if s == r && ext != "" then ParkIt(ext, stdout) else Stay
    case ReportStatus(s, status, out) => if s == r then Update(status, out) else Stay
    case Beat(s) => if s == r then Touch else Stay
    case ReleaseLeases(stamp) => if Expired(w.runs[r], w.now) then LetGo(stamp) else Stay
    case _ => Stay
  }

  /** Runs disappear only all at once or together with their job. */
  predicate Survives(w: World, a: Action, r: RunId)
    requires r in w.runs
  {
    match a
    case Clear => false
    case Delete(j) => !(j in w.jobs && w.runs[r].job == j)
    case _ => true
  }

  /** The rows a step inserts. */
  function Births(w: World, a: Action): seq<RunRow> {
    match a
    case TriggerNow(j, t) =>
      if j in w.jobs && (t.BySchedule? ==> w.jobs[j].enabled)
      then [NewRun(j, None, t, 0, Snapshot(w.jobs[j].work))] else []
    case ScanDue(order) =>
      if ScanRows(w, order) && Computable(w, Ready(w, order)) then ScheduledRuns(w, Ready(w, order)) else []
    case ReportStatus(r, status, _) =>
      if r in w.runs && AutoRetries(w, w.runs[r], status) then [RetryOf(r, w.runs[r])] else []
    case Retry(r) =>
      if r in w.runs && CanRetry(w, w.runs[r]) then [RetryOf(r, w.runs[r])] else []
    case _ => []
  }

  predicate IdsBelow(w: World) {
    (forall r | r in w.runs :: r < w.nextRun) && (forall j | j in w.jobs :: j < w.nextJob)
  }

  /** The run table changes only by deletions, by the moves above on the surviving rows, and by
      appending the births. */
  ghost predicate RunsFollow(w: World, a: Action, w': World) {
    && w'.nextRun == w.nextRun + |Births(w, a)|
    && (forall r :: r in w'.runs <==> (r in w.runs && Survives(w, a, r)) || w.nextRun <= r < w'.nextRun)
    && (forall r | r in w.runs && Survives(w, a, r) ::
          Open(w.runs[r], w.now, MoveOf(w, a, r)) && w'.runs[r] == Moved(w.runs[r], w.now, MoveOf(w, a, r)))
    && (forall r | w.nextRun <= r < w'.nextRun :: w'.runs[r] == Births(w, a)[r - w.nextRun])
  }

  /** A step that only inserts rows. */
  lemma InsertionFollows(w: World, a: Action, w': World)
    requires IdsBelow(w)
    requires w'.runs == AddRuns(w.runs, w.nextRun, Births(w, a)) && w'.nextRun == w.nextRun + |Births(w, a)|
    requires forall r | r in w.runs :: Survives(w, a, r) && MoveOf(w, a, r) == Stay
    ensures RunsFollow(w, a, w')
  {
    hide MoveOf, Births, Survives, Moved, Open, AddRuns;
    StayIsOpen();
    forall r | r in w.runs
      ensures Open(w.runs[r], w.now, MoveOf(w, a, r)) && w'.runs[r] == Moved(w.runs[r], w.now, MoveOf(w, a, r))
    {
      assert r < w.nextRun && MoveOf(w, a, r) == Stay;
    }
  }

  lemma StayIsOpen()
    ensures forall row, now :: Moved(row, now, Stay) == row && Open(row, now, Stay)
  {
  }

  /** A step that changes one row and may insert rows. */
  lemma RowFollows(w: World, a: Action, w': World, r: RunId)
    requires IdsBelow(w) && r in w.runs && Open(w.runs[r], w.now, MoveOf(w, a, r))
    requires w'.runs == AddRuns(w.runs[r := Moved(w.runs[r], w.now, MoveOf(w, a, r))], w.nextRun, Births(w, a))
    requires w'.nextRun == w.nextRun + |Births(w, a)|
    requires forall s | s in w.runs :: Survives(w, a, s) && (s != r ==> MoveOf(w, a, s) == Stay)
    ensures RunsFollow(w, a, w')
  {
    hide MoveOf, Births, Survives, Moved, Open, AddRuns;
    StayIsOpen();
  }

  lemma ClaimsFollow(w: World, a: Action)
    requires IdsBelow(w) && (a.Pull? || a.PullOldest?)
    ensures RunsFollow(w, a, Step(w, a))
  {
    hide Claimed, Blocked, Ready, Completed, Started, Synced, EditAccepted;
    hide RunsFollow, FindNextRunToLock;
    var chosen := if a.Pull? then Choice(w, a.busy) else FindNextRunToLock(w, a.busy, {});
    FoundIsOldest(w, a.busy, if a.Pull? then Blocked(w) else {});
    assert Step(w, a) == Claim(w, chosen, a.worker, a.lockSeconds);
    if chosen.Some? {
      RowFollows(w, a, Step(w, a), chosen.value);
    } else {
      InsertionFollows(w, a, Step(w, a));
    }
  }

  lemma ScanFollows(w: World, order: seq<JobId>)
    requires IdsBelow(w)
    ensures RunsFollow(w, ScanDue(order), Scan(w, order))
  {
    hide Ready, ScheduledRuns, Rescheduled, Computable, ScanRows, RunsFollow;
    InsertionFollows(w, ScanDue(order), Scan(w, order));
  }

  lemma ReportFollows(w: World, a: Action)
    requires IdsBelow(w) && a.ReportStatus?
    ensures RunsFollow(w, a, Step(w, a))
  {
    hide StatusApplied, WithOutput, RetryOf, CanRetry, AutoRetries, RunsFollow;
    if a.r in w.runs {
      RowFollows(w, a, Step(w, a), a.r);
    } else {
      InsertionFollows(w, a, Step(w, a));
    }
  }

  lemma RetryFollows(w: World, a: Action)
    requires IdsBelow(w) && a.Retry?
    ensures RunsFollow(w, a, Step(w, a))
  {
    hide RetryOf, CanRetry, RunsFollow;
    InsertionFollows(w, a, Step(w, a));
  }

  lemma JobActionsFollow(w: World, a: Action)
    requires IdsBelow(w) && (a.Create? || a.Edit? || a.Enable? || a.Depend?)
    ensures RunsFollow(w, a, Step(w, a))
  {
    hide WithDeps, Synced, EditAccepted, DepsAccepted;
    assert Step(w, a).runs == w.runs && Step(w, a).nextRun == w.nextRun;
  }

  lemma RemovalsFollow(w: World, a: Action)
    requires IdsBelow(w) && (a.Tick? || a.Delete? || a.ReleaseLeases? || a.Clear?)
    ensures RunsFollow(w, a, Step(w, a))
  {
    hide Parked, Released, Completed, Started, Choice, FindNextRunToLock, Synced, EditAccepted, Ready;
  }

  lemma TriggersFollow(w: World, a: Action)
    requires IdsBelow(w) && a.TriggerNow?
    ensures RunsFollow(w, a, Step(w, a))
  {
    hide Snapshot, RunsFollow;
    InsertionFollows(w, a, Step(w, a));
  }

  lemma OthersFollow(w: World, a: Action)
    requires IdsBelow(w) && (a.Await? || a.Beat?)
    ensures RunsFollow(w, a, Step(w, a))
  {
    hide Parked, RunsFollow;
    if a.r in w.runs {
      RowFollows(w, a, Step(w, a), a.r);
    } else {
      InsertionFollows(w, a, Step(w, a));
    }
  }

  lemma StepIsScan(w: World, a: Action)
    requires a.ScanDue?
    ensures Step(w, a) == Scan(w, a.order)
  {
  }

  /** This holds of every step, whatever it is. */
  lemma StepRuns(w: World, a: Action)
    requires IdsBelow(w)
    ensures RunsFollow(w, a, Step(w, a))
  {
    hide RunsFollow, Step;
    if a.Pull? || a.PullOldest? {
      ClaimsFollow(w, a);
    } else if a.ScanDue? {
      ScanFollows(w, a.order);
      assert Step(w, a) == Scan(w, a.order) by { StepIsScan(w, a); }
    } else if a.ReportStatus? {
      ReportFollows(w, a);
    } else if a.Retry? {
      RetryFollows(w, a);
    } else if a.Create? || a.Edit? || a.Enable? || a.Depend? {
      JobActionsFollow(w, a);
    } else if a.Tick? || a.Delete? || a.ReleaseLeases? || a.Clear? {
      RemovalsFollow(w, a);
    } else if a.TriggerNow? {
      TriggersFollow(w, a);
    } else {
      OthersFollow(w, a);
    }
  }

  /** The rows a step inserts are pending, untouched, and belong to a job that is still there. */
  lemma BirthsAreFresh(w: World, a: Action, i: nat)
    requires i < |Births(w, a)|
    requires forall r | r in w.runs :: w.runs[r].job in w.jobs
    ensures var b := Births(w, a)[i];
            && b == NewRun(b.job, b.parent, b.trigger, b.retryCount, b.work)
            && b.job in w.jobs && (a.TriggerNow? || a.ScanDue? || a.ReportStatus? || a.Retry?)
            && (b.parent.None? ==> b.retryCount == 0 && b.work == Snapshot(w.jobs[b.job].work))
            && (b.parent.Some? ==>
                  && (a.ReportStatus? || a.Retry?) && a.r == b.parent.value && a.r in w.runs
                  && b == RetryOf(a.r, w.runs[a.r]) && BudgetLeft(w, w.runs[a.r]))
  {
  }

  // ---------------------------------------------------------------- what a step does to one job

  function EditOf(a: Action): JobEdit
    requires a.Edit? || a.Enable?
  {
    if a.Edit? then a.e else Switch(a.on)
  }

  /** A job row is edited, or rescheduled, or else left alone. */
  ghost predicate JobMoved(w: World, a: Action, j: JobId, row: JobRow)
    requires j in w.jobs
  {
    if (a.Edit? || a.Enable?) && a.j == j && EditAccepted(w, j, EditOf(a)) then
      row == EditedJob(w.jobs[j], EditOf(a), EditStatus(w.jobs[j], EditOf(a)).status, w.cron, w.now)
    else if a.ScanDue? && ScanRows(w, a.order) && Computable(w, Ready(w, a.order)) && j in Ready(w, a.order) then
      row == Rescheduled(w, j)
    else
      row == w.jobs[j]
  }

  /** Only a deletion removes a job, and only a creation adds one. */
  ghost predicate JobsFollow(w: World, a: Action, w': World) {
    && (forall j | j in w.jobs ::
          (j in w'.jobs <==> a != Delete(j)) && (j in w'.jobs ==> JobMoved(w, a, j, w'.jobs[j])))
    && (forall j | j !in w.jobs ::
          j in w'.jobs <==> a.Create? && CreateAccepted(w, a.spec) && j == w.nextJob)
    && (a.Create? && CreateAccepted(w, a.spec) ==> w'.jobs[w.nextJob] == CreatedJob(w, a.spec))
    && w'.nextJob == w.nextJob + (if a.Create? && CreateAccepted(w, a.spec) then 1 else 0)
  }

  lemma EditsExisting(w: World)
    ensures forall j, e :: EditAccepted(w, j, e) ==> j in w.jobs
  {
    hide EditedJob, DepsAccepted;
  }

  lemma EditsFollow(w: World, a: Action)
    requires IdsBelow(w) && (a.Create? || a.Edit? || a.Enable?)
    ensures JobsFollow(w, a, Step(w, a))
  {
    hide WithDeps, CreateAccepted, EditAccepted, CreatedJob, EditedJob, Choice, FindNextRunToLock, Ready;
    EditsExisting(w);
  }

  lemma ScanJobsFollow(w: World, a: Action)
    requires IdsBelow(w) && a.ScanDue?
    ensures JobsFollow(w, a, Step(w, a))
  {
    hide Ready, AddRuns, ScheduledRuns;
  }

  lemma OtherJobsFollow(w: World, a: Action)
    requires IdsBelow(w) && !(a.Create? || a.Edit? || a.Enable? || a.ScanDue?)
    ensures JobsFollow(w, a, Step(w, a))
  {
    hide Choice, FindNextRunToLock, StatusApplied, JobMoved;
    assert a.Delete? || (Step(w, a).jobs == w.jobs && Step(w, a).nextJob == w.nextJob);
    forall j | j in w.jobs
      ensures JobMoved(w, a, j, w.jobs[j])
    {
      SameIsMoved(w, a, j);
    }
  }

  lemma SameIsMoved(w: World, a: Action, j: JobId)
    requires j in w.jobs && !a.Edit? && !a.Enable? && !a.ScanDue?
    ensures JobMoved(w, a, j, w.jobs[j])
  {
  }

  lemma StepJobs(w: World, a: Action)
    requires IdsBelow(w)
    ensures JobsFollow(w, a, Step(w, a))
  {
    hide JobsFollow, Step;
    if a.Create? || a.Edit? || a.Enable? {
      EditsFollow(w, a);
    } else if a.ScanDue? {
      ScanJobsFollow(w, a);
    } else {
      OtherJobsFollow(w, a);
    }
  }

  // ---------------------------------------------------------------- what a step does to one edge

  /** The status that edge e requires after the step, None for no edge. */
  function EdgeAfter(w: World, a: Action, e: (JobId, JobId)): Option<RunStatus> {
    var before := if e in w.deps then Some(w.deps[e]) else None;
    match a
    case Create(spec) =>
      if CreateAccepted(w, spec) && e.0 == w.nextJob
      then (if e.1 in CreatedUpstream(w, spec) then Some(Success) else None)
      else before
    case Edit(j, edit) =>
      if EditAccepted(w, j, edit) && edit.dependsOn.Some? && e.0 == j
      then (if e.1 in EditedUpstream(w, j, edit) then Some(Success) else None)
      else before
    case Delete(j) => if j in w.jobs && (e.0 == j || e.1 == j) then None else before
    case Depend(j, u, required) =>
      if e == (j, u) && j in w.jobs && u in w.jobs && j != u then Some(required) else before
    case _ => before
  }

  ghost predicate EdgesFollow(w: World, a: Action, w': World) {
    forall e: (JobId, JobId) ::
      && (e in w'.deps <==> EdgeAfter(w, a, e).Some?)
      && (e in w'.deps ==> EdgeAfter(w, a, e) == Some(w'.deps[e]))
  }

  lemma StepEdges(w: World, a: Action)
    ensures EdgesFollow(w, a, Step(w, a))
  {
    hide CreateAccepted, EditAccepted, EdgesFollow, Step;
    if a.Create? {
      CreateEdges(w, a);
    } else if a.Edit? {
      EditEdges(w, a);
    } else if a.Delete? || a.Depend? {
      DependEdges(w, a);
    } else {
      OthersKeepEdges(w, a);
      SameEdges(w, a, Step(w, a));
    }
  }

  lemma CreateEdges(w: World, a: Action)
    requires a.Create?
    ensures EdgesFollow(w, a, Step(w, a))
  {
    hide CreateAccepted, CreatedJob, WithDeps, Meant;
    if CreateAccepted(w, a.spec) {
      WithDepsEdges(w.deps, w.nextJob, CreatedUpstream(w, a.spec));
    }
  }

  lemma EditEdges(w: World, a: Action)
    requires a.Edit?
    ensures EdgesFollow(w, a, Step(w, a))
  {
    hide EditAccepted, EditedJob, WithDeps, Meant;
    if EditAccepted(w, a.j, a.e) && a.e.dependsOn.Some? {
      WithDepsEdges(w.deps, a.j, EditedUpstream(w, a.j, a.e));
    }
  }

  lemma DependEdges(w: World, a: Action)
    requires a.Delete? || a.Depend?
    ensures EdgesFollow(w, a, Step(w, a))
  {
    hide CreateAccepted, EditAccepted;
  }

  lemma SameEdges(w: World, a: Action, w': World)
    requires !(a.Create? || a.Edit? || a.Delete? || a.Depend?) && w'.deps == w.deps
    ensures EdgesFollow(w, a, w')
  {
    hide CreateAccepted, EditAccepted;
  }

  lemma OthersKeepEdges(w: World, a: Action)
    requires !(a.Create? || a.Edit? || a.Delete? || a.Depend?)
    ensures Step(w, a).deps == w.deps
  {
    hide CreateAccepted, EditAccepted, Choice, FindNextRunToLock, StatusApplied, Ready, AddRuns;
  }

  /** The whole effect of a step on the tables, table by table. */
  ghost predicate Follows(w: World, a: Action, w': World) {
    && RunsFollow(w, a, w')
    && JobsFollow(w, a, w')
    && EdgesFollow(w, a, w')
    && w'.now == w.now + (if a.Tick? then a.d else 0)
    && w'.cron == w.cron && w'.ids == w.ids
  }

  lemma StepFollows(w: World, a: Action)
    requires IdsBelow(w)
    ensures Follows(w, a, Step(w, a))
  {
    hide RunsFollow, JobsFollow, EdgesFollow;
    StepRuns(w, a);
    StepJobs(w, a);
    StepEdges(w, a);
    ClockFollows(w, a);
  }

  lemma ClockFollows(w: World, a: Action)
    ensures Step(w, a).now == w.now + (if a.Tick? then a.d else 0)
    ensures Step(w, a).cron == w.cron && Step(w, a).ids == w.ids
  {
    hide CreateAccepted, EditAccepted, Choice, FindNextRunToLock, StatusApplied, Ready, AddRuns;
  }
}
