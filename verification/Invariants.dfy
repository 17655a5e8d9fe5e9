/** What holds in every reachable state of the tables. */
module Invariants {
  import opened Basics
  import opened Schedule
  import opened Rows
  import opened Operations
  import opened Protocol
  import Durations
  import opened Payloads

  // ---------------------------------------------------------------- runs

  /** The life of a run: where a lock, a worker and the times can be. */
  predicate RunOk(row: RunRow, now: Time) {
    && (row.lockedBy.None? <==> row.lockedUntil.None?)
    && (row.lockedBy.Some? ==>
          (row.status.Running? || row.status.AwaitingResult?) && row.workerId == row.lockedBy && row.endTime.None?)
    && (row.status.Pending? ==> row.lockedBy.None? && row.workerId.None? && row.endTime.None?)
    && (row.status.Terminal() ==> row.lockedBy.None? && row.endTime.Some?)
    && (row.status.Terminal() && row.startTime.Some? ==> row.startTime.value <= row.endTime.value)
    && (row.status.AwaitingResult? ==> row.externalId.Some? && row.externalId.value != "")
    && (row.status.Running? ==> row.startTime.Some?)
    && (row.startTime.Some? ==> row.heartbeatAt.Some? && row.startTime.value <= row.heartbeatAt.value)
    && (row.status.Terminal() ==> row.heartbeatAt.Some? && row.endTime.value <= row.heartbeatAt.value)
    && (row.heartbeatAt.Some? ==> row.heartbeatAt.value <= now)
    && (row.endTime.Some? ==> row.endTime.value <= now)
    && row.work.payload.Some? && row.work.timeoutSeconds > 0
  }

  /** A retry is one attempt deeper than the older run it was made from, under the same job. */
  predicate ParentOk(runs: map<RunId, RunRow>, r: RunId)
    requires r in runs
  {
    match runs[r].parent
    case None => runs[r].retryCount == 0
    case Some(p) =>
      p < r && p in runs && runs[p].job == runs[r].job && runs[r].retryCount == runs[p].retryCount + 1
      && runs[r].work == Stripped(runs[p].work)
  }

  predicate ParentsOk(runs: map<RunId, RunRow>) {
    forall r | r in runs :: ParentOk(runs, r)
  }

  lemma RunOkLater(row: RunRow, now: Time, later: Time)
    requires RunOk(row, now) && now <= later
    ensures RunOk(row, later)
  {
  }

  lemma RowKept(row: RunRow, now: Time, m: Move)
    requires RunOk(row, now) && Open(row, now, m)
    ensures RunOk(Moved(row, now, m), now)
  {
    hide Durations.PyMilliseconds, Durations.PySeconds;
    match m {
      case Update(status, out) =>
      case _ =>
    }
  }

  /** What no move touches. */
  predicate SameOrigin(a: RunRow, b: RunRow) {
    && a.job == b.job && a.parent == b.parent && a.retryCount == b.retryCount
    && a.work == b.work && a.trigger == b.trigger
    && (a.startTime.Some? ==> b.startTime == a.startTime)
  }

  lemma MoveKeepsOrigin(row: RunRow, now: Time, m: Move)
    ensures SameOrigin(row, Moved(row, now, m))
  {
  }

  // ---------------------------------------------------------------- jobs

  /** The next run of a job is what its rule gave at some moment up to now. */
  ghost predicate NextRunAsOf(row: JobRow, cron: Cron, now: Time) {
    exists t :: t <= now && row.nextRunAt == NextRun(cron, row.rule, t)
  }

  /** A job is enabled exactly in two of its statuses; without that, or with a blank or manual rule, it has no
      next run, and otherwise the one that its rule gave at the last computation; an interval rule always
      gives one when it can be read, at least an interval after the last run. */
  ghost predicate JobOk(row: JobRow, cron: Cron, now: Time) {
    && (row.enabled <==> row.status.On())
    && (row.nextRunAt.Some? ==> row.enabled && Scheduled(row.rule))
    && (row.enabled && Scheduled(row.rule) ==> NextRunAsOf(row, cron, now))
    && (row.enabled && Scheduled(row.rule) && RuleInterval(row.rule).Some? ==> row.nextRunAt.Some?)
    && (row.lastRunAt.Some? ==> row.lastRunAt.value <= now)
    && (row.nextRunAt.Some? && row.lastRunAt.Some? && RuleInterval(row.rule).Some? ==>
          row.nextRunAt.value >= row.lastRunAt.value + RuleInterval(row.rule).value * SECOND)
    && row.maxRetry >= 0 && row.work.timeoutSeconds > 0 && row.work.payload.Some?
  }

  lemma NextRunOfRule(cron: Cron, rule: string, base: Time)
    ensures ComputeNextRun(cron, rule, base).Ok? ==> RuleValid(cron, rule)
    ensures RuleInterval(rule).Some? ==>
              ComputeNextRun(cron, rule, base) == Ok(base + RuleInterval(rule).value * SECOND)
  {
  }

  lemma SyncedOk(row: JobRow, cron: Cron, now: Time)
    requires row.lastRunAt.Some? ==> row.lastRunAt.value <= now
    requires Acceptable(row)
    ensures JobOk(Synced(row, cron, now), cron, now)
  {
    hide RuleInterval, RuleValid, ComputeNextRun;
    NextRunOfRule(cron, row.rule, now);
  }

  // ---------------------------------------------------------------- all tables

  predicate EdgesOk(w: World) {
    forall e | e in w.deps :: e.0 in w.jobs && e.1 in w.jobs && e.0 != e.1
  }

  /** `task_name` is unique. */
  predicate NamesUnique(w: World) {
    forall i, j | i in w.jobs && j in w.jobs && i != j :: w.jobs[i].name != w.jobs[j].name
  }

  ghost predicate Inv(w: World) {
    && IdsBelow(w)
    && (forall r | r in w.runs :: w.runs[r].job in w.jobs && RunOk(w.runs[r], w.now))
    && (forall j | j in w.jobs :: JobOk(w.jobs[j], w.cron, w.now))
    && ParentsOk(w.runs)
    && EdgesOk(w)
    && NamesUnique(w)
  }

  lemma InvNames(w: World)
    requires Inv(w)
    ensures IdsBelow(w)
  {
  }

  lemma EditedOk(row: JobRow, e: JobEdit, status: JobStatus, cron: Cron, now: Time)
    requires JobOk(row, cron, now) && e.change.Ok? && Acceptable(EditedJob(row, e, status, cron, now))
    ensures JobOk(EditedJob(row, e, status, cron, now), cron, now)
  {
    hide ResolveScheduleRule, ComputeNextRun, RuleInterval;
    SyncedOk(row.(name := if e.name.Some? then e.name.value else row.name,
                  rule := if e.schedule.Some? then ResolveScheduleRule(e.schedule.value, Some(row.rule)) else row.rule,
                  maxRetry := if e.maxRetry.Some? then e.maxRetry.value else row.maxRetry,
                  work := Payloads.ChangedWork(row.work, e.change.value),
                  status := status),
             cron, now);
  }

  lemma RescheduledOk(w: World, j: JobId)
    requires j in w.jobs && JobOk(w.jobs[j], w.cron, w.now) && Due(w, j)
    requires ComputeNextRun(w.cron, w.jobs[j].rule, w.now).Ok?
    ensures JobOk(Rescheduled(w, j), w.cron, w.now)
  {
    hide ComputeNextRun, RuleInterval, RuleValid;
    NextRunOfRule(w.cron, w.jobs[j].rule, w.now);
    assert Rescheduled(w, j).nextRunAt == NextRun(w.cron, w.jobs[j].rule, w.now);
  }

  lemma JobKept(w: World, a: Action, j: JobId, row: JobRow)
    requires j in w.jobs && JobOk(w.jobs[j], w.cron, w.now) && JobMoved(w, a, j, row)
    ensures JobOk(row, w.cron, w.now)
  {
    hide ResolveScheduleRule, ComputeNextRun, RuleInterval, EditedJob, Rescheduled, Synced;
    if (a.Edit? || a.Enable?) && a.j == j && EditAccepted(w, j, EditOf(a)) {
      EditedOk(w.jobs[j], EditOf(a), EditStatus(w.jobs[j], EditOf(a)).status, w.cron, w.now);
    } else if a.ScanDue? && ScanRows(w, a.order) && Computable(w, Ready(w, a.order)) && j in Ready(w, a.order) {
      RescheduledOk(w, j);
    }
  }

  lemma JobOkLater(row: JobRow, cron: Cron, now: Time, later: Time)
    requires JobOk(row, cron, now) && now <= later
    ensures JobOk(row, cron, later)
  {
    hide RuleInterval;
  }

  lemma JobsKept(w: World, a: Action, w': World, j: JobId)
    requires Inv(w) && Follows(w, a, w') && j in w'.jobs
    ensures j < w'.nextJob && JobOk(w'.jobs[j], w'.cron, w'.now)
  {
    hide RunsFollow, ParentOk, RunOk, JobOk, JobMoved, Synced, EdgesOk, NamesUnique;
    if j in w.jobs {
      JobKept(w, a, j, w'.jobs[j]);
    } else {
      NewJobOk(w, a, w', j);
    }
    JobOkLater(w'.jobs[j], w.cron, w.now, w'.now);
  }

  lemma NewJobOk(w: World, a: Action, w': World, j: JobId)
    requires JobsFollow(w, a, w') && j in w'.jobs && j !in w.jobs
    ensures JobOk(w'.jobs[j], w.cron, w.now)
  {
    hide ResolveScheduleRule, ComputeNextRun, RuleInterval, JobMoved, RuleValid;
    assert a.Create? && CreateAccepted(w, a.spec) && j == w.nextJob;
    SyncedOk(DraftJob(a.spec, Normalized(a.spec.status).status), w.cron, w.now);
  }

  lemma StepOrigin(w: World, a: Action, w': World, r: RunId)
    requires Follows(w, a, w') && r in w.runs && r in w'.runs && IdsBelow(w)
    ensures SameOrigin(w.runs[r], w'.runs[r])
  {
    hide MoveOf, Births, JobMoved, Moved;
    assert Survives(w, a, r);
    MoveKeepsOrigin(w.runs[r], w.now, MoveOf(w, a, r));
  }

  lemma SurvivorKept(w: World, a: Action, w': World, r: RunId)
    requires Inv(w) && Follows(w, a, w') && r in w'.runs && r in w.runs
    ensures r < w'.nextRun && w'.runs[r].job in w'.jobs && RunOk(w'.runs[r], w'.now)
  {
    hide MoveOf, Births, RunOk, Moved, JobOk, JobMoved, ParentOk;
    assert Survives(w, a, r);
    RowKept(w.runs[r], w.now, MoveOf(w, a, r));
    MoveKeepsOrigin(w.runs[r], w.now, MoveOf(w, a, r));
    RunOkLater(w'.runs[r], w.now, w'.now);
  }

  lemma FreshRunOk(job: JobId, parent: Option<RunId>, trigger: Trigger, count: nat, work: Work, now: Time)
    requires work.payload.Some? && work.timeoutSeconds > 0
    ensures RunOk(NewRun(job, parent, trigger, count, work), now)
  {
  }

  /** Both copies of a definition, the job's and the retry's, keep what the table asks of it. */
  lemma CopiesOk(work: Work)
    requires work.payload.Some? && work.timeoutSeconds > 0
    ensures Snapshot(work).payload.Some? && Snapshot(work).timeoutSeconds > 0
    ensures Stripped(work).payload.Some? && Stripped(work).timeoutSeconds > 0
  {
  }

  lemma InsertedWorkOk(w: World, b: RunRow, a: Action)
    requires Inv(w) && b.job in w.jobs
    requires b.parent.None? ==> b.work == Snapshot(w.jobs[b.job].work)
    requires b.parent.Some? ==> b.parent.value in w.runs && b == RetryOf(b.parent.value, w.runs[b.parent.value])
    ensures b.work.payload.Some? && b.work.timeoutSeconds > 0
  {
    hide Snapshot, Stripped, RuleInterval, ParentOk, EdgesOk, NamesUnique;
    CopiesOk(if b.parent.None? then w.jobs[b.job].work else w.runs[b.parent.value].work);
  }

  lemma BirthKept(w: World, a: Action, w': World, r: RunId)
    requires Inv(w) && Follows(w, a, w') && r in w'.runs && r !in w.runs
    ensures r < w'.nextRun && w'.runs[r].job in w'.jobs && RunOk(w'.runs[r], w'.now)
  {
    hide MoveOf, Births, JobMoved, JobOk, RunOk, ParentOk, EdgesOk, NamesUnique, NewRun, RetryOf, Snapshot, EdgesFollow;
    BirthsAreFresh(w, a, r - w.nextRun);
    var b := w'.runs[r];
    assert b == Births(w, a)[r - w.nextRun];
    InsertedWorkOk(w, b, a);
    FreshRunOk(b.job, b.parent, b.trigger, b.retryCount, b.work, w'.now);
  }

  lemma SurvivorParentKept(w: World, a: Action, w': World, r: RunId)
    requires Inv(w) && Follows(w, a, w') && r in w'.runs && r in w.runs
    ensures ParentOk(w'.runs, r)
  {
    hide MoveOf, Births, Moved, RunOk, JobOk, JobsFollow;
    StepOrigin(w, a, w', r);
    assert ParentOk(w.runs, r);
    if w.runs[r].parent.Some? {
      var p := w.runs[r].parent.value;
      assert Survives(w, a, p) && p in w'.runs;
      StepOrigin(w, a, w', p);
    }
  }

  lemma BirthParentKept(w: World, a: Action, w': World, r: RunId)
    requires Inv(w) && Follows(w, a, w') && r in w'.runs && r !in w.runs
    ensures ParentOk(w'.runs, r)
  {
    hide MoveOf, Births, Moved, RunOk, JobOk, JobsFollow;
    BirthsAreFresh(w, a, r - w.nextRun);
    assert w'.runs[r] == Births(w, a)[r - w.nextRun];
    if w'.runs[r].parent.Some? {
      assert Survives(w, a, a.r);
      StepOrigin(w, a, w', a.r);
    }
  }

  lemma EdgesKept(w: World, a: Action)
    requires EdgesOk(w)
    ensures EdgesOk(Step(w, a))
  {
    hide Choice, FindNextRunToLock, StatusApplied, Synced, Rescheduled, AddRuns, ResolveScheduleRule;
  }

  lemma NameAfter(w: World, a: Action, w': World, j: JobId)
    requires JobsFollow(w, a, w') && j in w'.jobs
    ensures w'.jobs[j].name ==
            if j !in w.jobs then (if a.Create? then a.spec.name else w'.jobs[j].name)
            else if a.Edit? && a.j == j && EditAccepted(w, j, a.e) && a.e.name.Some? then a.e.name.value
            else w.jobs[j].name
  {
    hide EditAccepted, ResolveScheduleRule, ComputeNextRun, Ready, Computable, ScanRows, DepsAccepted;
  }

  lemma NamesKept(w: World, a: Action, w': World)
    requires NamesUnique(w) && IdsBelow(w) && JobsFollow(w, a, w')
    ensures NamesUnique(w')
  {
    hide JobMoved, Synced, DepsAccepted, Acceptable;
    forall i, j | i in w'.jobs && j in w'.jobs && i != j
      ensures w'.jobs[i].name != w'.jobs[j].name
    {
      NameAfter(w, a, w', i);
      NameAfter(w, a, w', j);
    }
  }

  lemma InvKept(w: World, a: Action)
    requires Inv(w)
    ensures Inv(Step(w, a))
  {
    hide MoveOf, Births, Step, RunsFollow, RunOk, JobOk, ParentOk;
    var w' := Step(w, a);
    StepFollows(w, a);
    forall j | j in w'.jobs
      ensures j < w'.nextJob && JobOk(w'.jobs[j], w'.cron, w'.now)
    {
      JobsKept(w, a, w', j);
    }
    forall r | r in w'.runs
      ensures r < w'.nextRun && w'.runs[r].job in w'.jobs && RunOk(w'.runs[r], w'.now)
    {
      if r in w.runs {
        SurvivorKept(w, a, w', r);
      } else {
        BirthKept(w, a, w', r);
      }
    }
    forall r | r in w'.runs
      ensures ParentOk(w'.runs, r)
    {
      if r in w.runs {
        SurvivorParentKept(w, a, w', r);
      } else {
        BirthParentKept(w, a, w', r);
      }
    }
    EdgesKept(w, a);
    NamesKept(w, a, w');
  }

  /** In every reachable state a job's name identifies it, wherever a dependency is named; and so does its id,
      unless the id is another job's name. */
  lemma LookupFinds(tr: seq<World>, acts: seq<Action>, n: nat, j: JobId)
    requires History(tr, acts) && n < |tr| && j in tr[n].jobs
    ensures Lookup(TableOf(tr[n]), tr[n].jobs[j].name) == Some(j)
    ensures (forall i, k | i in tr[n].jobs && k in tr[n].jobs && tr[n].ids(i) == tr[n].ids(k) :: i == k) ==>
              (Lookup(TableOf(tr[n]), tr[n].ids(j)) == Some(j) <==>
               forall k | k in tr[n].jobs && k != j :: tr[n].jobs[k].name != tr[n].ids(j))
  {
    hide RunOk, JobOk, ParentOk, Step;
    Always(tr, acts, n);
  }

  // ---------------------------------------------------------------- all histories

  /** Every reachable state of the tables satisfies the invariant. */
  lemma {:induction false} Always(tr: seq<World>, acts: seq<Action>, n: nat)
    requires History(tr, acts) && n < |tr|
    ensures Inv(tr[n])
  {
    if n > 0 {
      Always(tr, acts, n - 1);
      assert StepAt(tr, acts, n - 1);
      InvKept(tr[n - 1], acts[n - 1]);
    }
  }

  ghost predicate FollowsAt(tr: seq<World>, acts: seq<Action>, k: nat)
    requires |tr| == |acts| + 1 && k < |acts|
  {
    Follows(tr[k], acts[k], tr[k + 1])
  }

  ghost predicate InvAt(tr: seq<World>, k: nat)
    requires k < |tr|
  {
    Inv(tr[k])
  }

  /** A history seen through what its steps do to the tables. */
  ghost predicate Trace(tr: seq<World>, acts: seq<Action>) {
    && |tr| == |acts| + 1
    && (forall k | 0 <= k < |tr| :: InvAt(tr, k))
    && (forall k | 0 <= k < |acts| :: FollowsAt(tr, acts, k))
  }

  lemma HistoryTrace(tr: seq<World>, acts: seq<Action>)
    requires History(tr, acts)
    ensures Trace(tr, acts)
  {
    hide Step;
    forall k | 0 <= k < |tr|
      ensures InvAt(tr, k)
    {
      Always(tr, acts, k);
    }
    forall k | 0 <= k < |acts|
      ensures FollowsAt(tr, acts, k)
    {
      Always(tr, acts, k);
      assert StepAt(tr, acts, k);
      StepFollows(tr[k], acts[k]);
    }
  }

  lemma ForwardStep(w: World, a: Action, w': World)
    requires Follows(w, a, w')
    ensures w.now <= w'.now && w.nextRun <= w'.nextRun && w.nextJob <= w'.nextJob && w.cron == w'.cron
  {
    hide MoveOf, Births, JobMoved;
  }

  /** Time never runs backwards, and neither do the counters that name new rows. */
  lemma {:induction false} Forward(tr: seq<World>, acts: seq<Action>, i: nat, j: nat)
    requires Trace(tr, acts) && i <= j < |tr|
    ensures tr[i].now <= tr[j].now && tr[i].nextRun <= tr[j].nextRun && tr[i].nextJob <= tr[j].nextJob
    ensures tr[i].cron == tr[j].cron
  {
    hide MoveOf, Births, JobMoved, Inv;
    if i < j {
      Forward(tr, acts, i, j - 1);
      assert FollowsAt(tr, acts, j - 1);
      ForwardStep(tr[j - 1], acts[j - 1], tr[j]);
    }
  }

  lemma OlderRun(w: World, a: Action, w': World, r: RunId)
    requires Follows(w, a, w') && r in w'.runs && r < w.nextRun
    ensures r in w.runs
  {
    hide MoveOf, Births, JobMoved;
  }

  /** A run that exists late existed all the time since its name was given out: names are never reused. */
  lemma {:induction false} Continuity(tr: seq<World>, acts: seq<Action>, i: nat, j: nat, r: RunId)
    requires Trace(tr, acts) && i <= j < |tr|
    requires r in tr[j].runs && r < tr[i].nextRun
    ensures r in tr[i].runs
  {
    hide Follows, Inv;
    if i < j {
      Forward(tr, acts, i, j - 1);
      assert FollowsAt(tr, acts, j - 1);
      OlderRun(tr[j - 1], acts[j - 1], tr[j], r);
      Continuity(tr, acts, i, j - 1, r);
    }
  }

  lemma OlderJob(w: World, a: Action, w': World, j: JobId)
    requires Follows(w, a, w') && j in w'.jobs && j < w.nextJob
    ensures j in w.jobs
  {
    hide MoveOf, Births, JobMoved, RunsFollow;
  }

  lemma {:induction false} JobContinuity(tr: seq<World>, acts: seq<Action>, i: nat, j: nat, job: JobId)
    requires Trace(tr, acts) && i <= j < |tr|
    requires job in tr[j].jobs && job < tr[i].nextJob
    ensures job in tr[i].jobs
  {
    hide Follows, Inv;
    if i < j {
      Forward(tr, acts, i, j - 1);
      assert FollowsAt(tr, acts, j - 1);
      OlderJob(tr[j - 1], acts[j - 1], tr[j], job);
      JobContinuity(tr, acts, i, j - 1, job);
    }
  }

  /** What a run was created for never changes, and its first start time is final. */
  lemma {:induction false} OriginKept(tr: seq<World>, acts: seq<Action>, i: nat, j: nat, r: RunId)
    requires Trace(tr, acts) && i <= j < |tr|
    requires r in tr[i].runs && r in tr[j].runs
    ensures SameOrigin(tr[i].runs[r], tr[j].runs[r])
  {
    hide Follows;
    if i < j {
      Forward(tr, acts, i, j - 1);
      assert FollowsAt(tr, acts, j - 1) && InvAt(tr, j - 1) && InvAt(tr, i);
      OlderRun(tr[j - 1], acts[j - 1], tr[j], r);
      OriginKept(tr, acts, i, j - 1, r);
      StepOrigin(tr[j - 1], acts[j - 1], tr[j], r);
    }
  }

  // ---------------------------------------------------------------- main results

  /** In every history: the life of a run is consistent in every state, its definition never changes,
      and its first start time is final. */
  lemma RunsAlwaysConsistent(tr: seq<World>, acts: seq<Action>, i: nat, j: nat, r: RunId)
    requires History(tr, acts) && i <= j < |tr|
    requires r in tr[i].runs && r in tr[j].runs
    ensures RunOk(tr[j].runs[r], tr[j].now)
    ensures SameOrigin(tr[i].runs[r], tr[j].runs[r])
  {
    HistoryTrace(tr, acts);
    assert InvAt(tr, j);
    OriginKept(tr, acts, i, j, r);
  }

  /** In every history, every job is enabled, scheduled and spaced as its status and rule say. */
  lemma JobsAlwaysConsistent(tr: seq<World>, acts: seq<Action>, n: nat, j: JobId)
    requires History(tr, acts) && n < |tr| && j in tr[n].jobs
    ensures JobOk(tr[n].jobs[j], tr[n].cron, tr[n].now)
  {
    Always(tr, acts, n);
  }

  /** In every reachable state: a due job has a rule that can be read, so a scan is aborted exactly when the
      rule of some ready job is a cron expression that has no further occurrence. */
  lemma ScanAbortsExactly(tr: seq<World>, acts: seq<Action>, n: nat, order: seq<JobId>)
    requires History(tr, acts) && n < |tr| && ScanRows(tr[n], order)
    ensures !Computable(tr[n], Ready(tr[n], order)) <==>
            exists j :: j in Ready(tr[n], order) && j in tr[n].jobs && Exhausted(tr[n], tr[n].jobs[j].rule)
    ensures Scan(tr[n], order) ==
            if Computable(tr[n], Ready(tr[n], order)) then Enqueued(tr[n], Ready(tr[n], order)) else tr[n]
  {
    hide Step;
    Always(tr, acts, n);
    forall j | j in Ready(tr[n], order)
      ensures j in tr[n].jobs
      ensures ComputeNextRun(tr[n].cron, tr[n].jobs[j].rule, tr[n].now).Err? <==> Exhausted(tr[n], tr[n].jobs[j].rule)
    {
      assert Due(tr[n], j);
      DueRuleIsValid(tr[n], j);
      ValidRuleFails(tr[n], tr[n].jobs[j].rule);
    }
  }

  /** A cron expression with no occurrence after now. */
  predicate Exhausted(w: World, rule: string) {
    !(EVERY <= Strip(rule)) && w.cron.next(Strip(rule), w.now).None?
  }

  lemma DueRuleIsValid(w: World, j: JobId)
    requires Inv(w) && Due(w, j)
    ensures RuleValid(w.cron, w.jobs[j].rule)
  {
    hide RuleValid, RuleInterval, ComputeNextRun, RunOk, ParentOk, EdgesOk, NamesUnique;
    var t :| t <= w.now && w.jobs[j].nextRunAt == NextRun(w.cron, w.jobs[j].rule, t);
    NextRunOfRule(w.cron, w.jobs[j].rule, t);
  }

  lemma ValidRuleFails(w: World, rule: string)
    requires RuleValid(w.cron, rule)
    ensures ComputeNextRun(w.cron, rule, w.now).Err? <==> Exhausted(w, rule)
  {
    hide UnitSeconds, Strip;
  }

  /** Every cron expression always has a next occurrence. */
  ghost predicate Endless(cron: Cron) {
    forall e, t :: cron.valid(e) ==> cron.next(e, t).Some?
  }

  /** So where every cron expression has a next occurrence, no job can abort the scheduler's batch, and every
      enabled job with a readable rule has a next run. */
  lemma ScanNeverAborts(tr: seq<World>, acts: seq<Action>, n: nat, order: seq<JobId>)
    requires History(tr, acts) && n < |tr| && ScanRows(tr[n], order) && Endless(tr[n].cron)
    ensures Computable(tr[n], Ready(tr[n], order))
    ensures Scan(tr[n], order) == Enqueued(tr[n], Ready(tr[n], order))
    ensures forall j | j in tr[n].jobs && Scheduled(tr[n].jobs[j].rule) && RuleValid(tr[n].cron, tr[n].jobs[j].rule) ::
              tr[n].jobs[j].nextRunAt.Some? <==> tr[n].jobs[j].enabled
  {
    hide Step, RuleInterval, UnitSeconds, Strip;
    Always(tr, acts, n);
    forall j | j in Ready(tr[n], order)
      ensures j in tr[n].jobs && ComputeNextRun(tr[n].cron, tr[n].jobs[j].rule, tr[n].now).Ok?
    {
      assert Due(tr[n], j);
      DueRuleIsValid(tr[n], j);
      EndlessRule(tr[n].cron, tr[n].jobs[j].rule, tr[n].now);
    }
    forall j | j in tr[n].jobs && tr[n].jobs[j].enabled && Scheduled(tr[n].jobs[j].rule)
               && RuleValid(tr[n].cron, tr[n].jobs[j].rule)
      ensures tr[n].jobs[j].nextRunAt.Some?
    {
      EnabledIsScheduled(tr[n], j);
    }
  }

  lemma EndlessRule(cron: Cron, rule: string, t: Time)
    requires Endless(cron) && RuleValid(cron, rule)
    ensures ComputeNextRun(cron, rule, t).Ok?
  {
    hide UnitSeconds, Strip;
  }

  lemma EnabledIsScheduled(w: World, j: JobId)
    requires Inv(w) && Endless(w.cron) && j in w.jobs && w.jobs[j].enabled
    requires Scheduled(w.jobs[j].rule) && RuleValid(w.cron, w.jobs[j].rule)
    ensures w.jobs[j].nextRunAt.Some?
  {
    hide RuleValid, RuleInterval, ComputeNextRun, RunOk, ParentOk, EdgesOk, NamesUnique;
    var t :| t <= w.now && w.jobs[j].nextRunAt == NextRun(w.cron, w.jobs[j].rule, t);
    EndlessRule(w.cron, w.jobs[j].rule, t);
  }
}
