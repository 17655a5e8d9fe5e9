/** The scheduler: what one scan creates, in whatever order it meets the due jobs, and how often over time. */
module Scheduling {
  import opened Basics
  import opened Schedule
  import opened Rows
  import opened Operations
  import opened Protocol
  import opened Invariants
  import opened Leases
  import Durations

  // ---------------------------------------------------------------- one scan

  /** The run rows that a scan adds for job j. */
  function NewRunsOf(w: World, w': World, j: JobId): set<RunId> {
    set r | r in w'.runs && r !in w.runs && w'.runs[r].job == j
  }

  /** One scan creates exactly one run for exactly the jobs it met whose dependencies held before the
      scan, each a copy of the job as it was before the scan, and reschedules exactly those. */
  lemma ScanCreatesOnePerReadyJob(w: World, order: seq<JobId>, j: JobId)
    requires IdsBelow(w) && ScanRows(w, order) && Computable(w, Ready(w, order)) && j in w.jobs
    ensures j in order && DepsSatisfied(w, j) ==>
              && (exists r :: NewRunsOf(w, Scan(w, order), j) == {r} && Scan(w, order).runs[r] == ScheduledRun(w, j))
              && Scan(w, order).jobs[j] == Rescheduled(w, j)
    ensures !(j in order && DepsSatisfied(w, j)) ==>
              NewRunsOf(w, Scan(w, order), j) == {} && Scan(w, order).jobs[j] == w.jobs[j]
  {
    hide DepsSatisfied, Rescheduled, ScheduledRun, ScheduledRuns, NewRunsOf;
    var q, w' := Ready(w, order), Scan(w, order);
    assert w'.runs == AddRuns(w.runs, w.nextRun, ScheduledRuns(w, q));
    if j in q {
      var i :| 0 <= i < |q| && q[i] == j;
      OnlyNewRun(w, w', q, i);
    } else {
      NoNewRun(w, w', q, j);
    }
  }

  lemma ScheduledAt(w: World, q: seq<JobId>, i: nat)
    requires i < |q| && forall j | j in q :: j in w.jobs
    ensures ScheduledRuns(w, q)[i] == ScheduledRun(w, q[i]) && ScheduledRun(w, q[i]).job == q[i]
  {
  }

  lemma NewRunJob(w: World, w': World, q: seq<JobId>, r: RunId)
    requires forall j | j in q :: j in w.jobs
    requires w'.runs == AddRuns(w.runs, w.nextRun, ScheduledRuns(w, q)) && w.nextRun <= r < w.nextRun + |q|
    ensures r in w'.runs && w'.runs[r] == ScheduledRun(w, q[r - w.nextRun]) && w'.runs[r].job == q[r - w.nextRun]
  {
    hide ScheduledRuns, ScheduledRun;
    ScheduledAt(w, q, r - w.nextRun);
  }

  lemma NoNewRun(w: World, w': World, q: seq<JobId>, j: JobId)
    requires (forall j | j in q :: j in w.jobs) && j !in q
    requires w'.runs == AddRuns(w.runs, w.nextRun, ScheduledRuns(w, q))
    ensures NewRunsOf(w, w', j) == {}
  {
    hide ScheduledRuns, ScheduledRun;
    forall r | r in w'.runs && r !in w.runs
      ensures w'.runs[r].job != j
    {
      NewRunJob(w, w', q, r);
    }
  }

  lemma OnlyNewRun(w: World, w': World, q: seq<JobId>, i: nat)
    requires IdsBelow(w) && NoDuplicates(q) && i < |q| && (forall j | j in q :: j in w.jobs)
    requires w'.runs == AddRuns(w.runs, w.nextRun, ScheduledRuns(w, q))
    ensures NewRunsOf(w, w', q[i]) == {w.nextRun + i}
    ensures w.nextRun + i in w'.runs && w'.runs[w.nextRun + i] == ScheduledRun(w, q[i])
  {
    hide ScheduledRuns, ScheduledRun;
    forall r | r in w'.runs && r !in w.runs
      ensures w'.runs[r].job == q[i] <==> r == w.nextRun + i
    {
      NewRunJob(w, w', q, r);
    }
    NewRunJob(w, w', q, w.nextRun + i);
  }

  lemma {:induction false} SameElementsSameLength(p: seq<JobId>, q: seq<JobId>)
    requires NoDuplicates(p) && NoDuplicates(q) && (forall j :: j in p <==> j in q)
    ensures |p| == |q|
  {
    var s := set j | j in p;
    EnumerationSize(p, s);
    EnumerationSize(q, s);
  }

  /** What those rows hold. */
  function NewRowsOf(w: World, w': World, j: JobId): set<RunRow> {
    set r | r in NewRunsOf(w, w', j) :: w'.runs[r]
  }

  lemma SameNewRows(w: World, p: seq<JobId>, q: seq<JobId>, j: JobId)
    requires IdsBelow(w) && ScanRows(w, p) && ScanRows(w, q) && (j in p <==> j in q) && j in w.jobs
    requires Computable(w, Ready(w, p)) && Computable(w, Ready(w, q))
    ensures NewRowsOf(w, Scan(w, p), j) == NewRowsOf(w, Scan(w, q), j)
    ensures |NewRunsOf(w, Scan(w, p), j)| == |NewRunsOf(w, Scan(w, q), j)|
  {
    hide Rescheduled, DepsSatisfied, ScheduledRun, NewRunsOf, Scan, ScanRows, Computable, Ready;
    ScanCreatesOnePerReadyJob(w, p, j);
    ScanCreatesOnePerReadyJob(w, q, j);
  }

  /** The order in which a scan meets the due jobs does not matter: both orders are accepted alike, give
      every job the same row, and create the same number of runs, for each job the same ones. */
  lemma ScanOrderIrrelevant(w: World, p: seq<JobId>, q: seq<JobId>)
    requires IdsBelow(w) && ScanRows(w, p) && ScanRows(w, q) && (forall j :: j in p <==> j in q)
    ensures Scan(w, p).jobs == Scan(w, q).jobs && Scan(w, p).nextRun == Scan(w, q).nextRun
    ensures forall j | j in w.jobs && Computable(w, Ready(w, p)) ::
              && NewRowsOf(w, Scan(w, p), j) == NewRowsOf(w, Scan(w, q), j)
              && |NewRunsOf(w, Scan(w, p), j)| == |NewRunsOf(w, Scan(w, q), j)|
  {
    hide Rescheduled, DepsSatisfied, ScheduledRun, ScheduledRuns, NewRunsOf, NewRowsOf;
    assert forall j :: j in Ready(w, p) <==> j in Ready(w, q);
    SameElementsSameLength(Ready(w, p), Ready(w, q));
    assert Computable(w, Ready(w, p)) <==> Computable(w, Ready(w, q));
    if Computable(w, Ready(w, p)) {
      forall j | j in w.jobs
        ensures NewRowsOf(w, Scan(w, p), j) == NewRowsOf(w, Scan(w, q), j)
        ensures |NewRunsOf(w, Scan(w, p), j)| == |NewRunsOf(w, Scan(w, q), j)|
      {
        SameNewRows(w, p, q, j);
      }
    }
  }

  // ---------------------------------------------------------------- the rate over time

  /** This step is a scan that creates a run of job j. */
  predicate Schedules(w: World, a: Action, j: JobId) {
    a.ScanDue? && ScanRows(w, a.order) && Computable(w, Ready(w, a.order)) && j in Ready(w, a.order)
  }

  ghost function ScheduledRunsBetween(tr: seq<World>, acts: seq<Action>, j: JobId, i: nat, n: nat): nat
    requires i <= n < |tr| == |acts| + 1
  {
    if i == n then 0 else ScheduledRunsBetween(tr, acts, j, i, n - 1) + Count(Schedules(tr[n - 1], acts[n - 1], j))
  }

  /** The rule of job j asks for at least d microseconds between runs. */
  predicate IntervalAtLeast(w: World, j: JobId, d: Time) {
    j in w.jobs && RuleInterval(w.jobs[j].rule).Some? && RuleInterval(w.jobs[j].rule).value * SECOND >= d
  }

  lemma ScheduleStep(w: World, a: Action, w': World, j: JobId, d: Time)
    requires Inv(w) && Follows(w, a, w') && j in w.jobs && j in w'.jobs
    ensures !Schedules(w, a, j) ==> w'.jobs[j].lastRunAt == w.jobs[j].lastRunAt
    ensures Schedules(w, a, j) ==> w'.jobs[j].lastRunAt == Some(w.now)
    ensures Schedules(w, a, j) && w.jobs[j].lastRunAt.Some? && IntervalAtLeast(w, j, d) ==>
              w.now >= w.jobs[j].lastRunAt.value + d
  {
    hide RunsFollow, RunOk, ParentOk, EdgesOk, NamesUnique, RuleInterval, EditAccepted;
    hide ResolveScheduleRule, ComputeNextRun;
    ScheduledRow(w, a, w', j);
    assert JobOk(w.jobs[j], w.cron, w.now);
  }

  lemma ScheduledRow(w: World, a: Action, w': World, j: JobId)
    requires IdsBelow(w) && JobsFollow(w, a, w') && j in w.jobs && j in w'.jobs
    ensures !Schedules(w, a, j) ==> w'.jobs[j].lastRunAt == w.jobs[j].lastRunAt
  {
    hide RuleInterval, EditAccepted, ResolveScheduleRule, ComputeNextRun, Ready;
  }

  /** c runs of job j were scheduled since t0, the last one now or earlier, none closer than d. */
  predicate Spaced(w: World, j: JobId, d: Time, t0: Time, c: nat) {
    c > 0 ==> && j in w.jobs && w.jobs[j].lastRunAt.Some?
              && t0 + d * (c - 1) <= w.jobs[j].lastRunAt.value <= w.now
  }

  lemma SpacedKept(w: World, a: Action, w': World, j: JobId, d: Time, t0: Time, c: nat)
    requires Inv(w) && Follows(w, a, w') && t0 <= w.now
    requires Spaced(w, j, d, t0, c) && IntervalAtLeast(w, j, d) && IntervalAtLeast(w', j, d)
    ensures Spaced(w', j, d, t0, c + Count(Schedules(w, a, j)))
  {
    hide RunsFollow, JobsFollow, JobOk, RunOk, ParentOk, EdgesOk, NamesUnique, Schedules, RuleInterval;
    ScheduleStep(w, a, w', j, d);
    ForwardStep(w, a, w');
    assert d * c == d * (c - 1) + d;
  }

  lemma {:induction false} SpacedRuns(tr: seq<World>, acts: seq<Action>, j: JobId, d: Time, i: nat, n: nat)
    requires Trace(tr, acts) && i <= n < |tr|
    requires forall k | i <= k <= n :: IntervalAtLeast(tr[k], j, d)
    ensures Spaced(tr[n], j, d, tr[i].now, ScheduledRunsBetween(tr, acts, j, i, n))
  {
    hide Follows, Inv, Schedules, IntervalAtLeast;
    if i < n {
      SpacedRuns(tr, acts, j, d, i, n - 1);
      Forward(tr, acts, i, n - 1);
      assert FollowsAt(tr, acts, n - 1) && InvAt(tr, n - 1);
      SpacedKept(tr[n - 1], acts[n - 1], tr[n], j, d, tr[i].now, ScheduledRunsBetween(tr, acts, j, i, n - 1));
    }
  }

  /** In every history: while the rule of a job keeps asking for at least d between runs, whatever else is
      edited, enabled or triggered by hand, scans between two moments create at most (elapsed / d) + 1 runs. */
  lemma ScheduleRateBounded(tr: seq<World>, acts: seq<Action>, j: JobId, d: Time, i: nat, n: nat)
    requires History(tr, acts) && i <= n < |tr| && d > 0
    requires forall k | i <= k <= n :: IntervalAtLeast(tr[k], j, d)
    ensures ScheduledRunsBetween(tr, acts, j, i, n) <= (tr[n].now - tr[i].now) / d + 1
  {
    hide Follows, Inv, Schedules, Step, IntervalAtLeast;
    HistoryTrace(tr, acts);
    SpacedRuns(tr, acts, j, d, i, n);
    Forward(tr, acts, i, n);
    AtMostQuotient(tr[n].now - tr[i].now, d, ScheduledRunsBetween(tr, acts, j, i, n) - 1);
  }

  lemma AtMostQuotient(span: int, d: int, m: int)
    requires d > 0 && span >= 0
    ensures d * m <= span ==> m <= span / d
  {
    Durations.ScaleMonotone(d, span / d + 1, m);
    assert span == d * (span / d) + span % d;
  }
}
