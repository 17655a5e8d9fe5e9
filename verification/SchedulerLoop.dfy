/** The scheduler process: a scan and a release of expired leases, round after round. */
module SchedulerLoop {
  import opened Basics
  import opened Schedule
  import opened Rows
  import opened Payloads
  import opened Operations
  import opened Protocol
  import opened Entities
  import opened Promises
  import opened PromisesKept
  import opened Invariants
  import Jobs = JobService
  import Runs = JobRunService

  /** One round. An exception in the scan ends the round before any lease is released. */
  method Round(db: Database, busyJobs: set<JobId>) returns (order: seq<JobId>, failed: bool)
    modifies db
    ensures ScanRows(old(db.tables), order)
    ensures forall j :: j in order <==> Due(old(db.tables), j) && j !in busyJobs
    ensures failed <==> !Computable(old(db.tables), Ready(old(db.tables), order))
    ensures db.tables == RoundOf(old(db.tables), order)
    ensures failed ==> db.tables == old(db.tables)
    ensures old(db.Valid()) && failed ==>
              Scanned(old(db.tables), db.tables, old(db.tables).jobs.Keys - busyJobs, false)
    ensures old(db.Valid()) && !failed ==>
              exists scanned :: Scanned(old(db.tables), scanned, old(db.tables).jobs.Keys - busyJobs, true)
                                && LeasesReleased(scanned, db.tables, true)
  {
    hide Scan, Computable, ReleaseExpired;
    var jobs := new Jobs.Service(db);
    var created;
    order, created := jobs.ScanDueJobs(busyJobs);
    if created.Err? {
      ScanFailed(old(db.tables), order);
      return order, true;
    }
    var runs := new Runs.Service(db);
    var released := runs.ReleaseExpiredLocks();
    return order, false;
  }

  function RoundOf(w: World, order: seq<JobId>): World {
    if Computable(w, Ready(w, order)) then ReleaseExpired(Scan(w, order), true) else w
  }

  lemma ScanFailed(w: World, order: seq<JobId>)
    requires !Computable(w, Ready(w, order))
    ensures Scan(w, order) == w
  {
  }

  /** In every reachable state, a round does anything at all only if no ready job has a cron rule without a
      further occurrence: otherwise no run is created for any job and no lease is released. */
  lemma RoundRunsExactly(tr: seq<World>, acts: seq<Action>, n: nat, order: seq<JobId>)
    requires History(tr, acts) && n < |tr| && ScanRows(tr[n], order)
    ensures RoundOf(tr[n], order) ==
            if exists j :: j in Ready(tr[n], order) && j in tr[n].jobs && Exhausted(tr[n], tr[n].jobs[j].rule)
            then tr[n]
            else Step(Step(tr[n], ScanDue(order)), ReleaseLeases(true))
  {
    hide History, Ready, Exhausted, ReleaseExpired, Scan;
    ScanAbortsExactly(tr, acts, n, order);
  }

  // ---------------------------------------------------------------- a round that stops everything

  /** Two due jobs, the first with the rule e, and no runs. */
  predicate BothDue(w: World, e: string) {
    && w.jobs.Keys == {0, 1} && w.runs == map[] && w.deps == map[] && w.nextRun == 0
    && Due(w, 0) && Due(w, 1) && w.jobs[0].rule == e
  }

  predicate OneDue(w: World, name: string, e: string, at: Time) {
    && w.jobs.Keys == {0} && w.nextJob == 1 && w.runs == map[] && w.deps == map[] && w.nextRun == 0
    && w.jobs[0].enabled && w.jobs[0].status.On() && w.jobs[0].rule == e && w.jobs[0].nextRunAt == Some(at)
    && w.jobs[0].name == name
  }

  function CronSpec(name: string, e: string, q: Request): JobSpec {
    ManualJob(name, 0, q).(schedule := ScheduleFields(Some("cron"), Some(e), None))
  }

  function IntervalSpec(name: string, seconds: nat, q: Request): JobSpec {
    ManualJob(name, 0, q).(schedule := ScheduleFields(Some("interval"), None, Some(seconds)))
  }

  lemma FirstCreated(w: World, name: string, e: string, at: Time, q: Request)
    requires Initial(w) && q.timeoutSeconds > 0 && Scheduled(e) && NextRun(w.cron, e, w.now) == Some(at)
    ensures OneDue(CreateJob(w, CronSpec(name, e, q)), name, e, at)
  {
    hide BuiltPayload, ComputeNextRun, Print;
    assert "cron"[0] == 'c' && MANUAL[0] == 'm' && "interval"[0] == 'i';
  }

  lemma SecondCreated(w: World, first: string, name: string, e: string, seconds: nat, q: Request)
    requires first != name && OneDue(w, first, e, w.now + seconds * SECOND) && q.timeoutSeconds > 0
    ensures var w' := CreateJob(w, IntervalSpec(name, seconds, q));
            && w'.now == w.now && BothDue(w'.(now := w.now + seconds * SECOND), e)
  {
    hide BuiltPayload, ComputeNextRun;
    PrintedInterval(seconds);
    IntervalRoundTrip(w.cron, seconds, None, IntervalSpec(name, seconds, q).schedule, w.now);
    assert "cron"[0] == 'c' && MANUAL[0] == 'm' && "interval"[0] == 'i';
    assert CreateAccepted(w, IntervalSpec(name, seconds, q));
  }

  lemma NoDepsReady(w: World, e: string)
    requires BothDue(w, e) && Exhausted(w, e)
    ensures ScanRows(w, [0, 1]) && Ready(w, [0, 1]) == [0, 1] && !Computable(w, [0, 1])
  {
    hide Strip, UnitSeconds;
    var both: seq<JobId> := [0, 1];
    assert both[..1] == [0] && both[..1][..0] == [];
    assert DepsSatisfied(w, 0) && DepsSatisfied(w, 1);
    assert Ready(w, both[..1]) == [0];
    assert Ready(w, both) == Ready(w, both[..1]) + [1];
    assert ComputeNextRun(w.cron, w.jobs[0].rule, w.now).Err?;
    assert 0 in [0, 1];
  }

  /** For every cron expression that has one more occurrence, and none after it: a history in which a job has
      that rule and another one an interval, both are due and ready, and the scan creates no run for either. */
  lemma ExhaustedCronStopsScan(w0: World, a: string, b: string, e: string, seconds: nat, q: Request)
    returns (tr: seq<World>, acts: seq<Action>)
    requires Initial(w0) && a != b && q.timeoutSeconds > 0 && Scheduled(e) && !(EVERY <= Strip(e))
    requires NextRun(w0.cron, e, w0.now) == Some(w0.now + seconds * SECOND)
    requires w0.cron.next(Strip(e), w0.now + seconds * SECOND).None?
    ensures History(tr, acts) && |acts| == 4 && tr[0] == w0
    ensures acts[3] == ScanDue([0, 1]) && ScanRows(tr[3], [0, 1]) && Ready(tr[3], [0, 1]) == [0, 1]
    ensures tr[4] == tr[3] && tr[4].runs == map[] && RoundOf(tr[3], [0, 1]) == tr[3]
  {
    hide CreateJob, NextRun, Strip, Ready, Computable, ScanRows, ReleaseExpired;
    var first, second := CronSpec(a, e, q), IntervalSpec(b, seconds, q);
    acts := [Create(first), Create(second), Tick(seconds * SECOND), ScanDue([0, 1])];
    var w1 := CreateJob(w0, first);
    FirstCreated(w0, a, e, w0.now + seconds * SECOND, q);
    ClockFollows(w0, Create(first));
    var w2 := CreateJob(w1, second);
    SecondCreated(w1, a, b, e, seconds, q);
    ClockFollows(w1, Create(second));
    var w3 := w2.(now := w2.now + seconds * SECOND);
    NoDepsReady(w3, e);
    tr := [w0, w1, w2, w3, w3];
    assert StepAt(tr, acts, 0) && StepAt(tr, acts, 1) && StepAt(tr, acts, 2) && StepAt(tr, acts, 3);
  }
}
