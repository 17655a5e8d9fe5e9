/** Retries: how deep a chain of attempts can get, when a failure becomes visible to other jobs, how much
    work a set of workers can do, and how many attempts a run with given outcomes takes. */
module Retries {
  import opened Basics
  import opened Schedule
  import opened Rows
  import opened Payloads
  import opened Operations
  import opened Protocol
  import opened Invariants

  // ---------------------------------------------------------------- the retry forest

  /** The number of retries between a run and the first attempt above it. */
  function Depth(runs: map<RunId, RunRow>, r: RunId): nat
    requires ParentsOk(runs) && r in runs
    decreases r
  {
    assert ParentOk(runs, r);
    match runs[r].parent
    case None => 0
    case Some(p) => Depth(runs, p) + 1
  }

  lemma {:induction false} DepthIsRetryCount(runs: map<RunId, RunRow>, r: RunId)
    requires ParentsOk(runs) && r in runs
    ensures Depth(runs, r) == runs[r].retryCount
    decreases r
  {
    assert ParentOk(runs, r);
    if runs[r].parent.Some? {
      DepthIsRetryCount(runs, runs[r].parent.value);
    }
  }

  /** A newly inserted run is within the retry budget its job has at that moment. */
  lemma BirthWithinBudget(w: World, a: Action, w': World, r: RunId)
    requires Inv(w) && Follows(w, a, w') && r in w'.runs && r !in w.runs
    ensures var row := w'.runs[r];
            row.job in w.jobs && row.retryCount <= w.jobs[row.job].maxRetry
  {
    hide MoveOf, Births, JobMoved, RuleInterval, RunOk, ParentOk, EdgesOk, NamesUnique, Moved;
    BirthsAreFresh(w, a, r - w.nextRun);
    assert w'.runs[r] == Births(w, a)[r - w.nextRun];
  }

  lemma {:induction false} DepthWithinBudget(tr: seq<World>, acts: seq<Action>, n: nat, r: RunId) returns (k: nat)
    requires Trace(tr, acts) && Initial(tr[0]) && n < |tr| && r in tr[n].runs
    ensures Inv(tr[n]) && Depth(tr[n].runs, r) == tr[n].runs[r].retryCount
    ensures k <= n && tr[n].runs[r].job in tr[k].jobs
    ensures tr[n].runs[r].retryCount <= tr[k].jobs[tr[n].runs[r].job].maxRetry
  {
    hide Follows, JobOk, RunOk, EdgesOk, NamesUnique;
    assert InvAt(tr, n);
    DepthIsRetryCount(tr[n].runs, r);
    assert n > 0;
    assert FollowsAt(tr, acts, n - 1) && InvAt(tr, n - 1);
    if r in tr[n - 1].runs {
      k := DepthWithinBudget(tr, acts, n - 1, r);
      StepOrigin(tr[n - 1], acts[n - 1], tr[n], r);
    } else {
      k := n - 1;
      BirthWithinBudget(tr[n - 1], acts[n - 1], tr[n], r);
    }
  }

  /** In every history, with any number of manual retries and repeated finishes: the retry count of a run
      is its depth in its retry tree, and at some moment its job allowed that many retries. */
  lemma RetryDepthBounded(tr: seq<World>, acts: seq<Action>, n: nat, r: RunId)
    requires History(tr, acts) && n < |tr| && r in tr[n].runs
    ensures Inv(tr[n]) && Depth(tr[n].runs, r) == tr[n].runs[r].retryCount
    ensures exists k :: 0 <= k <= n && tr[n].runs[r].job in tr[k].jobs
                        && Depth(tr[n].runs, r) <= tr[k].jobs[tr[n].runs[r].job].maxRetry
  {
    hide Follows;
    HistoryTrace(tr, acts);
    var k := DepthWithinBudget(tr, acts, n, r);
  }

  // ---------------------------------------------------------------- failures and who sees them

  predicate IsNewest(w: World, r: RunId) {
    r in w.runs && forall s | s in w.runs && w.runs[s].job == w.runs[r].job :: s <= r
  }

  lemma NewestIsNewest(w: World, r: RunId)
    requires IdsBelow(w) && r in w.runs
    ensures Newest(w, w.runs[r].job) == Some(r) <==> IsNewest(w, r)
  {
  }

  /** The run used up its job's retry budget. */
  predicate Spent(w: World, r: RunId)
    requires r in w.runs
  {
    w.runs[r].job in w.jobs && w.runs[r].retryCount >= w.jobs[w.runs[r].job].maxRetry
  }

  lemma FailingMove(row: RunRow, now: Time, m: Move)
    requires Moved(row, now, m).status.Failing() && !row.status.Failing()
    ensures m.Update? && m.status == Some(Moved(row, now, m).status)
  {
  }

  lemma UpdateMoveIsReport(w: World, a: Action, r: RunId)
    requires r in w.runs && MoveOf(w, a, r).Update?
    ensures a.ReportStatus? && a.r == r && MoveOf(w, a, r).status == a.status
    ensures a.status.Some? && a.status.value.Failing() && BudgetLeft(w, w.runs[r]) ==>
              Births(w, a) == [RetryOf(r, w.runs[r])]
  {
  }

  lemma SiblingsSurvive(w: World, a: Action, w': World, r: RunId, s: RunId)
    requires RunsFollow(w, a, w') && r in w.runs && s in w.runs && w.runs[r].job == w.runs[s].job
    requires r in w'.runs && IdsBelow(w)
    ensures s in w'.runs
  {
    hide MoveOf, Births, Moved;
    assert Survives(w, a, r);
  }

  lemma NewerRetry(w: World, a: Action, w': World, r: RunId)
    requires IdsBelow(w) && RunsFollow(w, a, w') && r in w.runs && r in w'.runs
    requires w'.runs[r].job == w.runs[r].job && Births(w, a) == [RetryOf(r, w.runs[r])]
    ensures !IsNewest(w', r)
  {
    hide MoveOf, Births, Moved;
    assert w.nextRun in w'.runs && w'.runs[w.nextRun] == RetryOf(r, w.runs[r]);
  }

  /** If after a step the newest run of a job has failed, then it was so before, or the step is its
      failure and the budget is spent: otherwise the step would have added a newer run. */
  lemma NewestFailureStep(w: World, a: Action, w': World, r: RunId)
    requires Inv(w) && Follows(w, a, w') && IsNewest(w', r) && w'.runs[r].status.Failing()
    ensures r in w.runs && w.runs[r].job == w'.runs[r].job
    ensures IsNewest(w, r) && (w.runs[r].status.Failing() || Spent(w, r))
  {
    hide MoveOf, Births, Moved, JobsFollow, RunOk, JobOk, ParentOk, EdgesOk, NamesUnique;
    if r !in w.runs {
      BirthsAreFresh(w, a, r - w.nextRun);
      assert false;
    }
    StepOrigin(w, a, w', r);
    forall s | s in w.runs && w.runs[s].job == w.runs[r].job
      ensures s <= r
    {
      SiblingsSurvive(w, a, w', r, s);
      StepOrigin(w, a, w', s);
    }
    if !w.runs[r].status.Failing() {
      assert Survives(w, a, r);
      FailingMove(w.runs[r], w.now, MoveOf(w, a, r));
      UpdateMoveIsReport(w, a, r);
      if BudgetLeft(w, w.runs[r]) {
        NewerRetry(w, a, w', r);
        assert false;
      }
    }
  }

  lemma {:induction false} SpentMoment(tr: seq<World>, acts: seq<Action>, n: nat, r: RunId) returns (k: nat)
    requires Trace(tr, acts) && Initial(tr[0]) && n < |tr|
    requires IsNewest(tr[n], r) && tr[n].runs[r].status.Failing()
    ensures k < n && r in tr[k].runs && Spent(tr[k], r) && tr[k].runs[r].retryCount == tr[n].runs[r].retryCount
    ensures IsNewest(tr[k], r)
  {
    hide Follows, Inv, Spent, IsNewest;
    assert n > 0 && r in tr[n].runs by {
      NewestExists(tr[n], r);
    }
    assert FollowsAt(tr, acts, n - 1) && InvAt(tr, n - 1);
    NewestFailureStep(tr[n - 1], acts[n - 1], tr[n], r);
    InvNames(tr[n - 1]);
    StepOrigin(tr[n - 1], acts[n - 1], tr[n], r);
    if Spent(tr[n - 1], r) {
      k := n - 1;
    } else {
      k := SpentMoment(tr, acts, n - 1, r);
    }
  }

  /** In every history, whatever edits it contains: when the newest run of a job is failed or timed out,
      there was an earlier moment at which the run had used up the retry budget the job then had. */
  lemma FailureWasSpent(tr: seq<World>, acts: seq<Action>, n: nat, r: RunId)
    requires History(tr, acts) && n < |tr|
    requires IsNewest(tr[n], r) && tr[n].runs[r].status.Failing()
    ensures exists k :: 0 <= k < n && r in tr[k].runs && Spent(tr[k], r)
  {
    hide Follows, IsNewest, Spent, Inv;
    HistoryTrace(tr, acts);
    var k := SpentMoment(tr, acts, n, r);
  }

  lemma NewestExists(w: World, r: RunId)
    requires IsNewest(w, r)
    ensures r in w.runs
  {
  }

  /** No dependent job can see a failure that a retry may still repair. */
  predicate NoTransientFailure(w: World) {
    forall r | r in w.runs && IsNewest(w, r) && w.runs[r].status.Failing() :: Spent(w, r)
  }

  /** An accepted edit that raises max_retry above the attempts of a failed newest run. */
  predicate ReopensFailure(w: World, a: Action) {
    && a.Edit? && EditAccepted(w, a.j, a.e) && a.e.maxRetry.Some?
    && exists r :: r in w.runs && IsNewest(w, r) && w.runs[r].job == a.j && w.runs[r].status.Failing()
                   && w.runs[r].retryCount < a.e.maxRetry.value
  }


  /** The retry budget of a job changes only by an accepted edit that names a new one. */
  lemma BudgetOfStep(w: World, a: Action, w': World, j: JobId)
    requires JobsFollow(w, a, w') && j in w.jobs && j in w'.jobs
    ensures w'.jobs[j].maxRetry ==
            if a.Edit? && a.j == j && EditAccepted(w, j, a.e) && a.e.maxRetry.Some? then a.e.maxRetry.value
            else w.jobs[j].maxRetry
  {
    hide EditAccepted, ResolveScheduleRule, ComputeNextRun, Ready, Computable, ScanRows;
  }

  lemma EditLeavesRuns(w: World, a: Action)
    requires a.Edit?
    ensures Step(w, a).runs == w.runs
  {
  }

  lemma TransientStays(w: World, a: Action, w': World, r: RunId)
    requires Inv(w) && Follows(w, a, w') && Inv(w') && NoTransientFailure(w) && !ReopensFailure(w, a)
    requires IsNewest(w', r) && w'.runs[r].status.Failing() && (a.Edit? ==> w'.runs == w.runs)
    ensures Spent(w', r)
  {
    hide MoveOf, Births, Moved, JobsFollow, RunsFollow, RunOk, JobOk, ParentOk, EdgesOk, NamesUnique;
    hide EditAccepted, IsNewest;
    NewestFailureStep(w, a, w', r);
    NewestExists(w, r);
    NewestExists(w', r);
    StepOrigin(w, a, w', r);
    BudgetOfStep(w, a, w', w.runs[r].job);
    assert Spent(w, r);
  }

  /** The exact condition: from a state without visible transient failures, a step leads to such a state
      if and only if it is not an edit that reopens a failure. */
  lemma TransientFailureExactly(w: World, a: Action)
    requires Inv(w) && NoTransientFailure(w)
    ensures NoTransientFailure(Step(w, a)) <==> !ReopensFailure(w, a)
  {
    hide Follows, Step, Inv, IsNewest, EditAccepted;
    var w' := Step(w, a);
    InvNames(w);
    StepFollows(w, a);
    InvKept(w, a);
    if a.Edit? {
      EditLeavesRuns(w, a);
    }
    if ReopensFailure(w, a) {
      var r :| r in w.runs && IsNewest(w, r) && w.runs[r].job == a.j && w.runs[r].status.Failing()
               && w.runs[r].retryCount < a.e.maxRetry.value;
      SameNewest(w, w', r);
      assert Spent(w, r);
      ReopenedIsUnspent(w, a, r);
    } else {
      forall r | r in w'.runs && IsNewest(w', r) && w'.runs[r].status.Failing()
        ensures Spent(w', r)
      {
        TransientStays(w, a, w', r);
      }
    }
  }

  lemma SameNewest(w: World, w': World, r: RunId)
    requires w.runs == w'.runs
    ensures IsNewest(w, r) <==> IsNewest(w', r)
  {
  }

  lemma ReopenedIsUnspent(w: World, a: Action, r: RunId)
    requires Inv(w) && a.Edit? && EditAccepted(w, a.j, a.e) && a.e.maxRetry.Some?
    requires r in w.runs && w.runs[r].job == a.j && w.runs[r].retryCount < a.e.maxRetry.value
    ensures r in Step(w, a).runs && !Spent(Step(w, a), r)
  {
    hide Follows, Step, Inv, EditAccepted;
    EditLeavesRuns(w, a);
    InvNames(w);
    StepJobs(w, a);
    if a.j in Step(w, a).jobs {
      BudgetOfStep(w, a, Step(w, a), a.j);
    }
  }

  /** In every history without such an edit: a dependency that waits for a failure is met only by a run
      whose budget is spent. */
  lemma {:induction false} FailureDependencyIsFinal(tr: seq<World>, acts: seq<Action>, n: nat)
    requires History(tr, acts) && n < |tr|
    requires forall k | 0 <= k < n :: !ReopensFailure(tr[k], acts[k])
    ensures NoTransientFailure(tr[n])
    ensures forall e | e in tr[n].deps && tr[n].deps[e].Failing() && EdgeMet(tr[n], e.1, tr[n].deps[e]) ::
              Spent(tr[n], Newest(tr[n], e.1).value)
  {
    hide Step, Inv, ReopensFailure, Spent;
    if n > 0 {
      FailureDependencyIsFinal(tr, acts, n - 1);
      Always(tr, acts, n - 1);
      assert StepAt(tr, acts, n - 1);
      TransientFailureExactly(tr[n - 1], acts[n - 1]);
    }
    Always(tr, acts, n);
    InvNames(tr[n]);
    forall e | e in tr[n].deps && tr[n].deps[e].Failing() && EdgeMet(tr[n], e.1, tr[n].deps[e])
      ensures Spent(tr[n], Newest(tr[n], e.1).value)
    {
      NewestIsNewest(tr[n], Newest(tr[n], e.1).value);
    }
  }

  /** The condition is needed: a job created with no retries, whose only run failed, and whose max_retry
      is then raised to one, shows its dependents a failure that can still be retried. */
  lemma RaisedBudgetShowsFailure(w0: World, name: string, request: Request)
    returns (tr: seq<World>, acts: seq<Action>)
    requires Initial(w0) && request.timeoutSeconds > 0
    ensures History(tr, acts) && !NoTransientFailure(tr[|acts|])
  {
    hide CreateJob, TriggerJob, UpdateStatus, EditJob, Alone, NoTransientFailure;
    var spec := ManualJob(name, 0, request);
    var raise := NO_EDIT.(maxRetry := Some(1));
    acts := [Create(spec), TriggerNow(0, ByHand), ReportStatus(0, Some(Failed), Output(None, None, None)),
             Edit(0, raise)];
    var w1 := CreateJob(w0, spec);
    CreatedAlone(w0, spec);
    var w2 := TriggerJob(w1, 0, ByHand);
    var w3 := UpdateStatus(w2, 0, Some(Failed), acts[2].out);
    FailedAlone(w1, w2, w3, acts[2].out);
    var w4 := EditJob(w3, 0, raise);
    RaisedAlone(w3, raise);
    tr := [w0, w1, w2, w3, w4];
    assert StepAt(tr, acts, 0) && StepAt(tr, acts, 1) && StepAt(tr, acts, 2) && StepAt(tr, acts, 3);
  }

  /** The one job in the tables, and how many retries it has. */
  predicate Alone(w: World, maxRetry: int) {
    0 in w.jobs && w.jobs[0].maxRetry == maxRetry && w.jobs[0].work.timeoutSeconds > 0
  }

  lemma CreatedAlone(w: World, spec: JobSpec)
    requires Initial(w) && spec.request.Ok? && spec == ManualJob(spec.name, 0, spec.request.value)
    requires spec.request.value.timeoutSeconds > 0
    ensures Alone(CreateJob(w, spec), 0)
    ensures CreateJob(w, spec).runs == map[] && CreateJob(w, spec).nextRun == 0
  {
  }

  lemma FailedAlone(w1: World, w2: World, w3: World, out: Output)
    requires Alone(w1, 0) && w1.runs == map[] && w1.nextRun == 0
    requires w2 == TriggerJob(w1, 0, ByHand) && w3 == UpdateStatus(w2, 0, Some(Failed), out)
    ensures Alone(w3, 0) && w3.runs.Keys == {0}
    ensures w3.runs[0].job == 0 && w3.runs[0].retryCount == 0 && w3.runs[0].status.Failed?
  {
  }

  lemma RaisedAlone(w: World, e: JobEdit)
    requires Alone(w, 0) && w.runs.Keys == {0}
    requires w.runs[0].job == 0 && w.runs[0].retryCount == 0 && w.runs[0].status.Failed?
    requires e == NO_EDIT.(maxRetry := Some(1))
    ensures !NoTransientFailure(EditJob(w, 0, e))
  {
    var w' := EditJob(w, 0, e);
    assert w'.runs == w.runs && w'.jobs[0].maxRetry == 1;
    assert IsNewest(w', 0) && !Spent(w', 0);
  }
}
