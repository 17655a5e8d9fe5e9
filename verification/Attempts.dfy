/** How much a set of workers can do, and exactly how many attempts a run with given outcomes takes. */
module Attempts {
  import opened Basics
  import opened Rows
  import opened Operations
  import opened Protocol
  import opened Invariants
  import opened Retries
  import opened Leases

  // ---------------------------------------------------------------- termination

  /** Claims, parkings and finishes that are still possible for a run, its own retries included. */
  function Weight(jobs: map<JobId, JobRow>, row: RunRow): nat {
    var left := if row.job in jobs && row.retryCount < jobs[row.job].maxRetry
                then jobs[row.job].maxRetry - row.retryCount else 0;
    match row.status
    case Pending => 3 * left + 3
    case Running => 3 * left + 2
    case AwaitingResult => 3 * left + 1
    case _ => 0
  }

  function Load(jobs: map<JobId, JobRow>, runs: map<RunId, RunRow>, below: RunId): nat {
    if below == 0 then 0
    else Load(jobs, runs, below - 1) + if below - 1 in runs then Weight(jobs, runs[below - 1]) else 0
  }

  function Measure(w: World): nat {
    Load(w.jobs, w.runs, w.nextRun)
  }

  /** A worker or the poller gets something done: a run is claimed, parked, or finished. */
  predicate Progress(w: World, a: Action) {
    || (exists r | r in w.runs :: Grants(w, a, r))
    || (a.Await? && a.r in w.runs && w.runs[a.r].status.Running? && a.externalId != "")
    || (a.ReportStatus? && a.r in w.runs && w.runs[a.r].status.Live() && a.status.Some? && a.status.value.Terminal())
  }

  /** Time passes, a worker shows that it is alive, or it asks for work and gets none. */
  predicate Quiet(w: World, a: Action) {
    a.Tick? || a.Beat? || ((a.Pull? || a.PullOldest?) && forall r | r in w.runs :: !Grants(w, a, r))
  }

  lemma {:induction false} LoadUpdate(jobs: map<JobId, JobRow>, runs: map<RunId, RunRow>, below: RunId,
                                        r: RunId, row: RunRow)
    requires r in runs
    ensures Load(jobs, runs[r := row], below) ==
            Load(jobs, runs, below) + (if r < below then Weight(jobs, row) - Weight(jobs, runs[r]) else 0)
  {
    hide Weight;
    if below > 0 {
      LoadUpdate(jobs, runs, below - 1, r, row);
    }
  }

  lemma {:induction false} LoadAbove(jobs: map<JobId, JobRow>, runs: map<RunId, RunRow>, below: RunId,
                                        r: RunId, row: RunRow)
    requires below <= r
    ensures Load(jobs, runs[r := row], below) == Load(jobs, runs, below)
  {
    hide Weight;
    if below > 0 {
      LoadAbove(jobs, runs, below - 1, r, row);
    }
  }

  lemma SetRunMeasure(w: World, r: RunId, row: RunRow)
    requires r in w.runs && r < w.nextRun
    ensures Measure(SetRun(w, r, row)) == Measure(w) + Weight(w.jobs, row) - Weight(w.jobs, w.runs[r])
  {
    hide Weight;
    LoadUpdate(w.jobs, w.runs, w.nextRun, r, row);
  }

  lemma AddRunMeasure(w: World, row: RunRow)
    ensures Measure(AddRun(w, row)) == Measure(w) + Weight(w.jobs, row)
  {
    hide Weight;
    LoadAbove(w.jobs, w.runs, w.nextRun, w.nextRun, row);
  }

  lemma GrantIsClaim(w: World, a: Action, r: RunId)
    requires Grants(w, a, r)
    ensures (a.Pull? || a.PullOldest?) && w.runs[r].status.Pending?
    ensures Step(w, a) == SetRun(w, r, Claimed(w.runs[r], a.worker, a.lockSeconds, w.now))
  {
    hide Claimed;
  }

  lemma FinishMeasure(w: World, a: Action)
    requires IdsBelow(w) && a.ReportStatus? && a.r in w.runs && w.runs[a.r].status.Live()
    requires a.status.Some? && a.status.value.Terminal()
    ensures Measure(Step(w, a)) < Measure(w)
  {
    hide Measure, Completed;
    var row := w.runs[a.r];
    var row' := WithOutput(StatusApplied(row, a.status, w.now), a.out);
    assert row'.status.Terminal() by { CompletedStatus(row.(status := a.status.value), w.now); }
    SetRunMeasure(w, a.r, row');
    AddRunMeasure(SetRun(w, a.r, row'), RetryOf(a.r, row));
  }

  lemma CompletedStatus(row: RunRow, now: Time)
    ensures Completed(row, now).status == row.status
  {
  }

  /** Every such step brings the workers strictly nearer to an empty queue, also a failure that adds a retry. */
  lemma ProgressDecreases(w: World, a: Action)
    requires IdsBelow(w) && Progress(w, a)
    ensures Measure(Step(w, a)) < Measure(w)
  {
    hide Measure, MoveOf, Step;
    if exists r | r in w.runs :: Grants(w, a, r) {
      var r :| r in w.runs && Grants(w, a, r);
      GrantIsClaim(w, a, r);
      SetRunMeasure(w, r, Claimed(w.runs[r], a.worker, a.lockSeconds, w.now));
    } else if a.Await? {
      SetRunMeasure(w, a.r, Parked(w.runs[a.r], a.externalId, a.stdout));
      assert Step(w, a) == Park(w, a.r, a.externalId, a.stdout) by { StepIsPark(w, a); }
    } else {
      FinishMeasure(w, a);
    }
  }

  lemma StepIsPark(w: World, a: Action)
    requires a.Await?
    ensures Step(w, a) == Park(w, a.r, a.externalId, a.stdout)
  {
  }

  lemma QuietKeeps(w: World, a: Action)
    requires IdsBelow(w) && Quiet(w, a)
    ensures Measure(Step(w, a)) == Measure(w)
  {
    hide Measure, Weight;
    if a.Beat? && a.r in w.runs {
      SetRunMeasure(w, a.r, w.runs[a.r].(heartbeatAt := Some(w.now)));
      SameWeight(w.jobs, w.runs[a.r], w.runs[a.r].(heartbeatAt := Some(w.now)));
    } else {
      assert Step(w, a).jobs == w.jobs && Step(w, a).runs == w.runs && Step(w, a).nextRun == w.nextRun;
      SameTables(w, Step(w, a));
    }
  }

  lemma SameTables(w: World, w': World)
    requires w.jobs == w'.jobs && w.runs == w'.runs && w.nextRun == w'.nextRun
    ensures Measure(w) == Measure(w')
  {
  }

  lemma SameWeight(jobs: map<JobId, JobRow>, a: RunRow, b: RunRow)
    requires a.job == b.job && a.retryCount == b.retryCount && a.status == b.status
    ensures Weight(jobs, a) == Weight(jobs, b)
  {
  }

  ghost function ProgressSteps(tr: seq<World>, acts: seq<Action>, i: nat, j: nat): nat
    requires i <= j < |tr| == |acts| + 1
  {
    if i == j then 0 else ProgressSteps(tr, acts, i, j - 1) + Count(Progress(tr[j - 1], acts[j - 1]))
  }

  /** In any history, over any stretch with only worker steps, the number of claims, parkings and finishes
      is at most the measure at the start of the stretch: the queue drains whatever the outcomes are. */
  lemma {:induction false} WorkIsBounded(tr: seq<World>, acts: seq<Action>, i: nat, j: nat)
    requires History(tr, acts) && i <= j < |tr|
    requires forall k | i <= k < j :: Progress(tr[k], acts[k]) || Quiet(tr[k], acts[k])
    ensures ProgressSteps(tr, acts, i, j) + Measure(tr[j]) <= Measure(tr[i])
  {
    hide Measure, Progress, Quiet, Step, Inv;
    if i < j {
      WorkIsBounded(tr, acts, i, j - 1);
      Always(tr, acts, j - 1);
      InvNames(tr[j - 1]);
      assert StepAt(tr, acts, j - 1);
      if Progress(tr[j - 1], acts[j - 1]) {
        ProgressDecreases(tr[j - 1], acts[j - 1]);
      } else {
        QuietKeeps(tr[j - 1], acts[j - 1]);
      }
    }
  }

  // ---------------------------------------------------------------- the exact number of attempts

  /** r is `root` or was retried, directly or not, from it. */
  predicate InTree(runs: map<RunId, RunRow>, r: RunId, root: RunId)
    decreases r
  {
    r == root ||
    (r in runs && runs[r].parent.Some? && runs[r].parent.value < r && InTree(runs, runs[r].parent.value, root))
  }

  lemma {:induction false} InTreeKept(runs: map<RunId, RunRow>, runs': map<RunId, RunRow>, r: RunId, root: RunId)
    requires ParentsOk(runs) && ParentsOk(runs') && r in runs && r in runs'
    requires forall s | s in runs && s in runs' :: SameOrigin(runs[s], runs'[s])
    ensures InTree(runs, r, root) == InTree(runs', r, root)
    decreases r
  {
    assert ParentOk(runs, r) && ParentOk(runs', r) && SameOrigin(runs[r], runs'[r]);
    if runs[r].parent.Some? {
      InTreeKept(runs, runs', runs[r].parent.value, root);
    }
  }

  lemma {:induction false} TreeSameJob(runs: map<RunId, RunRow>, r: RunId, root: RunId)
    requires ParentsOk(runs) && r in runs && root in runs && InTree(runs, r, root)
    ensures runs[r].job == runs[root].job && root <= r
    decreases r
  {
    assert ParentOk(runs, r);
    if r != root {
      TreeSameJob(runs, runs[r].parent.value, root);
    }
  }

  /** Workers treat the tree of `root` as intended: only live attempts are finished or parked, the first
      k attempts fail and no later one does, and nobody deletes the runs, retries by hand, or changes the
      budget. Everything else is allowed: other jobs, edits, lease expiry, repeated claims. */
  predicate Orderly(w: World, a: Action, root: RunId, k: nat)
    requires root in w.runs
  {
    && !a.Clear? && a != Delete(w.runs[root].job)
    && (a.Edit? && a.j == w.runs[root].job && a.e.maxRetry.Some? && a.j in w.jobs ==>
          a.e.maxRetry.value == w.jobs[a.j].maxRetry)
    && (a.Retry? && a.r in w.runs ==> !InTree(w.runs, a.r, root))
    && (a.Await? && a.r in w.runs && InTree(w.runs, a.r, root) ==> w.runs[a.r].status.Live())
    && (a.ReportStatus? && a.r in w.runs && InTree(w.runs, a.r, root) ==>
          && w.runs[a.r].status.Live()
          && (a.status.Some? && a.status.value.Terminal() ==>
                (a.status.value.Failing() <==> w.runs[a.r].retryCount < k)))
  }

  /** The tree of `root` is a chain of attempts: all but the last have failed and were allowed a retry. */
  ghost predicate Chain(w: World, root: RunId, k: nat, chain: seq<RunId>) {
    && |chain| > 0 && chain[0] == root && root in w.runs && w.runs[root].job in w.jobs
    && (forall i | 0 <= i < |chain| :: Link(w, root, chain[i], i))
    && (forall r | r in w.runs && InTree(w.runs, r, root) :: r in chain)
    && (forall i | 0 <= i < |chain| - 1 :: Repeated(w, root, k, chain[i]))
    && LastOk(w, root, k, chain[|chain| - 1])
  }

  predicate Link(w: World, root: RunId, r: RunId, i: nat) {
    r in w.runs && w.runs[r].retryCount == i && InTree(w.runs, r, root)
  }

  predicate Repeated(w: World, root: RunId, k: nat, r: RunId)
    requires root in w.runs && w.runs[root].job in w.jobs
  {
    && r in w.runs && w.runs[r].status.Failing()
    && w.runs[r].retryCount < k && w.runs[r].retryCount < w.jobs[w.runs[root].job].maxRetry
  }

  predicate LastOk(w: World, root: RunId, k: nat, r: RunId)
    requires root in w.runs && w.runs[root].job in w.jobs
  {
    r in w.runs && (w.runs[r].status.Terminal() ==>
      && (w.runs[r].status.Failing() <==> w.runs[r].retryCount < k)
      && (w.runs[r].status.Failing() ==> w.runs[r].retryCount >= w.jobs[w.runs[root].job].maxRetry))
  }

  /** What an orderly step can do to the status of one attempt. */
  lemma OrderlyMove(w: World, a: Action, r: RunId, root: RunId, k: nat)
    requires Inv(w) && root in w.runs && r in w.runs && InTree(w.runs, r, root) && Orderly(w, a, root, k)
    requires Open(w.runs[r], w.now, MoveOf(w, a, r))
    ensures Survives(w, a, r)
    ensures var after := Moved(w.runs[r], w.now, MoveOf(w, a, r)).status;
            || (w.runs[r].status.Live() && after.Live())
            || after == w.runs[r].status
            || (w.runs[r].status.Live() && after.Terminal() && a.ReportStatus? && a.r == r && a.status == Some(after)
                && (after.Failing() <==> w.runs[r].retryCount < k))
  {
    hide RunOk, JobOk, ParentOk, EdgesOk, NamesUnique, Choice, FindNextRunToLock;
    TreeSameJob(w.runs, r, root) by { assert ParentsOk(w.runs); }
  }

  lemma BudgetKept(w: World, a: Action, w': World, root: RunId, k: nat)
    requires JobsFollow(w, a, w') && root in w.runs && w.runs[root].job in w.jobs && Orderly(w, a, root, k)
    ensures w.runs[root].job in w'.jobs
    ensures w'.jobs[w.runs[root].job].maxRetry == w.jobs[w.runs[root].job].maxRetry
  {
    hide EditedJob, JobMoved;
    BudgetOfStep(w, a, w', w.runs[root].job);
  }

  /** The step is the failure of an attempt of the tree that has a retry left. */
  predicate Grows(w: World, a: Action, root: RunId) {
    a.ReportStatus? && a.r in w.runs && InTree(w.runs, a.r, root) && AutoRetries(w, w.runs[a.r], a.status)
  }

  lemma OriginsKept(w: World, a: Action, w': World)
    requires Inv(w) && Follows(w, a, w')
    ensures forall s | s in w.runs && s in w'.runs :: SameOrigin(w.runs[s], w'.runs[s])
  {
    hide Follows, SameOrigin, RunOk, JobOk, ParentOk, EdgesOk, NamesUnique;
    forall s | s in w.runs && s in w'.runs
      ensures SameOrigin(w.runs[s], w'.runs[s])
    {
      StepOrigin(w, a, w', s);
    }
  }

  /** An attempt of the tree is still an attempt of the tree after the step. */
  lemma AttemptKept(w: World, a: Action, w': World, root: RunId, k: nat, r: RunId)
    requires Inv(w) && Inv(w') && Follows(w, a, w') && root in w.runs && Orderly(w, a, root, k)
    requires r in w.runs && InTree(w.runs, r, root)
    ensures r in w'.runs && InTree(w'.runs, r, root) && SameOrigin(w.runs[r], w'.runs[r])
    ensures var before, after := w.runs[r].status, w'.runs[r].status;
            || (before.Live() && after.Live())
            || after == before
            || (before.Live() && after.Terminal() && a.ReportStatus? && a.r == r && a.status == Some(after)
                && (after.Failing() <==> w.runs[r].retryCount < k))
  {
    hide MoveOf, Births, Moved, Orderly, JobsFollow, RunOk, JobOk, ParentOk, EdgesOk, NamesUnique;
    hide InTree, SameOrigin, Open;
    MoveIsOpen(w, a, w', r, root, k);
    OrderlyMove(w, a, r, root, k);
    OriginsKept(w, a, w');
    InTreeKept(w.runs, w'.runs, r, root);
  }

  lemma MoveIsOpen(w: World, a: Action, w': World, r: RunId, root: RunId, k: nat)
    requires Inv(w) && Follows(w, a, w') && root in w.runs && Orderly(w, a, root, k)
    requires r in w.runs && InTree(w.runs, r, root)
    ensures Survives(w, a, r) && Open(w.runs[r], w.now, MoveOf(w, a, r))
  {
    hide MoveOf, Births, Moved, JobsFollow, RunOk, JobOk, ParentOk, EdgesOk, NamesUnique, Open;
    TreeSameJob(w.runs, r, root);
  }

  /** The step adds an attempt to the tree: the failure of one with a retry left, or a retry by hand. */
  predicate Spawns(w: World, a: Action, root: RunId) {
    || Grows(w, a, root)
    || (a.Retry? && a.r in w.runs && InTree(w.runs, a.r, root) && CanRetry(w, w.runs[a.r]))
  }

  /** A new run enters the tree only as the retry of one of its attempts. */
  lemma NewIsSpawned(w: World, a: Action, w': World, root: RunId, r: RunId)
    requires Inv(w) && Inv(w') && Follows(w, a, w') && root in w.runs
    requires r in w'.runs && r !in w.runs && InTree(w'.runs, r, root)
    ensures Spawns(w, a, root) && r == w.nextRun
  {
    hide MoveOf, Moved, JobsFollow, EdgesFollow, RunOk, JobOk, ParentOk, EdgesOk, NamesUnique, Completed, Started;
    BirthsAreFresh(w, a, r - w.nextRun);
    assert w'.runs[r] == Births(w, a)[r - w.nextRun];
    var p := w'.runs[r].parent.value;
    assert p == a.r && p in w.runs;
    OriginsKept(w, a, w');
    assert ParentOk(w'.runs, r) && p in w'.runs by { ParentPresent(w'.runs, r); }
    InTreeKept(w.runs, w'.runs, p, root);
  }

  /** Without retries by hand it is the retry of the attempt that just failed. */
  lemma NewAttempt(w: World, a: Action, w': World, root: RunId, k: nat, r: RunId)
    requires Inv(w) && Inv(w') && Follows(w, a, w') && root in w.runs && Orderly(w, a, root, k)
    requires r in w'.runs && r !in w.runs && InTree(w'.runs, r, root)
    ensures Grows(w, a, root) && r == w.nextRun
  {
    hide Follows, Inv, InTree, Grows;
    NewIsSpawned(w, a, w', root, r);
  }

  lemma ParentPresent(runs: map<RunId, RunRow>, r: RunId)
    requires ParentsOk(runs) && r in runs
    ensures ParentOk(runs, r) && (runs[r].parent.Some? ==> runs[r].parent.value in runs)
  {
    assert ParentOk(runs, r);
  }

  lemma GrownAttempt(w: World, a: Action, w': World, root: RunId, k: nat)
    requires Inv(w) && Inv(w') && Follows(w, a, w') && root in w.runs && Orderly(w, a, root, k)
    requires Grows(w, a, root)
    ensures w.nextRun in w'.runs && w'.runs[w.nextRun] == RetryOf(a.r, w.runs[a.r])
    ensures InTree(w'.runs, w.nextRun, root)
    ensures w'.runs[a.r].status.Failing() && w.runs[a.r].retryCount < k && w.runs[a.r].status.Live()
  {
    hide Moved, JobsFollow, RunOk, JobOk, ParentOk, EdgesOk, NamesUnique, RetryOf, InTree;
    assert Births(w, a) == [RetryOf(a.r, w.runs[a.r])];
    assert w'.runs[w.nextRun] == Births(w, a)[0];
    AttemptKept(w, a, w', root, k, a.r);
    ReportedStatus(w, a, w', root, k);
    RetryParent(a.r, w.runs[a.r]);
    ChildInTree(w'.runs, w.nextRun, a.r, root);
  }

  lemma RetryParent(r: RunId, row: RunRow)
    ensures RetryOf(r, row).parent == Some(r) && RetryOf(r, row).retryCount == row.retryCount + 1
    ensures RetryOf(r, row).status.Pending?
  {
  }

  lemma ChildInTree(runs: map<RunId, RunRow>, r: RunId, p: RunId, root: RunId)
    requires r in runs && runs[r].parent == Some(p) && p < r && InTree(runs, p, root)
    ensures InTree(runs, r, root)
  {
  }

  /** A reported final status is the status after the step. */
  lemma ReportedStatus(w: World, a: Action, w': World, root: RunId, k: nat)
    requires IdsBelow(w) && RunsFollow(w, a, w') && a.ReportStatus? && a.r in w.runs
    requires a.status.Some? && a.status.value.Terminal()
    ensures a.r in w'.runs && w'.runs[a.r].status == a.status.value
  {
    hide Births, Completed;
    var row := w.runs[a.r].(status := a.status.value);
    CompletedStatus(row, w.now);
    assert Survives(w, a, a.r) && MoveOf(w, a, a.r) == Update(a.status, a.out);
  }

  lemma {:induction false} ChainKept(w: World, a: Action, w': World, root: RunId, k: nat, chain: seq<RunId>)
    returns (chain': seq<RunId>)
    requires Inv(w) && Inv(w') && Follows(w, a, w') && Chain(w, root, k, chain) && Orderly(w, a, root, k)
    ensures Chain(w', root, k, chain') && w'.runs[root].job == w.runs[root].job
    ensures w'.jobs[w'.runs[root].job].maxRetry == w.jobs[w.runs[root].job].maxRetry
  {
    hide Follows, Inv, Orderly, InTree, SameOrigin, Repeated, Grows, LastOk;
    chain' := if Grows(w, a, root) then chain + [w.nextRun] else chain;
    assert Link(w, root, chain[0], 0);
    RootKept(w, a, w', root, k);
    forall i | 0 <= i < |chain|
      ensures Link(w', root, chain[i], i)
    {
      assert Link(w, root, chain[i], i);
      LinkKept(w, a, w', root, k, chain[i], i);
    }
    forall i | 0 <= i < |chain| - 1
      ensures Repeated(w', root, k, chain[i])
    {
      assert Link(w, root, chain[i], i) && Repeated(w, root, k, chain[i]);
      FailedKept(w, a, w', root, k, chain[i]);
    }
    var last := chain[|chain| - 1];
    assert Link(w, root, last, |chain| - 1);
    if Grows(w, a, root) {
      LastGrows(w, a, w', root, k, chain);
    } else {
      LastKept(w, a, w', root, k, last);
    }
    forall r | r in w'.runs && InTree(w'.runs, r, root)
      ensures r in chain'
    {
      MemberKept(w, a, w', root, k, chain, r);
    }
  }

  lemma RootKept(w: World, a: Action, w': World, root: RunId, k: nat)
    requires Inv(w) && Inv(w') && Follows(w, a, w') && root in w.runs && Orderly(w, a, root, k)
    ensures root in w'.runs && w'.runs[root].job == w.runs[root].job
    ensures w.runs[root].job in w'.jobs && w.runs[root].job in w.jobs
    ensures w'.jobs[w.runs[root].job].maxRetry == w.jobs[w.runs[root].job].maxRetry
  {
    hide Orderly, RunsFollow, JobsFollow, RunOk, JobOk, ParentOk, EdgesOk, NamesUnique;
    AttemptKept(w, a, w', root, k, root);
    BudgetKept(w, a, w', root, k);
  }

  lemma LinkKept(w: World, a: Action, w': World, root: RunId, k: nat, r: RunId, i: nat)
    requires Inv(w) && Inv(w') && Follows(w, a, w') && root in w.runs && Orderly(w, a, root, k)
    requires Link(w, root, r, i)
    ensures Link(w', root, r, i)
  {
    hide Orderly, Follows, Inv, InTree;
    AttemptKept(w, a, w', root, k, r);
  }

  lemma FailedKept(w: World, a: Action, w': World, root: RunId, k: nat, r: RunId)
    requires Inv(w) && Inv(w') && Follows(w, a, w') && root in w.runs && Orderly(w, a, root, k)
    requires r in w.runs && InTree(w.runs, r, root) && w.runs[root].job in w.jobs && Repeated(w, root, k, r)
    requires root in w'.runs && w'.runs[root].job in w'.jobs
    ensures Repeated(w', root, k, r)
  {
    hide Orderly, Follows, Inv, InTree;
    AttemptKept(w, a, w', root, k, r);
    RootKept(w, a, w', root, k);
  }

  lemma LastKept(w: World, a: Action, w': World, root: RunId, k: nat, r: RunId)
    requires Inv(w) && Inv(w') && Follows(w, a, w') && root in w.runs && Orderly(w, a, root, k)
    requires r in w.runs && InTree(w.runs, r, root) && w.runs[root].job in w.jobs && LastOk(w, root, k, r)
    requires root in w'.runs && w'.runs[root].job in w'.jobs && !Grows(w, a, root)
    ensures LastOk(w', root, k, r)
  {
    hide Orderly, Follows, InTree, RunOk, JobOk, EdgesOk, NamesUnique, ParentOk;
    AttemptKept(w, a, w', root, k, r);
    RootKept(w, a, w', root, k);
    TreeSameJob(w.runs, r, root);
  }

  /** When the tree grows, the attempt that failed is the last one: all others had already finished. */
  lemma LastGrows(w: World, a: Action, w': World, root: RunId, k: nat, chain: seq<RunId>)
    requires Inv(w) && Inv(w') && Follows(w, a, w') && Chain(w, root, k, chain) && Orderly(w, a, root, k)
    requires Grows(w, a, root)
    requires root in w'.runs && w'.runs[root].job in w'.jobs
    ensures Repeated(w', root, k, chain[|chain| - 1])
    ensures Link(w', root, w.nextRun, |chain|) && LastOk(w', root, k, w.nextRun)
  {
    hide Orderly, Follows, Inv, InTree, RunOk, JobOk, EdgesOk, NamesUnique, ParentOk;
    GrownAttempt(w, a, w', root, k);
    RetryParent(a.r, w.runs[a.r]);
    RootKept(w, a, w', root, k);
    assert a.r in chain;
    var i :| 0 <= i < |chain| && chain[i] == a.r;
    assert Link(w, root, chain[i], i);
    OnlyLastIsLive(w, root, k, chain, i);
    AttemptKept(w, a, w', root, k, a.r);
    GrowsWithinBudget(w, a, root);
  }

  lemma OnlyLastIsLive(w: World, root: RunId, k: nat, chain: seq<RunId>, i: nat)
    requires Chain(w, root, k, chain) && i < |chain|
    ensures chain[i] in w.runs && (i == |chain| - 1 || w.runs[chain[i]].status.Failing())
  {
    hide InTree;
    assert Link(w, root, chain[i], i);
  }

  lemma GrowsWithinBudget(w: World, a: Action, root: RunId)
    requires Inv(w) && root in w.runs && Grows(w, a, root)
    ensures w.runs[root].job in w.jobs && w.runs[a.r].retryCount < w.jobs[w.runs[root].job].maxRetry
  {
    hide RunOk, JobOk, EdgesOk, NamesUnique, ParentOk;
    TreeSameJob(w.runs, a.r, root);
  }

  lemma MemberKept(w: World, a: Action, w': World, root: RunId, k: nat, chain: seq<RunId>, r: RunId)
    requires Inv(w) && Inv(w') && Follows(w, a, w') && Chain(w, root, k, chain) && Orderly(w, a, root, k)
    requires r in w'.runs && InTree(w'.runs, r, root)
    ensures r in if Grows(w, a, root) then chain + [w.nextRun] else chain
  {
    hide Orderly, Follows, InTree, RunOk, JobOk, EdgesOk, NamesUnique, ParentOk, SameOrigin;
    hide Grows, Repeated, LastOk, Link;
    if r in w.runs {
      OriginsKept(w, a, w');
      InTreeKept(w.runs, w'.runs, r, root);
    } else {
      NewAttempt(w, a, w', root, k, r);
    }
  }

  /** The attempts of a run. */
  function AttemptsOf(w: World, root: RunId): set<RunId> {
    set r | r in w.runs && InTree(w.runs, r, root)
  }

  lemma {:induction false} ChainAlways(tr: seq<World>, acts: seq<Action>, i: nat, n: nat, root: RunId, k: nat)
    returns (chain: seq<RunId>)
    requires Trace(tr, acts) && i <= n < |tr|
    requires root in tr[i].runs && AttemptsOf(tr[i], root) == {root} && tr[i].runs[root].retryCount == 0
    requires tr[i].runs[root].status.Live()
    requires forall m | i <= m < n :: root in tr[m].runs ==> Orderly(tr[m], acts[m], root, k)
    ensures Chain(tr[n], root, k, chain)
    ensures tr[n].runs[root].job == tr[i].runs[root].job && tr[i].runs[root].job in tr[i].jobs
    ensures tr[n].jobs[tr[n].runs[root].job].maxRetry == tr[i].jobs[tr[i].runs[root].job].maxRetry
  {
    hide Follows, Inv, Orderly, InTree, Repeated, LastOk;
    if i == n {
      chain := [root];
      assert InvAt(tr, i);
      FirstChain(tr[i], root, k);
    } else {
      chain := ChainAlways(tr, acts, i, n - 1, root, k);
      assert FollowsAt(tr, acts, n - 1) && InvAt(tr, n - 1) && InvAt(tr, n);
      chain := ChainKept(tr[n - 1], acts[n - 1], tr[n], root, k, chain);
    }
  }

  lemma FirstChain(w: World, root: RunId, k: nat)
    requires Inv(w) && root in w.runs && AttemptsOf(w, root) == {root} && w.runs[root].retryCount == 0
    requires w.runs[root].status.Live()
    ensures Chain(w, root, k, [root])
  {
    hide RunOk, JobOk, EdgesOk, NamesUnique, ParentOk;
    assert forall r | r in w.runs && InTree(w.runs, r, root) :: r in AttemptsOf(w, root);
  }

  lemma ChainSize(w: World, root: RunId, k: nat, chain: seq<RunId>)
    requires Chain(w, root, k, chain)
    ensures |AttemptsOf(w, root)| == |chain|
  {
    hide InTree, Repeated, LastOk;
    assert forall i | 0 <= i < |chain| :: Link(w, root, chain[i], i);
    assert NoDuplicates(chain);
    EnumerationSize(chain, AttemptsOf(w, root));
  }

  /** In every history, from any moment at which a run is a live first attempt: if the first k of its
      attempts fail and no later one does, then once all its attempts are over there are exactly
      min(k, max_retry) + 1 of them, however the steps of other jobs and lease expiries interleave. */
  lemma ExactlyMinPlusOneAttempts(tr: seq<World>, acts: seq<Action>, i: nat, n: nat, root: RunId, k: nat)
    requires History(tr, acts) && i <= n < |tr|
    requires root in tr[i].runs && AttemptsOf(tr[i], root) == {root} && tr[i].runs[root].retryCount == 0
    requires tr[i].runs[root].status.Live()
    requires forall m | i <= m < n :: root in tr[m].runs ==> Orderly(tr[m], acts[m], root, k)
    requires forall r | r in tr[n].runs && InTree(tr[n].runs, r, root) :: tr[n].runs[r].status.Terminal()
    ensures tr[i].runs[root].job in tr[i].jobs
    ensures |AttemptsOf(tr[n], root)| == Min(k, tr[i].jobs[tr[i].runs[root].job].maxRetry) + 1
  {
    hide Follows, Inv, Orderly, InTree, Step;
    HistoryTrace(tr, acts);
    var chain := ChainAlways(tr, acts, i, n, root, k);
    ChainSize(tr[n], root, k, chain);
    var m := |chain| - 1;
    assert Link(tr[n], root, chain[m], m);
    if m > 0 {
      assert Repeated(tr[n], root, k, chain[m - 1]) && Link(tr[n], root, chain[m - 1], m - 1);
    } else {
      assert InvAt(tr, i);
      BudgetNonnegative(tr[i], tr[i].runs[root].job);
    }
  }

  lemma BudgetNonnegative(w: World, j: JobId)
    requires Inv(w) && j in w.jobs
    ensures w.jobs[j].maxRetry >= 0
  {
  }

  // ---------------------------------------------------------------- attempts counted without conditions

  lemma SpawnsBirth(w: World, a: Action, root: RunId)
    requires Spawns(w, a, root)
    ensures (a.ReportStatus? || a.Retry?) && a.r in w.runs && InTree(w.runs, a.r, root)
    ensures Births(w, a) == [RetryOf(a.r, w.runs[a.r])]
  {
    hide InTree, RetryOf;
  }

  lemma SpawnedRun(w: World, a: Action, w': World, root: RunId)
    requires Inv(w) && Inv(w') && Follows(w, a, w') && root in w.runs && root in w'.runs && Spawns(w, a, root)
    ensures w.nextRun in w'.runs && InTree(w'.runs, w.nextRun, root)
  {
    hide MoveOf, Births, Moved, JobsFollow, EdgesFollow, RunOk, JobOk, ParentOk, EdgesOk, NamesUnique, RetryOf;
    hide InTree, Spawns;
    SpawnsBirth(w, a, root);
    assert w'.runs[w.nextRun] == Births(w, a)[0];
    RetryParent(a.r, w.runs[a.r]);
    AttemptSurvives(w, a, w', root, a.r);
    OriginsKept(w, a, w');
    InTreeKept(w.runs, w'.runs, a.r, root);
    ChildInTree(w'.runs, w.nextRun, a.r, root);
  }

  /** Attempts disappear only together with the first one. */
  lemma AttemptSurvives(w: World, a: Action, w': World, root: RunId, r: RunId)
    requires Inv(w) && Follows(w, a, w') && root in w.runs && root in w'.runs
    requires r in w.runs && InTree(w.runs, r, root)
    ensures r in w'.runs
  {
    hide MoveOf, Births, Moved, JobsFollow, EdgesFollow, RunOk, JobOk, ParentOk, EdgesOk, NamesUnique, InTree;
    TreeSameJob(w.runs, r, root);
    assert Survives(w, a, root);
  }

  lemma AttemptsStep(w: World, a: Action, w': World, root: RunId)
    requires Inv(w) && Inv(w') && Follows(w, a, w') && root in w.runs && root in w'.runs
    ensures AttemptsOf(w', root) == AttemptsOf(w, root) + (if Spawns(w, a, root) then {w.nextRun} else {})
    ensures w.nextRun !in AttemptsOf(w, root)
  {
    hide Follows, InTree, Spawns, RunOk, JobOk, ParentOk, EdgesOk, NamesUnique, SameOrigin;
    OriginsKept(w, a, w');
    if Spawns(w, a, root) {
      SpawnedRun(w, a, w', root);
    }
    forall r | r in AttemptsOf(w, root)
      ensures r in AttemptsOf(w', root)
    {
      AttemptSurvives(w, a, w', root, r);
      InTreeKept(w.runs, w'.runs, r, root);
    }
    forall r | r in AttemptsOf(w', root)
      ensures r in AttemptsOf(w, root) + (if Spawns(w, a, root) then {w.nextRun} else {})
    {
      if r in w.runs {
        InTreeKept(w.runs, w'.runs, r, root);
      } else {
        NewIsSpawned(w, a, w', root, r);
      }
    }
  }

  ghost function Spawned(tr: seq<World>, acts: seq<Action>, root: RunId, i: nat, n: nat): nat
    requires i <= n < |tr| == |acts| + 1
  {
    if i == n then 0 else Spawned(tr, acts, root, i, n - 1) + Count(Spawns(tr[n - 1], acts[n - 1], root))
  }

  lemma {:induction false} AttemptsAdd(tr: seq<World>, acts: seq<Action>, i: nat, n: nat, root: RunId)
    requires Trace(tr, acts) && i <= n < |tr| && root in tr[i].runs && root in tr[n].runs
    ensures |AttemptsOf(tr[n], root)| == |AttemptsOf(tr[i], root)| + Spawned(tr, acts, root, i, n)
  {
    hide Follows, Inv, Spawns, AttemptsOf;
    if i < n {
      assert FollowsAt(tr, acts, n - 1) && InvAt(tr, n - 1) && InvAt(tr, n) && InvAt(tr, i);
      InvNames(tr[i]);
      Forward(tr, acts, i, n - 1);
      OlderRun(tr[n - 1], acts[n - 1], tr[n], root);
      AttemptsAdd(tr, acts, i, n - 1, root);
      AttemptsStep(tr[n - 1], acts[n - 1], tr[n], root);
    }
  }

  /** In every history whatsoever: as long as a run exists, its attempts are those it had before and one more
      for each failure of an attempt with a retry left and each retry of an attempt by hand. */
  lemma AttemptsAreBirths(tr: seq<World>, acts: seq<Action>, i: nat, n: nat, root: RunId)
    requires History(tr, acts) && i <= n < |tr| && root in tr[i].runs && root in tr[n].runs
    ensures |AttemptsOf(tr[n], root)| == |AttemptsOf(tr[i], root)| + Spawned(tr, acts, root, i, n)
  {
    hide Step, Spawns, AttemptsOf;
    HistoryTrace(tr, acts);
    AttemptsAdd(tr, acts, i, n, root);
  }
}
