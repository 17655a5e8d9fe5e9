/** Why a queue with pending runs can hand out nothing: every waiting run waits, link by link, for a cause
    that lies outside the queue, or for itself. */
module Stalls {
  import opened Basics
  import opened Rows
  import opened Payloads
  import Schedule
  import opened Operations
  import opened Protocol
  import opened Invariants

  /** A run is what `dequeue_next_run` promises to take: oldest of the runs that are ready. */
  predicate ReadyRun(w: World, busy: Busy, r: RunId) {
    Lockable(w, busy, r) && DepsSatisfied(w, w.runs[r].job)
  }

  predicate IsOldestReady(w: World, busy: Busy, choice: Option<RunId>) {
    match choice
    case Some(r) => ReadyRun(w, busy, r) && forall s | s in w.runs && ReadyRun(w, busy, s) :: r <= s
    case None => forall s | s in w.runs :: !ReadyRun(w, busy, s)
  }

  lemma ChoiceIsOldestReady(w: World, busy: Busy)
    requires IdsBelow(w)
    ensures IsOldestReady(w, busy, Choice(w, busy))
  {
    hide DepsSatisfied, FindNextRunToLock;
    FoundIsOldest(w, busy, Blocked(w));
  }

  /** The dependency-aware dequeue takes the very run that the two simpler ones (`dequeue_and_lock` and
      `db_lock_pending_job`) would take if the runs waiting for an upstream job were not in the table. */
  lemma DequeueIsLockOldestWithoutBlocked(w: World, busy: Busy)
    requires IdsBelow(w)
    ensures Choice(w, busy)
            == FindNextRunToLock(w.(runs := map r | r in w.runs && r !in Blocked(w) :: w.runs[r]), busy, {})
  {
    hide DepsSatisfied, FindNextRunToLock, Blocked;
    var w' := w.(runs := map r | r in w.runs && r !in Blocked(w) :: w.runs[r]);
    FoundIsOldest(w, busy, Blocked(w));
    FoundIsOldest(w', busy, {});
    assert forall r :: Lockable(w', busy, r) <==> Lockable(w, busy, r) && r !in Blocked(w);
  }

  // ---------------------------------------------------------------- chains of waiting

  /** Job j waits for job u: there is an edge, and its condition does not hold now. */
  predicate Waits(w: World, j: JobId, u: JobId) {
    (j, u) in w.deps && !EdgeMet(w, u, w.deps[(j, u)])
  }

  predicate WaitPath(w: World, p: seq<JobId>) {
    |p| > 0 && forall i | 0 <= i < |p| - 1 :: Waits(w, p[i], p[i + 1])
  }

  /** The upstream job never ran, or its newest run is past pending, or the job is switched off. */
  predicate OutsideCause(w: World, u: JobId) {
    var newest := Newest(w, u);
    || newest.None?
    || !w.runs[newest.value].status.Pending?
    || !(u in w.jobs && w.jobs[u].enabled && w.jobs[u].status.On())
  }

  lemma PendingWaits(w: World, r: RunId) returns (u: JobId)
    requires IdsBelow(w) && EdgesOk(w) && Choice(w, IDLE).None? && Lockable(w, IDLE, r)
    ensures Waits(w, w.runs[r].job, u) && u in w.jobs
  {
    hide FindNextRunToLock, EdgeMet;
    ChoiceIsOldestReady(w, IDLE);
    assert !ReadyRun(w, IDLE, r);
    var e :| e in w.deps && e.0 == w.runs[r].job && !EdgeMet(w, e.1, w.deps[e]);
    assert e == (w.runs[r].job, e.1);
    u := e.1;
  }

  function Members(p: seq<JobId>): set<JobId> {
    set j | j in p
  }

  /** All jobs of the chain after the first are queued. */
  predicate AllQueued(w: World, p: seq<JobId>) {
    forall i | 1 <= i < |p| :: !OutsideCause(w, p[i])
  }

  lemma ExtendQueued(w: World, p: seq<JobId>, u: JobId)
    requires AllQueued(w, p) && !OutsideCause(w, u)
    ensures AllQueued(w, p + [u])
  {
    hide OutsideCause;
  }

  /** The chain ends outside the queue or where it has been before, and nowhere in between. */
  predicate Ended(w: World, q: seq<JobId>) {
    && WaitPath(w, q) && |q| >= 2 && AllQueued(w, q[..|q| - 1])
    && (OutsideCause(w, q[|q| - 1]) || q[|q| - 1] in q[..|q| - 1])
  }

  lemma ChainEnds(w: World, p: seq<JobId>, u: JobId)
    requires WaitPath(w, p + [u]) && |p| >= 1 && AllQueued(w, p) && (OutsideCause(w, u) || u in p)
    ensures Ended(w, p + [u])
  {
    hide OutsideCause, WaitPath, AllQueued;
    assert (p + [u])[..|p|] == p;
  }

  /** The chain so far ends at a queued job; it goes on until it leaves the queue or closes a cycle. */
  lemma {:induction false} WaitChain(w: World, p: seq<JobId>, r: RunId) returns (q: seq<JobId>)
    requires IdsBelow(w) && EdgesOk(w) && Choice(w, IDLE).None?
    requires |p| >= 1 && WaitPath(w, p) && Members(p) <= w.jobs.Keys && AllQueued(w, p)
    requires Lockable(w, IDLE, r) && w.runs[r].job == p[|p| - 1]
    ensures Ended(w, q) && |q| >= 1 && q[0] == p[0]
    decreases |w.jobs.Keys - Members(p)|
  {
    hide Choice, EdgeMet, Newest, OutsideCause, Lockable, Waits, EdgesOk, IdsBelow, WaitPath, AllQueued, Ended;
    var u := PendingWaits(w, r);
    q := p + [u];
    ExtendPath(w, p, u);
    if u !in p && !OutsideCause(w, u) {
      QueuedRun(w, u);
      OneMore(w.jobs.Keys, p, u);
      ExtendQueued(w, p, u);
      q := WaitChain(w, q, Newest(w, u).value);
    } else {
      ChainEnds(w, p, u);
    }
  }

  /** The newest run of a queued job is one that dequeue could take. */
  lemma QueuedRun(w: World, u: JobId)
    requires IdsBelow(w) && !OutsideCause(w, u)
    ensures Newest(w, u).Some? && Lockable(w, IDLE, Newest(w, u).value) && w.runs[Newest(w, u).value].job == u
  {
  }

  lemma {:induction false} SmallerSet(a: set<JobId>, b: set<JobId>)
    requires a < b
    ensures |a| < |b|
  {
    assert b == a + (b - a) && b - a != {};
    assert |b| == |a| + |b - a|;
  }

  lemma OneMore(s: set<JobId>, p: seq<JobId>, u: JobId)
    requires Members(p) <= s && u in s && u !in p
    ensures Members(p + [u]) <= s && |s - Members(p + [u])| < |s - Members(p)|
  {
    assert u in Members(p + [u]) && u !in Members(p) && Members(p) <= Members(p + [u]);
    SmallerSet(s - Members(p + [u]), s - Members(p));
  }

  lemma ExtendPath(w: World, p: seq<JobId>, u: JobId)
    requires WaitPath(w, p) && Waits(w, p[|p| - 1], u)
    ensures WaitPath(w, p + [u])
  {
    hide Waits;
    var q := p + [u];
    forall i | 0 <= i < |q| - 1
      ensures Waits(w, q[i], q[i + 1])
    {
      if i < |p| - 1 {
        assert q[i] == p[i] && q[i + 1] == p[i + 1];
      }
    }
  }

  /** A chain of unmet dependencies from j to a cause outside the queue. */
  predicate Explains(w: World, q: seq<JobId>, j: JobId) {
    WaitPath(w, q) && |q| >= 2 && q[0] == j && OutsideCause(w, q[|q| - 1])
  }

  /** A chain of unmet dependencies from j that closes a cycle inside the queue. */
  predicate Cycles(w: World, q: seq<JobId>, j: JobId) {
    && WaitPath(w, q) && |q| >= 2 && q[0] == j && q[|q| - 1] in q[..|q| - 1]
    && forall i | 1 <= i < |q| :: !OutsideCause(w, q[i])
  }

  /** With no rows locked elsewhere: if dequeue finds nothing, every pending run of an enabled job starts a
      chain of unmet dependencies that ends outside the queue, or one that closes a cycle inside it. */
  lemma NoSpuriousStall(w: World, r: RunId)
    requires Inv(w) && Choice(w, IDLE).None? && Lockable(w, IDLE, r)
    ensures exists q :: Explains(w, q, w.runs[r].job) || Cycles(w, q, w.runs[r].job)
  {
    hide RunOk, JobOk, ParentOk, Choice, Newest, WaitPath, OutsideCause, Lockable;
    JobOfLockable(w, r);
    var p := [w.runs[r].job];
    assert Members(p) == {w.runs[r].job};
    SinglePath(w, w.runs[r].job);
    var q := WaitChain(w, p, r);
    EndedIsEither(w, q);
  }

  lemma JobOfLockable(w: World, r: RunId)
    requires Lockable(w, IDLE, r)
    ensures r in w.runs && w.runs[r].job in w.jobs
  {
  }

  lemma EndedIsEither(w: World, q: seq<JobId>)
    requires Ended(w, q)
    ensures Explains(w, q, q[0]) || Cycles(w, q, q[0])
  {
    hide WaitPath, OutsideCause;
    if !OutsideCause(w, q[|q| - 1]) {
      forall i | 1 <= i < |q|
        ensures !OutsideCause(w, q[i])
      {
        if i < |q| - 1 {
          assert q[..|q| - 1][i] == q[i];
        }
      }
    }
  }

  lemma SinglePath(w: World, j: JobId)
    ensures WaitPath(w, [j])
  {
  }

  // ---------------------------------------------------------------- deadlock

  /** Jobs that wait only for each other: every job they wait for is one of them and is itself queued. */
  ghost predicate Closed(w: World, s: set<JobId>) {
    forall j, u | j in s && Waits(w, j, u) :: u in s && !OutsideCause(w, u)
  }

  lemma {:induction false} PathStaysInside(w: World, s: set<JobId>, q: seq<JobId>)
    requires Closed(w, s) && WaitPath(w, q) && q[0] in s
    ensures q[|q| - 1] in s && (|q| >= 2 ==> !OutsideCause(w, q[|q| - 1]))
  {
    hide Waits, OutsideCause;
    if |q| >= 2 {
      var p := q[..|q| - 1];
      assert WaitPath(w, p) by {
        forall i | 0 <= i < |p| - 1
          ensures Waits(w, p[i], p[i + 1])
        {
          assert p[i] == q[i] && p[i + 1] == q[i + 1];
        }
      }
      PathStaysInside(w, s, p);
      assert Waits(w, q[|q| - 2], q[|q| - 1]);
    }
  }

  ghost predicate Reaches(w: World, j: JobId, u: JobId) {
    exists q :: WaitPath(w, q) && q[0] == j && q[|q| - 1] == u
  }

  /** The jobs that j waits for, directly or not, and j itself. */
  ghost function Reachable(w: World, j: JobId): set<JobId> {
    set u | u in w.jobs && Reaches(w, j, u)
  }

  lemma ReachableClosed(w: World, j: JobId)
    requires EdgesOk(w) && j in w.jobs && forall q :: !Explains(w, q, j)
    ensures j in Reachable(w, j) && Closed(w, Reachable(w, j))
  {
    hide OutsideCause, Waits;
    SinglePath(w, j);
    var own := [j];
    assert own[0] == j && own[|own| - 1] == j;
    assert Reaches(w, j, j);
    forall x, u | x in Reachable(w, j) && Waits(w, x, u)
      ensures u in Reachable(w, j) && !OutsideCause(w, u)
    {
      var q :| WaitPath(w, q) && q[0] == j && q[|q| - 1] == x;
      ExtendPath(w, q, u);
      assert (q + [u])[0] == j && (q + [u])[|q + [u]| - 1] == u;
      assert !Explains(w, q + [u], j);
      WaitsForJob(w, x, u);
    }
  }

  lemma PathNotEmpty(w: World, q: seq<JobId>)
    requires WaitPath(w, q)
    ensures |q| > 0
  {
  }

  lemma WaitsForJob(w: World, j: JobId, u: JobId)
    requires EdgesOk(w) && Waits(w, j, u)
    ensures u in w.jobs
  {
    assert (j, u) in w.deps;
  }

  /** Exactly when there is no cause outside the queue: a job has no chain to one if and only if it belongs to
      a set of jobs that wait only for each other, each of them queued. */
  lemma NoOutsideCauseExactly(w: World, j: JobId)
    requires EdgesOk(w) && j in w.jobs
    ensures (forall q :: !Explains(w, q, j)) <==> (exists s: set<JobId> :: j in s && Closed(w, s))
  {
    hide WaitPath, OutsideCause, Closed;
    if forall q :: !Explains(w, q, j) {
      ReachableClosed(w, j);
    }
    if s: set<JobId> :| j in s && Closed(w, s) {
      forall q
        ensures !Explains(w, q, j)
      {
        if Explains(w, q, j) {
          PathNotEmpty(w, q);
          PathStaysInside(w, s, q);
        }
      }
    }
  }

  /** So in a stall, a pending run of an enabled job has no cause outside the queue if and only if it is
      caught in such a set; and then each job of the set that it waits for waits for another one in turn. */
  lemma StallWithoutCauseIsDeadlock(w: World, r: RunId)
    requires Inv(w) && Choice(w, IDLE).None? && Lockable(w, IDLE, r)
    ensures (forall q :: !Explains(w, q, w.runs[r].job))
            <==> (exists s: set<JobId> :: w.runs[r].job in s && Closed(w, s))
    ensures forall s: set<JobId> | w.runs[r].job in s && Closed(w, s) ::
              exists q :: Cycles(w, q, w.runs[r].job) && forall u | u in q :: u in s
  {
    hide Inv, Choice, WaitPath, OutsideCause, Closed, Lockable, EdgesOk;
    EdgesHold(w, r);
    NoOutsideCauseExactly(w, w.runs[r].job);
    forall s: set<JobId> | w.runs[r].job in s && Closed(w, s)
      ensures exists q :: Cycles(w, q, w.runs[r].job) && forall u | u in q :: u in s
    {
      NoSpuriousStall(w, r);
      var q :| Explains(w, q, w.runs[r].job) || Cycles(w, q, w.runs[r].job);
      PathNotEmpty(w, q);
      PathStaysInside(w, s, q);
      AllInside(w, s, q);
    }
  }

  lemma EdgesHold(w: World, r: RunId)
    requires Inv(w) && Lockable(w, IDLE, r)
    ensures EdgesOk(w) && r in w.runs && w.runs[r].job in w.jobs
  {
  }

  lemma {:induction false} AllInside(w: World, s: set<JobId>, q: seq<JobId>)
    requires Closed(w, s) && WaitPath(w, q) && q[0] in s
    ensures forall u | u in q :: u in s
  {
    hide OutsideCause, Closed;
    forall i | 0 <= i < |q|
      ensures q[i] in s
    {
      PrefixPath(w, q, i + 1);
      PathStaysInside(w, s, q[..i + 1]);
    }
  }

  lemma PrefixPath(w: World, q: seq<JobId>, n: nat)
    requires WaitPath(w, q) && 0 < n <= |q|
    ensures WaitPath(w, q[..n])
  {
    hide Waits;
    var p := q[..n];
    forall i | 0 <= i < |p| - 1
      ensures Waits(w, p[i], p[i + 1])
    {
      assert p[i] == q[i] && p[i + 1] == q[i + 1];
    }
  }

  // ---------------------------------------------------------------- without cycles

  /** An edge that can hold up a job although the upstream job is queued: it asks for more than pending. */
  predicate Blocks(w: World, j: JobId, u: JobId) {
    (j, u) in w.deps && !w.deps[(j, u)].Pending?
  }

  predicate BlockPath(w: World, p: seq<JobId>) {
    |p| > 0 && forall i | 0 <= i < |p| - 1 :: Blocks(w, p[i], p[i + 1])
  }

  /** No job depends on itself along such edges. */
  ghost predicate Acyclic(w: World) {
    forall q | BlockPath(w, q) && |q| >= 2 :: q[0] != q[|q| - 1]
  }

  /** Without such cycles every stall has a cause outside the queue. */
  lemma AcyclicStallHasOutsideCause(w: World, r: RunId)
    requires Inv(w) && Acyclic(w) && Choice(w, IDLE).None? && Lockable(w, IDLE, r)
    ensures exists q :: Explains(w, q, w.runs[r].job)
  {
    hide RunOk, JobOk, ParentOk, Choice, Newest, OutsideCause, Inv, Acyclic, WaitPath;
    NoSpuriousStall(w, r);
    var q :| Explains(w, q, w.runs[r].job) || Cycles(w, q, w.runs[r].job);
    if Cycles(w, q, w.runs[r].job) {
      var i :| 0 <= i < |q| - 1 && q[i] == q[|q| - 1];
      CycleContradicts(w, q, i);
    }
  }

  lemma WaitsForQueuedBlocks(w: World, j: JobId, u: JobId)
    requires Waits(w, j, u) && !OutsideCause(w, u)
    ensures Blocks(w, j, u)
  {
  }

  lemma CycleContradicts(w: World, q: seq<JobId>, i: nat)
    requires Acyclic(w) && WaitPath(w, q) && i < |q| - 1 && forall k | 1 <= k < |q| :: !OutsideCause(w, q[k])
    ensures q[i] != q[|q| - 1]
  {
    hide EdgeMet, OutsideCause, Waits, Blocks;
    var c := q[i..];
    forall k | 0 <= k < |c| - 1
      ensures Blocks(w, c[k], c[k + 1])
    {
      assert Waits(w, q[i + k], q[i + k + 1]);
      WaitsForQueuedBlocks(w, q[i + k], q[i + k + 1]);
    }
    assert BlockPath(w, c);
  }

  // ---------------------------------------------------------------- a deadlock that happens

  /** Two enabled jobs, and no runs. */
  predicate TwoJobs(w: World) {
    && w.jobs.Keys == {0, 1} && w.nextJob == 2 && w.runs == map[] && w.nextRun == 0
    && (forall j | j in w.jobs :: w.jobs[j].enabled && w.jobs[j].status.On() && Acceptable(w.jobs[j]))
  }

  function WaitFor(name: string): JobEdit {
    NO_EDIT.(dependsOn := Some([name]))
  }

  predicate OneJob(w: World, name: string) {
    && w.jobs.Keys == {0} && w.nextJob == 1 && w.runs == map[] && w.nextRun == 0 && w.deps == map[]
    && w.jobs[0].name == name && w.jobs[0].enabled && w.jobs[0].status.On() && Acceptable(w.jobs[0])
  }

  lemma FirstCreated(w: World, name: string, q: Payloads.Request)
    requires Initial(w) && q.timeoutSeconds > 0
    ensures OneJob(CreateJob(w, ManualJob(name, 0, q)), name)
  {
    hide Schedule.ResolveScheduleRule, Schedule.ComputeNextRun, Payloads.BuiltPayload;
  }

  lemma NamedFirst(t: JobTable, name: string)
    requires t.next == 2 && t.jobs.Keys == {0, 1} && t.jobs[0].name == name && t.jobs[1].name != name
    ensures Meant(t, [name]) == Some([0])
  {
    assert Lookup(t, name) == Some(0);
    OneMeant(t, name, 0);
  }

  lemma SecondCreated(w: World, first: string, second: string, q: Payloads.Request)
    requires OneJob(w, first) && first != second && q.timeoutSeconds > 0
    ensures var w' := CreateJob(w, ManualJob(second, 0, q).(dependsOn := [first]));
            TwoJobs(w') && w'.deps == map[(1, 0) := Success] && w'.jobs[1].name == second
  {
    hide Schedule.ResolveScheduleRule, Schedule.ComputeNextRun, Payloads.BuiltPayload, Meant, Lookup;
    var spec := ManualJob(second, 0, q).(dependsOn := [first]);
    NamedFirst(TableWith(w, CreatedJob(w, spec)), first);
    assert CreateAccepted(w, spec) && CreatedUpstream(w, spec) == [0];
    assert WithDeps(w.deps, 1, [0]) == map[(1, 0) := Success];
  }

  lemma OneMeant(t: JobTable, text: string, j: JobId)
    requires Lookup(t, text) == Some(j)
    ensures Meant(t, [text]) == Some([j])
  {
    hide Lookup;
    assert forall x | x in [text] :: x == text;
    var upstream := Meant(t, [text]).value;
    assert Lookup(t, [text][0]) == Some(upstream[0]);
    assert upstream == [j];
  }

  lemma TwoLinked(w: World, second: string)
    requires TwoJobs(w) && w.deps == map[(1, 0) := Success] && w.jobs[1].name == second
    ensures var w' := EditJob(w, 0, WaitFor(second));
            TwoJobs(w') && w'.deps == map[(0, 1) := Success, (1, 0) := Success]
  {
    hide EditedJob, Meant, Lookup;
    OnlyDependsEdited(w.jobs[0], second, w.jobs[0].status, w.cron, w.now);
    NamedSecond(TableOf(w), second);
    assert EditAccepted(w, 0, WaitFor(second)) && EditedUpstream(w, 0, WaitFor(second)) == [1];
    assert WithDeps(w.deps, 0, [1]) == map[(0, 1) := Success, (1, 0) := Success];
  }

  lemma OnlyDependsEdited(row: JobRow, name: string, status: JobStatus, cron: Schedule.Cron, now: Time)
    requires Acceptable(row) && status.On()
    ensures var after := EditedJob(row, WaitFor(name), status, cron, now);
            Acceptable(after) && after.enabled && after.status == status
  {
    hide Schedule.ComputeNextRun;
  }

  lemma NamedSecond(t: JobTable, name: string)
    requires t.next == 2 && t.jobs.Keys == {0, 1} && t.jobs[1].name == name
    ensures Meant(t, [name]) == Some([1])
  {
    assert Lookup(t, name) == Some(1);
    OneMeant(t, name, 1);
  }

  /** Both have a pending run, and each waits for the other's success. */
  predicate TwoPending(w: World) {
    && w.jobs.Keys == {0, 1} && w.nextJob == 2 && w.runs.Keys == {0, 1} && w.nextRun == 2
    && (forall j | j in w.jobs :: w.jobs[j].enabled && w.jobs[j].status.On())
    && w.runs[0].job == 0 && w.runs[1].job == 1 && w.runs[0].status.Pending? && w.runs[1].status.Pending?
    && w.deps == map[(0, 1) := Success, (1, 0) := Success]
  }

  lemma TwoTriggered(w: World)
    requires TwoJobs(w) && w.deps == map[(0, 1) := Success, (1, 0) := Success]
    ensures TwoPending(TriggerJob(TriggerJob(w, 0, ByHand), 1, ByHand))
  {
    hide Snapshot;
    var w' := TriggerJob(TriggerJob(w, 0, ByHand), 1, ByHand);
    assert w'.runs.Keys == {0, 1};
  }

  lemma TwoWait(w: World)
    requires TwoPending(w)
    ensures Choice(w, IDLE).None? && Lockable(w, IDLE, 0) && Lockable(w, IDLE, 1)
    ensures Closed(w, {0, 1}) && EdgesOk(w)
  {
    hide FindNextRunToLock;
    assert Newest(w, 0) == Some(0) && Newest(w, 1) == Some(1);
    assert (0, 1) in w.deps && (1, 0) in w.deps;
    assert Waits(w, 0, 1) && Waits(w, 1, 0);
    ChoiceIsOldestReady(w, IDLE);
    assert !DepsSatisfied(w, 0) && !DepsSatisfied(w, 1);
  }

  /** A stall without any cause outside the queue is reachable: two jobs that wait for each other's success,
      each with a pending run. */
  lemma DeadlockHappens(w0: World, first: string, second: string, q: Payloads.Request)
    returns (tr: seq<World>, acts: seq<Action>)
    requires Initial(w0) && first != second && q.timeoutSeconds > 0
    ensures History(tr, acts) && |acts| == 5 && tr[0] == w0
    ensures Choice(tr[5], IDLE).None? && Lockable(tr[5], IDLE, 0) && Lockable(tr[5], IDLE, 1)
    ensures forall p :: !Explains(tr[5], p, tr[5].runs[0].job) && !Explains(tr[5], p, tr[5].runs[1].job)
  {
    hide CreateJob, EditJob, TriggerJob, Choice, Lockable, Explains, OneJob, TwoJobs, TwoPending, Closed;
    var spec, edit := ManualJob(second, 0, q).(dependsOn := [first]), WaitFor(second);
    acts := [Create(ManualJob(first, 0, q)), Create(spec), Edit(0, edit), TriggerNow(0, ByHand), TriggerNow(1, ByHand)];
    var w1 := CreateJob(w0, ManualJob(first, 0, q));
    var w2 := CreateJob(w1, spec);
    FirstCreated(w0, first, q);
    SecondCreated(w1, first, second, q);
    var w3 := EditJob(w2, 0, edit);
    TwoLinked(w2, second);
    var w4 := TriggerJob(w3, 0, ByHand);
    var w5 := TriggerJob(w4, 1, ByHand);
    TwoTriggered(w3);
    TwoWait(w5);
    InPair(w5);
    tr := [w0, w1, w2, w3, w4, w5];
    assert StepAt(tr, acts, 0) && StepAt(tr, acts, 1) && StepAt(tr, acts, 2);
    assert StepAt(tr, acts, 3) && StepAt(tr, acts, 4);
    NoOutsideCauseExactly(w5, 0);
    NoOutsideCauseExactly(w5, 1);
  }

  lemma InPair(w: World)
    requires TwoPending(w)
    ensures 0 in w.jobs && 1 in w.jobs && 0 in w.runs && 1 in w.runs && w.runs[0].job == 0 && w.runs[1].job == 1
  {
  }
}
