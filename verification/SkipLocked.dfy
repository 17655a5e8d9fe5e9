/** Dequeue split at its row locks: every worker session selects and locks row by row, others interleave,
    and a later commit claims the run. Row locks that are skipped make this a case of the atomic protocol. */
module SkipLocked {
  import opened Basics
  import opened Rows
  import opened Operations
  import opened Protocol
  import opened Invariants
  import opened Leases

  type TxnId = nat

  /** A dependency: the upstream job and the status its newest run must have. */
  type Edge = (JobId, RunStatus)

  /** A run that is locked and being checked: its job, and the dependencies still to be looked up, None before
      the dependency rows have been read. */
  datatype Look = Look(run: RunId, job: JobId, todo: Option<set<Edge>>)

  /** An open dequeue: the rows it has locked, the run it is checking, and the run it settled on, if any. */
  datatype Txn = Txn(worker: string, lockSeconds: int, skipped: set<RunId>, jobs: set<JobId>,
                     looking: Option<Look>, chosen: Option<RunId>)
  {
    function Runs(): set<RunId> {
      skipped + (if looking.Some? then {looking.value.run} else {}) + (if chosen.Some? then {chosen.value} else {})
    }

    predicate Idle() {
      looking.None? && chosen.None?
    }
  }

  datatype Split = Split(w: World, open: map<TxnId, Txn>)

  /** Every statement of a dequeue is a step of its own: the query that selects and locks a run, the query for
      the job's dependencies, one query for the newest run of each upstream job, and the commit. */
  datatype SplitAction =
    | Begin(t: TxnId, worker: string, lockSeconds: int)
    | Select(t: TxnId)
    | ReadEdges(t: TxnId)
    | CheckEdge(t: TxnId, e: Edge)
    | Settle(t: TxnId)
    | Commit(t: TxnId)
    | Close(t: TxnId)
    | Meanwhile(a: Action)

  /** The rows that transactions other than t hold. */
  function HeldByOthers(s: Split, t: TxnId): Busy {
    Busy(set u, r | u in s.open && u != t && r in s.open[u].Runs() :: r,
         set u, j | u in s.open && u != t && j in s.open[u].jobs :: j)
  }

  /** A step of any other session waits for, or skips, locked rows: it changes none of them. */
  predicate RespectsLocks(s: Split, a: Action) {
    && (forall u, r | u in s.open && r in s.open[u].Runs() && r in s.w.runs ::
          Survives(s.w, a, r) && MoveOf(s.w, a, r) == Stay)
    && (forall u, j | u in s.open && j in s.open[u].jobs && j in s.w.jobs ::
          j in Step(s.w, a).jobs && Step(s.w, a).jobs[j] == s.w.jobs[j])
  }

  function EdgesOf(w: World, j: JobId): set<Edge> {
    set d | d in w.deps && d.0 == j :: (d.1, w.deps[d])
  }

  /** What a statement of the skip loop does to its own session: the oldest pending run that nobody else holds
      and that was not skipped yet is locked with its job; the job's dependencies are read, and looked up one
      by one; at the first that does not hold the run is skipped; when all have held it is the choice. */
  function Looked(s: Split, t: TxnId, x: SplitAction): Txn
    requires t in s.open
  {
    var txn := s.open[t];
    match x
    case Select(_) =>
      var found := FindNextRunToLock(s.w, HeldByOthers(s, t), txn.skipped);
      if !txn.Idle() || found.None? then txn
      else
        var j := s.w.runs[found.value].job;
        txn.(looking := Some(Look(found.value, j, None)), jobs := txn.jobs + {j})
    case ReadEdges(_) =>
      if txn.looking.None? || txn.looking.value.todo.Some? then txn
      else txn.(looking := Some(txn.looking.value.(todo := Some(EdgesOf(s.w, txn.looking.value.job)))))
    case CheckEdge(_, e) =>
      if txn.looking.None? || txn.looking.value.todo.None? || e !in txn.looking.value.todo.value then txn
      else if EdgeMet(s.w, e.0, e.1) then
        txn.(looking := Some(txn.looking.value.(todo := Some(txn.looking.value.todo.value - {e}))))
      else txn.(looking := None, skipped := txn.skipped + {txn.looking.value.run})
    case Settle(_) =>
      if txn.looking.None? || txn.looking.value.todo != Some({}) || txn.chosen.Some? then txn
      else txn.(looking := None, chosen := Some(txn.looking.value.run))
    case _ => txn
  }

  function SplitStep(s: Split, x: SplitAction): Split {
    match x
    case Begin(t, worker, secs) =>
      if t in s.open then s else s.(open := s.open[t := Txn(worker, secs, {}, {}, None, None)])
    case Select(t) => if t in s.open then s.(open := s.open[t := Looked(s, t, x)]) else s
    case ReadEdges(t) => if t in s.open then s.(open := s.open[t := Looked(s, t, x)]) else s
    case CheckEdge(t, _) => if t in s.open then s.(open := s.open[t := Looked(s, t, x)]) else s
    case Settle(t) => if t in s.open then s.(open := s.open[t := Looked(s, t, x)]) else s
    case Commit(t) =>
      if t in s.open && s.open[t].chosen.Some? && s.open[t].chosen.value in s.w.runs then
        var txn, r := s.open[t], s.open[t].chosen.value;
        Split(SetRun(s.w, r, Claimed(s.w.runs[r], txn.worker, txn.lockSeconds, s.w.now)), s.open - {t})
      else s
    case Close(t) => s.(open := s.open - {t})
    case Meanwhile(a) => if RespectsLocks(s, a) then s.(w := Step(s.w, a)) else s
  }

  ghost predicate SplitStepAt(ss: seq<Split>, xs: seq<SplitAction>, k: nat)
    requires |ss| == |xs| + 1 && k < |xs|
  {
    ss[k + 1] == SplitStep(ss[k], xs[k])
  }

  ghost predicate SplitHistory(ss: seq<Split>, xs: seq<SplitAction>) {
    && |ss| == |xs| + 1
    && Initial(ss[0].w) && ss[0].open == map[]
    && forall k | 0 <= k < |xs| :: SplitStepAt(ss, xs, k)
  }

  // ---------------------------------------------------------------- mutual exclusion

  /** What a lock stands for: the run is still pending, and its job, locked too, is still on. */
  predicate Holds(w: World, txn: Txn, r: RunId) {
    && r in w.runs && w.runs[r].status.Pending?
    && w.runs[r].job in w.jobs && w.runs[r].job in txn.jobs
    && w.jobs[w.runs[r].job].enabled && w.jobs[w.runs[r].job].status.On()
  }

  predicate Apart(s: Split, t: TxnId, u: TxnId)
    requires t in s.open && u in s.open
  {
    s.open[t].Runs() !! s.open[u].Runs() && s.open[t].jobs !! s.open[u].jobs
  }

  predicate LocksOk(s: Split) {
    && (forall t, r | t in s.open && r in s.open[t].Runs() :: Holds(s.w, s.open[t], r))
    && (forall t, j | t in s.open && j in s.open[t].jobs :: j in s.w.jobs)
    && (forall t, u | t in s.open && u in s.open && t != u :: Apart(s, t, u))
  }

  lemma SelectKeepsLocks(s: Split, t: TxnId)
    requires LocksOk(s) && t in s.open
    ensures LocksOk(SplitStep(s, Select(t)))
  {
    hide FindNextRunToLock;
    var s', busy := SplitStep(s, Select(t)), HeldByOthers(s, t);
    FoundIsOldest(s.w, busy, s.open[t].skipped);
    forall u | u in s'.open && u != t
      ensures Apart(s', t, u) && Apart(s', u, t)
    {
      assert Apart(s, t, u) && Apart(s, u, t);
      assert s'.open[u] == s.open[u];
      assert forall r | r in s.open[u].Runs() :: r in busy.runs;
      assert forall j | j in s.open[u].jobs :: j in busy.jobs;
    }
    forall u, v | u in s'.open && v in s'.open && u != v
      ensures Apart(s', u, v)
    {
      if u != t && v != t {
        assert Apart(s, u, v);
      }
    }
    forall u, r | u in s'.open && r in s'.open[u].Runs()
      ensures Holds(s'.w, s'.open[u], r)
    {
      if r in s.open[u].Runs() {
        assert Holds(s.w, s.open[u], r);
      }
    }
  }

  /** The other statements lock nothing and give nothing back. */
  lemma LookingKeepsRows(s: Split, t: TxnId, x: SplitAction)
    requires t in s.open && !x.Select?
    ensures Looked(s, t, x).Runs() == s.open[t].Runs() && Looked(s, t, x).jobs == s.open[t].jobs
  {
    hide EdgeMet, EdgesOf;
  }

  lemma SameRowsKeepLocks(s: Split, t: TxnId, txn: Txn)
    requires LocksOk(s) && t in s.open && txn.Runs() == s.open[t].Runs() && txn.jobs == s.open[t].jobs
    ensures LocksOk(s.(open := s.open[t := txn]))
  {
    var s' := s.(open := s.open[t := txn]);
    forall u, v | u in s'.open && v in s'.open && u != v
      ensures Apart(s', u, v)
    {
      assert Apart(s, u, v);
    }
    forall u, r | u in s'.open && r in s'.open[u].Runs()
      ensures Holds(s'.w, s'.open[u], r)
    {
      assert Holds(s.w, s.open[u], r);
    }
  }

  lemma CommitKeepsLocks(s: Split, t: TxnId)
    requires LocksOk(s) && t in s.open && s.open[t].chosen.Some? && s.open[t].chosen.value in s.w.runs
    ensures LocksOk(SplitStep(s, Commit(t)))
  {
    hide Claimed;
    var s', r := SplitStep(s, Commit(t)), s.open[t].chosen.value;
    assert r in s.open[t].Runs();
    forall u, q | u in s'.open && q in s'.open[u].Runs()
      ensures Holds(s'.w, s'.open[u], q)
    {
      assert Apart(s, t, u) && Holds(s.w, s.open[u], q);
    }
    forall u, v | u in s'.open && v in s'.open && u != v
      ensures Apart(s', u, v)
    {
      assert Apart(s, u, v);
    }
  }

  lemma MeanwhileKeepsLocks(s: Split, a: Action)
    requires LocksOk(s) && IdsBelow(s.w) && RespectsLocks(s, a)
    ensures LocksOk(s.(w := Step(s.w, a)))
  {
    hide Step, Births, MoveOf, JobsFollow, Survives;
    StepFollows(s.w, a);
    var s' := s.(w := Step(s.w, a));
    forall u, r | u in s'.open && r in s'.open[u].Runs()
      ensures Holds(s'.w, s'.open[u], r)
    {
      assert Holds(s.w, s.open[u], r);
    }
    forall u, v | u in s'.open && v in s'.open && u != v
      ensures Apart(s', u, v)
    {
      assert Apart(s, u, v);
    }
  }

  lemma FewerLocks(s: Split, t: TxnId)
    requires LocksOk(s)
    ensures LocksOk(s.(open := s.open - {t}))
  {
    var s' := s.(open := s.open - {t});
    forall u, v | u in s'.open && v in s'.open && u != v
      ensures Apart(s', u, v)
    {
      assert Apart(s, u, v);
    }
  }

  lemma EmptyTxn(s: Split, t: TxnId, worker: string, secs: int)
    requires LocksOk(s) && t !in s.open
    ensures LocksOk(s.(open := s.open[t := Txn(worker, secs, {}, {}, None, None)]))
  {
    var s' := s.(open := s.open[t := Txn(worker, secs, {}, {}, None, None)]);
    forall u, v | u in s'.open && v in s'.open && u != v
      ensures Apart(s', u, v)
    {
      if u != t && v != t {
        assert Apart(s, u, v);
      }
    }
  }

  lemma LocksKept(s: Split, x: SplitAction)
    requires LocksOk(s) && IdsBelow(s.w)
    ensures LocksOk(SplitStep(s, x))
  {
    hide LocksOk, RespectsLocks, Looked, Step;
    match x {
      case Begin(t, worker, secs) =>
        if t !in s.open {
          EmptyTxn(s, t, worker, secs);
        }
      case Select(t) =>
        if t in s.open {
          SelectKeepsLocks(s, t);
        }
      case ReadEdges(t) =>
        if t in s.open {
          LookingKeepsRows(s, t, x);
          SameRowsKeepLocks(s, t, Looked(s, t, x));
        }
      case CheckEdge(t, _) =>
        if t in s.open {
          LookingKeepsRows(s, t, x);
          SameRowsKeepLocks(s, t, Looked(s, t, x));
        }
      case Settle(t) =>
        if t in s.open {
          LookingKeepsRows(s, t, x);
          SameRowsKeepLocks(s, t, Looked(s, t, x));
        }
      case Commit(t) =>
        if t in s.open && s.open[t].chosen.Some? && s.open[t].chosen.value in s.w.runs {
          CommitKeepsLocks(s, t);
        }
      case Close(t) => FewerLocks(s, t);
      case Meanwhile(a) =>
        if RespectsLocks(s, a) {
          MeanwhileKeepsLocks(s, a);
        }
    }
  }

  // ---------------------------------------------------------------- refinement

  /** The atomic step that a split step amounts to; selecting and locking amount to no step at all. */
  function Atomic(s: Split, x: SplitAction): Action {
    match x
    case Commit(t) =>
      if t in s.open && s.open[t].chosen.Some? && s.open[t].chosen.value in s.w.runs then
        PullOldest(s.open[t].worker, s.open[t].lockSeconds, Busy(s.w.runs.Keys - {s.open[t].chosen.value}, {}))
      else Tick(0)
    case Meanwhile(a) => if RespectsLocks(s, a) then a else Tick(0)
    case _ => Tick(0)
  }

  lemma OnlyOneFree(w: World, r: RunId)
    requires IdsBelow(w) && r in w.runs && Lockable(w, IDLE, r)
    ensures FindNextRunToLock(w, Busy(w.runs.Keys - {r}, {}), {}) == Some(r)
  {
    hide Blocked;
    var busy := Busy(w.runs.Keys - {r}, {});
    assert Lockable(w, busy, r) && forall q | Lockable(w, busy, q) :: q == r;
  }

  lemma SplitStepIsAtomic(s: Split, x: SplitAction)
    requires LocksOk(s) && IdsBelow(s.w)
    ensures SplitStep(s, x).w == Step(s.w, Atomic(s, x))
  {
    hide RespectsLocks, FindNextRunToLock, Looked, Claimed;
    if x.Commit? && x.t in s.open && s.open[x.t].chosen.Some? && s.open[x.t].chosen.value in s.w.runs {
      var r := s.open[x.t].chosen.value;
      assert r in s.open[x.t].Runs() && Holds(s.w, s.open[x.t], r);
      OnlyOneFree(s.w, r);
    }
  }

  ghost predicate SplitOk(ss: seq<Split>, k: nat)
    requires k < |ss|
  {
    LocksOk(ss[k]) && Inv(ss[k].w)
  }

  lemma {:induction false} SplitAlways(ss: seq<Split>, xs: seq<SplitAction>, n: nat)
    requires SplitHistory(ss, xs) && n < |ss|
    ensures SplitOk(ss, n)
  {
    hide LocksOk, Inv, SplitStep, Step, Atomic;
    if n == 0 {
      StartOk(ss[0]);
    } else {
      SplitAlways(ss, xs, n - 1);
      assert SplitStepAt(ss, xs, n - 1);
      InvNames(ss[n - 1].w);
      LocksKept(ss[n - 1], xs[n - 1]);
      SplitStepIsAtomic(ss[n - 1], xs[n - 1]);
      InvKept(ss[n - 1].w, Atomic(ss[n - 1], xs[n - 1]));
    }
  }

  lemma StartOk(s: Split)
    requires Initial(s.w) && s.open == map[]
    ensures LocksOk(s) && Inv(s.w)
  {
  }

  /** In every interleaving: no run and no job is locked by two open transactions, and whatever run a
      transaction holds is still pending, under a job that is still on. */
  lemma NoRowLockedTwice(ss: seq<Split>, xs: seq<SplitAction>, n: nat, t: TxnId, u: TxnId)
    requires SplitHistory(ss, xs) && n < |ss| && t in ss[n].open && u in ss[n].open && t != u
    ensures Apart(ss[n], t, u)
    ensures forall r | r in ss[n].open[t].Runs() :: Holds(ss[n].w, ss[n].open[t], r)
  {
    hide Inv;
    SplitAlways(ss, xs, n);
  }

  function Tables(ss: seq<Split>): seq<World> {
    seq(|ss|, k requires 0 <= k < |ss| => ss[k].w)
  }

  function AtomicSteps(ss: seq<Split>, xs: seq<SplitAction>): seq<Action>
    requires |ss| == |xs| + 1
  {
    seq(|xs|, k requires 0 <= k < |xs| => Atomic(ss[k], xs[k]))
  }

  /** Every interleaving of split dequeues is, table state by table state, a history of the atomic
      protocol: locks make the commit of a selection a single step. */
  lemma SplitRefinesAtomic(ss: seq<Split>, xs: seq<SplitAction>)
    requires SplitHistory(ss, xs)
    ensures History(Tables(ss), AtomicSteps(ss, xs))
  {
    hide LocksOk, Inv, SplitStep, Step, Atomic;
    var tr, acts := Tables(ss), AtomicSteps(ss, xs);
    forall k | 0 <= k < |acts|
      ensures StepAt(tr, acts, k)
    {
      SplitAlways(ss, xs, k);
      assert SplitStepAt(ss, xs, k);
      InvNames(ss[k].w);
      SplitStepIsAtomic(ss[k], xs[k]);
    }
  }

  /** Commit number k of a history claims run r. */
  predicate Commits(s: Split, x: SplitAction, r: RunId) {
    x.Commit? && x.t in s.open && s.open[x.t].chosen == Some(r) && r in s.w.runs
  }

  lemma CommitGrants(s: Split, x: SplitAction, r: RunId)
    requires LocksOk(s) && IdsBelow(s.w) && Commits(s, x, r)
    ensures Grants(s.w, Atomic(s, x), r) && Atomic(s, x).lockSeconds == s.open[x.t].lockSeconds
  {
    hide RespectsLocks, FindNextRunToLock, Step;
    assert r in s.open[x.t].Runs() && Holds(s.w, s.open[x.t], r);
    OnlyOneFree(s.w, r);
  }

  /** Two workers that select concurrently never both claim one pending incarnation of a run: between two
      commits of the same run the lease of the first has run out. */
  lemma CommittedLeasesAreDisjoint(ss: seq<Split>, xs: seq<SplitAction>, i: nat, j: nat, r: RunId)
    requires SplitHistory(ss, xs) && i < j < |xs|
    requires Commits(ss[i], xs[i], r) && Commits(ss[j], xs[j], r)
    ensures ss[i].w.now + ss[i].open[xs[i].t].lockSeconds * SECOND < ss[j].w.now
  {
    hide LocksOk, Inv, SplitStep, Step, Atomic, Grants;
    SplitRefinesAtomic(ss, xs);
    SplitAlways(ss, xs, i);
    SplitAlways(ss, xs, j);
    InvNames(ss[i].w);
    InvNames(ss[j].w);
    CommitGrants(ss[i], xs[i], r);
    CommitGrants(ss[j], xs[j], r);
    LeasesAreDisjoint(Tables(ss), AtomicSteps(ss, xs), i, j, r);
  }
}
