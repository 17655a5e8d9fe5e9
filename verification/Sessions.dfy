/** What a split dequeue settles on, although the tables change between its statements. */
module Sessions {
  import opened Basics
  import opened Rows
  import opened Operations
  import opened Protocol
  import opened SkipLocked
  import Runs = JobRunService

  /** Statement i of the interleaving: session t, having skipped `skipped`, locks run r of job j. */
  ghost predicate SelectsAt(ss: seq<Split>, xs: seq<SplitAction>, i: nat, t: TxnId, skipped: set<RunId>,
                            r: RunId, j: JobId)
    requires |ss| == |xs| + 1
  {
    && i < |xs| && xs[i] == Select(t) && t in ss[i].open && ss[i].open[t].Idle()
    && FindNextRunToLock(ss[i].w, HeldByOthers(ss[i], t), skipped) == Some(r)
    && ss[i].open[t].skipped == skipped && r in ss[i].w.runs && ss[i].w.runs[r].job == j
  }

  /** Between statements m and n, session t looked up dependency e and found it met. */
  ghost predicate PassedBetween(ss: seq<Split>, xs: seq<SplitAction>, m: nat, n: nat, t: TxnId, e: Edge)
    requires |ss| == |xs| + 1 && n < |ss|
  {
    exists k :: m < k < n && xs[k] == CheckEdge(t, e) && EdgeMet(ss[k].w, e.0, e.1)
  }

  /** Run r was locked at i and its dependencies were read at m; all but `todo` of them have been found met. */
  ghost predicate Inspected(ss: seq<Split>, xs: seq<SplitAction>, i: nat, m: nat, n: nat, t: TxnId,
                            skipped: set<RunId>, r: RunId, j: JobId, todo: set<Edge>)
    requires |ss| == |xs| + 1 && n < |ss|
  {
    && i < m < n && SelectsAt(ss, xs, i, t, skipped, r, j) && xs[m] == ReadEdges(t)
    && todo <= EdgesOf(ss[m].w, j)
    && forall e | e in EdgesOf(ss[m].w, j) && e !in todo :: PassedBetween(ss, xs, m, n, t, e)
  }

  /** Run q was locked at i, its dependencies were read at m, and one of them did not hold at k. */
  ghost predicate Rejected(ss: seq<Split>, xs: seq<SplitAction>, i: nat, m: nat, k: nat, t: TxnId, q: RunId)
    requires |ss| == |xs| + 1 && k < |xs|
  {
    && i < m < k && i < |xs| && q in ss[i].w.runs && t in ss[i].open
    && SelectsAt(ss, xs, i, t, ss[i].open[t].skipped, q, ss[i].w.runs[q].job) && xs[m] == ReadEdges(t)
    && xs[k].CheckEdge? && xs[k].t == t
    && xs[k].e in EdgesOf(ss[m].w, ss[i].w.runs[q].job) && !EdgeMet(ss[k].w, xs[k].e.0, xs[k].e.1)
  }

  /** The statement with which the open transaction t began. */
  ghost function Began(ss: seq<Split>, xs: seq<SplitAction>, n: nat, t: TxnId): (b: nat)
    requires SplitHistory(ss, xs) && n < |ss| && t in ss[n].open
    ensures b < n
  {
    assert n > 0 && SplitStepAt(ss, xs, n - 1);
    if t in ss[n - 1].open then Began(ss, xs, n - 1, t) else n - 1
  }

  // ---------------------------------------------------------------- the state of a session explained

  ghost predicate SkipExplained(ss: seq<Split>, xs: seq<SplitAction>, b: nat, n: nat, t: TxnId, q: RunId)
    requires |ss| == |xs| + 1 && n < |ss|
  {
    exists i: nat, m: nat, k: nat :: b <= i && k < n && Rejected(ss, xs, i, m, k, t, q)
  }

  ghost predicate Selected(ss: seq<Split>, xs: seq<SplitAction>, b: nat, n: nat, t: TxnId, skipped: set<RunId>,
                           r: RunId, j: JobId)
    requires |ss| == |xs| + 1
  {
    exists i: nat :: b <= i < n && SelectsAt(ss, xs, i, t, skipped, r, j)
  }

  ghost predicate Explored(ss: seq<Split>, xs: seq<SplitAction>, b: nat, n: nat, t: TxnId, skipped: set<RunId>,
                           r: RunId, j: JobId, todo: set<Edge>)
    requires |ss| == |xs| + 1 && n < |ss|
  {
    exists i: nat, m: nat :: b <= i && Inspected(ss, xs, i, m, n, t, skipped, r, j, todo)
  }

  ghost predicate LookExplained(ss: seq<Split>, xs: seq<SplitAction>, b: nat, n: nat, t: TxnId, txn: Txn)
    requires |ss| == |xs| + 1 && n < |ss|
  {
    txn.looking.Some? ==>
      var l := txn.looking.value;
      match l.todo
      case None => Selected(ss, xs, b, n, t, txn.skipped, l.run, l.job)
      case Some(todo) => Explored(ss, xs, b, n, t, txn.skipped, l.run, l.job, todo)
  }

  ghost predicate ChoiceExplained(ss: seq<Split>, xs: seq<SplitAction>, b: nat, n: nat, t: TxnId, txn: Txn)
    requires |ss| == |xs| + 1 && n < |ss|
  {
    txn.chosen.Some? ==> exists j :: Explored(ss, xs, b, n, t, txn.skipped, txn.chosen.value, j, {})
  }

  ghost predicate Explained(ss: seq<Split>, xs: seq<SplitAction>, b: nat, n: nat, t: TxnId, txn: Txn)
    requires |ss| == |xs| + 1 && n < |ss|
  {
    && (forall q | q in txn.skipped :: SkipExplained(ss, xs, b, n, t, q))
    && LookExplained(ss, xs, b, n, t, txn) && ChoiceExplained(ss, xs, b, n, t, txn)
    && (txn.looking.Some? ==> txn.chosen.None?)
  }

  lemma StillExplored(ss: seq<Split>, xs: seq<SplitAction>, b: nat, n: nat, t: TxnId, skipped: set<RunId>,
                      r: RunId, j: JobId, todo: set<Edge>)
    requires |ss| == |xs| + 1 && n + 1 < |ss| && Explored(ss, xs, b, n, t, skipped, r, j, todo)
    ensures Explored(ss, xs, b, n + 1, t, skipped, r, j, todo)
  {
    hide SelectsAt, EdgesOf, EdgeMet;
    var i: nat, m: nat :| b <= i && Inspected(ss, xs, i, m, n, t, skipped, r, j, todo);
    forall e | e in EdgesOf(ss[m].w, j) && e !in todo
      ensures PassedBetween(ss, xs, m, n + 1, t, e)
    {
      assert PassedBetween(ss, xs, m, n, t, e);
    }
    assert Inspected(ss, xs, i, m, n + 1, t, skipped, r, j, todo);
  }

  lemma StillSkipped(ss: seq<Split>, xs: seq<SplitAction>, b: nat, n: nat, t: TxnId, q: RunId)
    requires |ss| == |xs| + 1 && n + 1 < |ss| && SkipExplained(ss, xs, b, n, t, q)
    ensures SkipExplained(ss, xs, b, n + 1, t, q)
  {
    hide Rejected;
  }

  lemma StillSelected(ss: seq<Split>, xs: seq<SplitAction>, b: nat, n: nat, t: TxnId, skipped: set<RunId>,
                      r: RunId, j: JobId)
    requires |ss| == |xs| + 1 && n + 1 < |ss| && Selected(ss, xs, b, n, t, skipped, r, j)
    ensures Selected(ss, xs, b, n + 1, t, skipped, r, j)
  {
    hide SelectsAt;
  }

  /** An explanation stays one when others take steps. */
  lemma StillExplained(ss: seq<Split>, xs: seq<SplitAction>, b: nat, n: nat, t: TxnId, txn: Txn)
    requires |ss| == |xs| + 1 && n + 1 < |ss| && Explained(ss, xs, b, n, t, txn)
    ensures Explained(ss, xs, b, n + 1, t, txn)
  {
    hide SkipExplained, Selected, Explored;
    forall q | q in txn.skipped
      ensures SkipExplained(ss, xs, b, n + 1, t, q)
    {
      StillSkipped(ss, xs, b, n, t, q);
    }
    if txn.looking.Some? {
      var l := txn.looking.value;
      if l.todo.None? {
        StillSelected(ss, xs, b, n, t, txn.skipped, l.run, l.job);
      } else {
        StillExplored(ss, xs, b, n, t, txn.skipped, l.run, l.job, l.todo.value);
      }
    }
    if txn.chosen.Some? {
      var j :| Explored(ss, xs, b, n, t, txn.skipped, txn.chosen.value, j, {});
      StillExplored(ss, xs, b, n, t, txn.skipped, txn.chosen.value, j, {});
    }
  }

  // ---------------------------------------------------------------- one statement of the session

  lemma SelectExplained(ss: seq<Split>, xs: seq<SplitAction>, b: nat, n: nat, t: TxnId)
    requires |ss| == |xs| + 1 && n < |xs| && b <= n && t in ss[n].open && xs[n] == Select(t)
    requires Explained(ss, xs, b, n, t, ss[n].open[t])
    ensures Explained(ss, xs, b, n + 1, t, Looked(ss[n], t, xs[n]))
  {
    hide SkipExplained, Selected, Explored, FindNextRunToLock, HeldByOthers;
    StillExplained(ss, xs, b, n, t, ss[n].open[t]);
    var s, txn := ss[n], ss[n].open[t];
    var found := FindNextRunToLock(s.w, HeldByOthers(s, t), txn.skipped);
    if txn.Idle() && found.Some? {
      FoundIsOldest(s.w, HeldByOthers(s, t), txn.skipped);
      assert SelectsAt(ss, xs, n, t, txn.skipped, found.value, s.w.runs[found.value].job);
      NowSelected(ss, xs, b, n, t, txn.skipped, found.value, s.w.runs[found.value].job);
    }
  }

  lemma NowSelected(ss: seq<Split>, xs: seq<SplitAction>, b: nat, n: nat, t: TxnId, skipped: set<RunId>,
                    r: RunId, j: JobId)
    requires |ss| == |xs| + 1 && b <= n && SelectsAt(ss, xs, n, t, skipped, r, j)
    ensures Selected(ss, xs, b, n + 1, t, skipped, r, j)
  {
  }

  lemma ReadExplained(ss: seq<Split>, xs: seq<SplitAction>, b: nat, n: nat, t: TxnId)
    requires |ss| == |xs| + 1 && n < |xs| && t in ss[n].open && xs[n] == ReadEdges(t)
    requires Explained(ss, xs, b, n, t, ss[n].open[t])
    ensures Explained(ss, xs, b, n + 1, t, Looked(ss[n], t, xs[n]))
  {
    hide SkipExplained, EdgesOf, SelectsAt, Explored;
    StillExplained(ss, xs, b, n, t, ss[n].open[t]);
    var txn := ss[n].open[t];
    if txn.looking.Some? && txn.looking.value.todo.None? {
      var l := txn.looking.value;
      var i: nat :| b <= i < n && SelectsAt(ss, xs, i, t, txn.skipped, l.run, l.job);
      assert Inspected(ss, xs, i, n, n + 1, t, txn.skipped, l.run, l.job, EdgesOf(ss[n].w, l.job));
      NowExplored(ss, xs, b, i, n, n + 1, t, txn.skipped, l.run, l.job, EdgesOf(ss[n].w, l.job));
    }
  }

  lemma NowExplored(ss: seq<Split>, xs: seq<SplitAction>, b: nat, i: nat, m: nat, n: nat, t: TxnId,
                    skipped: set<RunId>, r: RunId, j: JobId, todo: set<Edge>)
    requires |ss| == |xs| + 1 && n < |ss| && b <= i && Inspected(ss, xs, i, m, n, t, skipped, r, j, todo)
    ensures Explored(ss, xs, b, n, t, skipped, r, j, todo)
  {
  }

  lemma CheckExplained(ss: seq<Split>, xs: seq<SplitAction>, b: nat, n: nat, t: TxnId)
    requires |ss| == |xs| + 1 && n < |xs| && t in ss[n].open && xs[n].CheckEdge? && xs[n].t == t
    requires Explained(ss, xs, b, n, t, ss[n].open[t])
    ensures Explained(ss, xs, b, n + 1, t, Looked(ss[n], t, xs[n]))
  {
    hide SkipExplained, EdgesOf, SelectsAt, Explored, EdgeMet, Selected;
    StillExplained(ss, xs, b, n, t, ss[n].open[t]);
    var txn := ss[n].open[t];
    if txn.looking.Some? && txn.looking.value.todo.Some? && xs[n].e in txn.looking.value.todo.value {
      var l := txn.looking.value;
      if EdgeMet(ss[n].w, xs[n].e.0, xs[n].e.1) {
        OneMorePassed(ss, xs, b, n, t, txn.skipped, l.run, l.job, l.todo.value);
      } else {
        NowRejected(ss, xs, b, n, t, txn.skipped, l.run, l.job, l.todo.value);
      }
    }
  }

  lemma OneMorePassed(ss: seq<Split>, xs: seq<SplitAction>, b: nat, n: nat, t: TxnId, skipped: set<RunId>,
                      r: RunId, j: JobId, todo: set<Edge>)
    requires |ss| == |xs| + 1 && n < |xs| && xs[n].CheckEdge? && xs[n].t == t
    requires EdgeMet(ss[n].w, xs[n].e.0, xs[n].e.1) && Explored(ss, xs, b, n, t, skipped, r, j, todo)
    ensures Explored(ss, xs, b, n + 1, t, skipped, r, j, todo - {xs[n].e})
  {
    hide SelectsAt, EdgesOf, EdgeMet;
    var i: nat, m: nat :| b <= i && Inspected(ss, xs, i, m, n, t, skipped, r, j, todo);
    forall e | e in EdgesOf(ss[m].w, j) && e !in todo - {xs[n].e}
      ensures PassedBetween(ss, xs, m, n + 1, t, e)
    {
      if e == xs[n].e {
        assert xs[n] == CheckEdge(t, e) && EdgeMet(ss[n].w, e.0, e.1);
      } else {
        assert PassedBetween(ss, xs, m, n, t, e);
      }
    }
    assert Inspected(ss, xs, i, m, n + 1, t, skipped, r, j, todo - {xs[n].e});
  }

  lemma NowRejected(ss: seq<Split>, xs: seq<SplitAction>, b: nat, n: nat, t: TxnId, skipped: set<RunId>,
                    r: RunId, j: JobId, todo: set<Edge>)
    requires |ss| == |xs| + 1 && n < |xs| && xs[n].CheckEdge? && xs[n].t == t && xs[n].e in todo
    requires !EdgeMet(ss[n].w, xs[n].e.0, xs[n].e.1) && Explored(ss, xs, b, n, t, skipped, r, j, todo)
    ensures SkipExplained(ss, xs, b, n + 1, t, r)
  {
    hide FindNextRunToLock, HeldByOthers, EdgesOf, EdgeMet, PassedBetween;
    var i: nat, m: nat :| b <= i && Inspected(ss, xs, i, m, n, t, skipped, r, j, todo);
    assert SelectsAt(ss, xs, i, t, ss[i].open[t].skipped, r, ss[i].w.runs[r].job);
    assert Rejected(ss, xs, i, m, n, t, r);
  }

  lemma SettleExplained(ss: seq<Split>, xs: seq<SplitAction>, b: nat, n: nat, t: TxnId)
    requires |ss| == |xs| + 1 && n < |xs| && t in ss[n].open && xs[n] == Settle(t)
    requires Explained(ss, xs, b, n, t, ss[n].open[t])
    ensures Explained(ss, xs, b, n + 1, t, Looked(ss[n], t, xs[n]))
  {
    hide SkipExplained, Selected, Explored;
    StillExplained(ss, xs, b, n, t, ss[n].open[t]);
  }

  /** Whose statement it is, and what it does to an open transaction. */
  lemma TxnStep(s: Split, x: SplitAction, t: TxnId)
    requires t in SplitStep(s, x).open
    ensures t !in s.open ==>
              var txn := SplitStep(s, x).open[t]; txn.skipped == {} && txn.Idle()
    ensures t in s.open && (x == Select(t) || x == ReadEdges(t) || (x.CheckEdge? && x.t == t) || x == Settle(t)) ==>
              SplitStep(s, x).open[t] == Looked(s, t, x)
    ensures t in s.open && !(x == Select(t) || x == ReadEdges(t) || (x.CheckEdge? && x.t == t) || x == Settle(t)) ==>
              SplitStep(s, x).open[t] == s.open[t]
  {
    hide RespectsLocks, Step, Claimed, Looked;
  }

  lemma {:induction false} SessionExplained(ss: seq<Split>, xs: seq<SplitAction>, n: nat, t: TxnId)
    requires SplitHistory(ss, xs) && n < |ss| && t in ss[n].open
    ensures Explained(ss, xs, Began(ss, xs, n, t), n, t, ss[n].open[t])
  {
    hide SplitStep, Explained, Looked;
    assert n > 0 && SplitStepAt(ss, xs, n - 1);
    var x := xs[n - 1];
    TxnStep(ss[n - 1], x, t);
    if t in ss[n - 1].open {
      SessionExplained(ss, xs, n - 1, t);
      var b := Began(ss, xs, n - 1, t);
      if x == Select(t) {
        SelectExplained(ss, xs, b, n - 1, t);
      } else if x == ReadEdges(t) {
        ReadExplained(ss, xs, b, n - 1, t);
      } else if x.CheckEdge? && x.t == t {
        CheckExplained(ss, xs, b, n - 1, t);
      } else if x == Settle(t) {
        SettleExplained(ss, xs, b, n - 1, t);
      } else {
        StillExplained(ss, xs, b, n - 1, t, ss[n].open[t]);
      }
    } else {
      NothingToExplain(ss, xs, n - 1, n, t, ss[n].open[t]);
    }
  }

  lemma NothingToExplain(ss: seq<Split>, xs: seq<SplitAction>, b: nat, n: nat, t: TxnId, txn: Txn)
    requires |ss| == |xs| + 1 && n < |ss| && txn.skipped == {} && txn.Idle()
    ensures Explained(ss, xs, b, n, t, txn)
  {
  }

  // ---------------------------------------------------------------- what is committed

  /** For every commit of every interleaving, whatever others commit between the statements of the session: the
      run was locked at statement i, when every older run that could be taken had been skipped; the
      dependencies of its job were read at statement m, and each was then looked up and found met; and every
      skipped run had been locked, too, and one of the dependencies then read was found unmet. */
  lemma CommitWasOldestReady(ss: seq<Split>, xs: seq<SplitAction>, n: nat, r: RunId)
    returns (i: nat, m: nat, j: JobId, skipped: set<RunId>)
    requires SplitHistory(ss, xs) && n < |xs| && Commits(ss[n], xs[n], r)
    ensures var t := xs[n].t;
            && Began(ss, xs, n, t) <= i < m < n && SelectsAt(ss, xs, i, t, skipped, r, j) && xs[m] == ReadEdges(t)
            && (forall q: RunId | q < r && Lockable(ss[i].w, HeldByOthers(ss[i], t), q) :: q in skipped)
            && (forall e | e in EdgesOf(ss[m].w, j) :: PassedBetween(ss, xs, m, n, t, e))
            && (forall q | q in skipped :: SkipExplained(ss, xs, Began(ss, xs, n, t), n, t, q))
  {
    hide SplitStep, Step, HeldByOthers, SkipExplained, PassedBetween, EdgesOf;
    var t := xs[n].t;
    var b := Began(ss, xs, n, t);
    SessionExplained(ss, xs, n, t);
    skipped := ss[n].open[t].skipped;
    j :| Explored(ss, xs, b, n, t, skipped, r, j, {});
    i, m :| b <= i && Inspected(ss, xs, i, m, n, t, skipped, r, j, {});
    OlderWereSkipped(ss[i].w, HeldByOthers(ss[i], t), skipped, r);
  }

  lemma OlderWereSkipped(w: World, busy: Busy, skipped: set<RunId>, r: RunId)
    requires FindNextRunToLock(w, busy, skipped) == Some(r)
    ensures forall q: RunId | q < r && Lockable(w, busy, q) :: q in skipped
  {
    hide Lockable;
  }

  // ---------------------------------------------------------------- sessions that nobody disturbs

  /** The rows on which the choice of a run depends. */
  predicate SameQueue(w: World, w': World) {
    w.jobs == w'.jobs && w.runs == w'.runs && w.nextRun == w'.nextRun && w.deps == w'.deps
  }

  lemma SameEdge(w: World, w': World, u: JobId, required: RunStatus)
    requires SameQueue(w, w')
    ensures EdgeMet(w, u, required) <==> EdgeMet(w', u, required)
  {
  }

  lemma SameDeps(w: World, w': World, j: JobId)
    requires SameQueue(w, w')
    ensures DepsSatisfied(w, j) <==> DepsSatisfied(w', j)
  {
    hide EdgeMet;
    forall e | e in w.deps
      ensures EdgeMet(w, e.1, w.deps[e]) <==> EdgeMet(w', e.1, w.deps[e])
    {
      SameEdge(w, w', e.1, w.deps[e]);
    }
  }

  lemma RejectedIsBlocked(ss: seq<Split>, xs: seq<SplitAction>, b: nat, n: nat, t: TxnId, q: RunId)
    requires |ss| == |xs| + 1 && n < |ss| && SkipExplained(ss, xs, b, n, t, q)
    requires forall k | b <= k <= n :: SameQueue(ss[k].w, ss[n].w)
    ensures q in Blocked(ss[n].w)
  {
    hide FindNextRunToLock, HeldByOthers, EdgeMet;
    var i: nat, m: nat, k: nat :| b <= i && k < n && Rejected(ss, xs, i, m, k, t, q);
    assert SameQueue(ss[i].w, ss[n].w) && SameQueue(ss[m].w, ss[n].w) && SameQueue(ss[k].w, ss[n].w);
    FoundIsOldest(ss[i].w, HeldByOthers(ss[i], t), ss[i].open[t].skipped);
    SameEdge(ss[k].w, ss[n].w, xs[k].e.0, xs[k].e.1);
    var d :| d in ss[m].w.deps && d.0 == ss[i].w.runs[q].job && (d.1, ss[m].w.deps[d]) == xs[k].e;
    assert !EdgeMet(ss[n].w, d.1, ss[n].w.deps[d]);
  }

  lemma AllPassed(ss: seq<Split>, xs: seq<SplitAction>, m: nat, n: nat, t: TxnId, j: JobId)
    requires |ss| == |xs| + 1 && m <= n < |ss|
    requires forall k | m <= k <= n :: SameQueue(ss[k].w, ss[n].w)
    requires forall e | e in EdgesOf(ss[m].w, j) :: PassedBetween(ss, xs, m, n, t, e)
    ensures DepsSatisfied(ss[n].w, j)
  {
    hide EdgeMet;
    assert SameQueue(ss[m].w, ss[n].w);
    forall d | d in ss[n].w.deps && d.0 == j
      ensures EdgeMet(ss[n].w, d.1, ss[n].w.deps[d])
    {
      var e: Edge := (d.1, ss[m].w.deps[d]);
      assert e in EdgesOf(ss[m].w, j);
      assert PassedBetween(ss, xs, m, n, t, e);
      var k :| m < k < n && xs[k] == CheckEdge(t, e) && EdgeMet(ss[k].w, e.0, e.1);
      assert SameQueue(ss[k].w, ss[n].w);
      SameEdge(ss[k].w, ss[n].w, e.0, e.1);
    }
  }

  /** If nobody else changed the tables between the beginning and the commit of a session, the commit is the
      atomic dequeue with its dependency check, among the rows that others held when the run was locked. */
  lemma UndisturbedCommitIsDequeue(ss: seq<Split>, xs: seq<SplitAction>, n: nat, r: RunId) returns (busy: Busy)
    requires SplitHistory(ss, xs) && n < |xs| && Commits(ss[n], xs[n], r)
    requires forall k | Began(ss, xs, n, xs[n].t) <= k <= n :: SameQueue(ss[k].w, ss[n].w)
    ensures exists i :: Began(ss, xs, n, xs[n].t) <= i < n && busy == HeldByOthers(ss[i], xs[n].t)
    ensures Choice(ss[n].w, busy) == Some(r)
    ensures SplitStep(ss[n], xs[n]).w
            == Step(ss[n].w, Pull(ss[n].open[xs[n].t].worker, ss[n].open[xs[n].t].lockSeconds, busy))
  {
    hide SkipExplained, PassedBetween, DepsSatisfied, HeldByOthers, FindNextRunToLock, Blocked, Claimed, Lockable;
    hide EdgesOf;
    var i, m, j, skipped := CommitWasOldestReady(ss, xs, n, r);
    var t, w := xs[n].t, ss[i].w;
    busy := HeldByOthers(ss[i], t);
    assert SameQueue(w, ss[n].w);
    AllPassed(ss, xs, m, n, t, j);
    SameDeps(w, ss[n].w, j);
    forall q | q in skipped
      ensures q in Blocked(ss[n].w)
    {
      RejectedIsBlocked(ss, xs, Began(ss, xs, n, t), n, t, q);
    }
    SameChoice(w, ss[n].w, busy);
    Runs.SkippingIsSafe(w, busy, skipped);
  }

  lemma SameChoice(w: World, w': World, busy: Busy)
    requires SameQueue(w, w')
    ensures Blocked(w) == Blocked(w') && Choice(w, busy) == Choice(w', busy)
  {
    hide DepsSatisfied;
    forall j
      ensures DepsSatisfied(w, j) <==> DepsSatisfied(w', j)
    {
      SameDeps(w, w', j);
    }
    assert Blocked(w) == Blocked(w');
    SameSearch(w, w', busy, Blocked(w), 0);
  }

  lemma {:induction false} SameSearch(w: World, w': World, busy: Busy, excluded: set<RunId>, from: RunId)
    requires SameQueue(w, w') && from <= w.nextRun
    ensures FirstLockable(w, busy, excluded, from) == FirstLockable(w', busy, excluded, from)
    decreases w.nextRun - from
  {
    assert Lockable(w, busy, from) <==> Lockable(w', busy, from);
    if from < w.nextRun {
      SameSearch(w, w', busy, excluded, from + 1);
    }
  }
}
