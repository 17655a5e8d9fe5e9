/** Leases over whole histories: successive claims of a run never overlap, and every claim of a run answers
    exactly one notification that the run became pending. */
module Leases {
  import opened Basics
  import opened Rows
  import opened Operations
  import opened Protocol
  import opened Invariants

  /** This step hands run r to a worker. */
  predicate Grants(w: World, a: Action, r: RunId) {
    r in w.runs && MoveOf(w, a, r).Take?
  }

  // ---------------------------------------------------------------- exclusion

  /** While a lease that lasts until `until` is not over, nobody can take the run. */
  predicate Guarded(w: World, r: RunId, until: Time) {
    r in w.runs ==>
      || until < w.now
      || (!w.runs[r].status.Pending? && (w.runs[r].lockedUntil == Some(until) || w.runs[r].lockedUntil.None?))
  }

  lemma MoveKeepsGuard(row: RunRow, now: Time, m: Move, until: Time)
    requires Open(row, now, m) && now <= until
    requires !row.status.Pending? && (row.lockedUntil == Some(until) || row.lockedUntil.None?)
    ensures var row' := Moved(row, now, m);
            !row'.status.Pending? && (row'.lockedUntil == Some(until) || row'.lockedUntil.None?)
  {
  }

  lemma GuardKept(w: World, a: Action, w': World, r: RunId, until: Time)
    requires IdsBelow(w) && Follows(w, a, w') && r < w.nextRun
    requires Guarded(w, r, until)
    ensures Guarded(w', r, until)
  {
    hide MoveOf, Births, JobsFollow, Moved;
    if r in w'.runs && w.now <= until {
      assert r in w.runs && Survives(w, a, r);
      MoveKeepsGuard(w.runs[r], w.now, MoveOf(w, a, r), until);
    }
  }

  lemma {:induction false} GuardLasts(tr: seq<World>, acts: seq<Action>, i: nat, j: nat, r: RunId, until: Time)
    requires Trace(tr, acts) && i <= j < |tr| && r < tr[i].nextRun
    requires Guarded(tr[i], r, until)
    ensures Guarded(tr[j], r, until)
  {
    hide Follows, Inv, Guarded;
    if i < j {
      GuardLasts(tr, acts, i, j - 1, r, until);
      Forward(tr, acts, i, j - 1);
      assert FollowsAt(tr, acts, j - 1) && InvAt(tr, j - 1);
      InvNames(tr[j - 1]);
      GuardKept(tr[j - 1], acts[j - 1], tr[j], r, until);
    }
  }

  lemma GrantSetsLease(w: World, a: Action, w': World, r: RunId)
    requires Inv(w) && Follows(w, a, w') && Grants(w, a, r)
    ensures r in w.runs && w.runs[r].status.Pending? && r in w'.runs && r < w.nextRun
    ensures (a.Pull? || a.PullOldest?) && w'.runs[r] == Claimed(w.runs[r], a.worker, a.lockSeconds, w.now)
    ensures w'.runs[r].lockedUntil == Some(w.now + a.lockSeconds * SECOND) && !w'.runs[r].status.Pending?
  {
    hide Births, JobsFollow, Choice, FindNextRunToLock, JobOk, RunOk, ParentOk, EdgesOk, NamesUnique;
  }

  /** For every run and every history, the lease of a claim is over, strictly, before the next claim of
      the run; it lasts exactly the lock time from the moment of the claim. */
  lemma LeasesAreDisjoint(tr: seq<World>, acts: seq<Action>, i: nat, j: nat, r: RunId)
    requires History(tr, acts) && i < j < |acts|
    requires Grants(tr[i], acts[i], r) && Grants(tr[j], acts[j], r)
    ensures r in tr[i + 1].runs && (acts[i].Pull? || acts[i].PullOldest?)
    ensures tr[i + 1].runs[r].lockedUntil == Some(tr[i].now + acts[i].lockSeconds * SECOND)
    ensures tr[i].now + acts[i].lockSeconds * SECOND < tr[j].now
  {
    hide Follows, Inv, Grants, Step;
    HistoryTrace(tr, acts);
    assert FollowsAt(tr, acts, i) && FollowsAt(tr, acts, j) && InvAt(tr, i) && InvAt(tr, j);
    GrantSetsLease(tr[i], acts[i], tr[i + 1], r);
    GrantSetsLease(tr[j], acts[j], tr[j + 1], r);
    Forward(tr, acts, i, i + 1);
    GuardLasts(tr, acts, i + 1, j, r, tr[i].now + acts[i].lockSeconds * SECOND);
  }

  /** Hence two workers never execute the same run at once, as long as an execution that was given
      `timeout_seconds` ends in time and the lock is at least as long. */
  lemma ExecutionsAreDisjoint(tr: seq<World>, acts: seq<Action>, i: nat, j: nat, r: RunId, ended: Time)
    requires History(tr, acts) && i < j < |acts|
    requires Grants(tr[i], acts[i], r) && Grants(tr[j], acts[j], r)
    requires ended <= tr[i].now + tr[i].runs[r].work.timeoutSeconds * SECOND
    requires (acts[i].Pull? || acts[i].PullOldest?) && tr[i].runs[r].work.timeoutSeconds <= acts[i].lockSeconds
    ensures ended < tr[j].now
  {
    hide History, Grants;
    LeasesAreDisjoint(tr, acts, i, j, r);
  }

  // ---------------------------------------------------------------- notifications

  /** The row trigger's condition: inserted as pending, or updated from another status to pending. */
  predicate Notifies(w: World, w': World, r: RunId) {
    r in w'.runs && w'.runs[r].status.Pending? && (r in w.runs ==> !w.runs[r].status.Pending?)
  }

  predicate Releases(w: World, a: Action, r: RunId) {
    r in w.runs && MoveOf(w, a, r).LetGo?
  }

  function Count(b: bool): nat {
    if b then 1 else 0
  }

  ghost function Notifications(tr: seq<World>, r: RunId, n: nat): nat
    requires n < |tr|
  {
    if n == 0 then 0 else Notifications(tr, r, n - 1) + Count(Notifies(tr[n - 1], tr[n], r))
  }

  ghost function Claims(tr: seq<World>, acts: seq<Action>, r: RunId, n: nat): nat
    requires n < |tr| == |acts| + 1
  {
    if n == 0 then 0 else Claims(tr, acts, r, n - 1) + Count(Grants(tr[n - 1], acts[n - 1], r))
  }

  ghost function Released(tr: seq<World>, acts: seq<Action>, r: RunId, n: nat): nat
    requires n < |tr| == |acts| + 1
  {
    if n == 0 then 0 else Released(tr, acts, r, n - 1) + Count(Releases(tr[n - 1], acts[n - 1], r))
  }

  /** How the three counts of a run fit its present row. */
  predicate Balanced(w: World, r: RunId, notified: nat, claimed: nat, released: nat) {
    && (r < w.nextRun ==> claimed <= notified <= claimed + 1 && notified == released + 1)
    && (r >= w.nextRun ==> notified == 0 && claimed == 0 && released == 0)
    && (r in w.runs && w.runs[r].status.Pending? ==> notified == claimed + 1)
    && (r in w.runs && w.runs[r].lockedBy.Some? ==> claimed == released + 1)
  }

  /** What a move means for the counts: taking needs a pending row, letting go needs a lease. */
  lemma MoveBalance(row: RunRow, now: Time, m: Move)
    requires RunOk(row, now) && Open(row, now, m)
    ensures m.Take? ==> row.status.Pending? && !Moved(row, now, m).status.Pending?
    ensures m.LetGo? ==>
              !row.status.Pending? && Moved(row, now, m).status.Pending? && row.lockedBy.Some?
              && Moved(row, now, m).lockedBy.None?
    ensures !m.LetGo? && !row.status.Pending? ==> !Moved(row, now, m).status.Pending?
    ensures !m.Take? && Moved(row, now, m).lockedBy.Some? ==> row.lockedBy.Some?
  {
  }

  lemma BalanceKept(w: World, a: Action, w': World, r: RunId, notified: nat, claimed: nat, released: nat)
    requires Inv(w) && Follows(w, a, w')
    requires Balanced(w, r, notified, claimed, released)
    ensures Balanced(w', r, notified + Count(Notifies(w, w', r)), claimed + Count(Grants(w, a, r)),
                     released + Count(Releases(w, a, r)))
  {
    hide MoveOf, Births, JobsFollow, Moved, RunOk, JobOk, ParentOk, EdgesOk, NamesUnique, Open;
    if r in w.runs {
      if Survives(w, a, r) {
        MoveBalance(w.runs[r], w.now, MoveOf(w, a, r));
      } else {
        VanishingIsQuiet(w, a, r);
      }
    } else if r in w'.runs {
      BirthsAreFresh(w, a, r - w.nextRun);
    }
  }

  lemma VanishingIsQuiet(w: World, a: Action, r: RunId)
    requires r in w.runs && !Survives(w, a, r)
    ensures MoveOf(w, a, r) == Stay
  {
  }

  lemma {:induction false} AlwaysBalanced(tr: seq<World>, acts: seq<Action>, n: nat, r: RunId)
    requires Trace(tr, acts) && Initial(tr[0]) && n < |tr|
    ensures Balanced(tr[n], r, Notifications(tr, r, n), Claims(tr, acts, r, n), Released(tr, acts, r, n))
  {
    hide Follows, Inv, Grants, Notifies, Releases;
    if n > 0 {
      AlwaysBalanced(tr, acts, n - 1, r);
      assert FollowsAt(tr, acts, n - 1) && InvAt(tr, n - 1);
      BalanceKept(tr[n - 1], acts[n - 1], tr[n], r,
                  Notifications(tr, r, n - 1), Claims(tr, acts, r, n - 1), Released(tr, acts, r, n - 1));
    }
  }

  /** For every run that was ever created and every history: workers claimed it as often as its
      notifications were sent, or once less; every notification but the first is a lease release; a
      pending run has one notification not yet answered; a locked run one claim not yet released. */
  lemma ClaimsMatchNotifications(tr: seq<World>, acts: seq<Action>, n: nat, r: RunId)
    requires History(tr, acts) && n < |tr| && r < tr[n].nextRun
    ensures Claims(tr, acts, r, n) <= Notifications(tr, r, n) <= Claims(tr, acts, r, n) + 1
    ensures Released(tr, acts, r, n) == Notifications(tr, r, n) - 1
    ensures r in tr[n].runs && tr[n].runs[r].status.Pending? ==> Notifications(tr, r, n) == Claims(tr, acts, r, n) + 1
    ensures r in tr[n].runs && tr[n].runs[r].lockedBy.Some? ==> Claims(tr, acts, r, n) == Released(tr, acts, r, n) + 1
  {
    hide Follows, Inv;
    HistoryTrace(tr, acts);
    AlwaysBalanced(tr, acts, n, r);
  }
}
