/** Repair work is never dropped: what `enqueue_replay` promises until a later claim commits. */
module Repair {
  import opened Types
  import opened Ledger
  import opened System
  import opened Traces

  /** An unfinished replay of run `r` that is waiting, or held by the run's newest claim, which
      was taken after fence `f`. */
  ghost predicate LiveReplay(s: State, k: nat, r: nat, f: nat) {
    && k < |s.attempts| && r < |s.runs|
    && s.attempts[k].run == r && s.attempts[k].kind == ReplayAttempt && s.attempts[k].outcome.None?
    && (s.attempts[k].fence.None? || (s.attempts[k].fence == Some(s.runs[r].fence) && f < s.runs[r].fence))
  }

  /** Run `r` has an unfinished replay. */
  ghost predicate HasOpenReplay(s: State, r: nat) {
    exists k :: 0 <= k < |s.attempts| && OpenReplayOf(s.attempts[k], r)
  }

  predicate OpenReplayOf(a: RunAttempt, r: nat) {
    a.run == r && a.kind == ReplayAttempt && a.outcome.None?
  }

  /** The repair asked for when run `r` had fence `f` is still owed. */
  ghost predicate Owed(s: State, r: nat, f: nat) {
    && r < |s.runs| && f <= s.runs[r].fence
    && (|| (exists k: nat :: LiveReplay(s, k, r, f))
        || (s.runs[r].state == Captured && f < s.runs[r].fence))
  }

  /** Step `a` is an accepted commit on run `r` by a claim taken after fence `f`. */
  ghost predicate Settles(sys: System, a: Action, r: nat, f: nat) {
    a.Finish? && a.claim.runId == r && Current(sys.ledger, a.claim) && f < a.claim.fence
  }

  /** The gap detector marks run `r` while only its `captured` state stood for the debt. */
  ghost predicate Drops(sys: System, a: Action, r: nat, f: nat) {
    a.Mark? && a.run == r && forall k: nat :: !LiveReplay(sys.ledger, k, r, f)
  }

  lemma OwedByTake(cat: Catalog, sys: System, a: Action, k: nat, r: nat, f: nat)
    requires Inv(cat, sys) && Enabled(sys, a) && a.Take? && a.run == r && Claimable(sys.ledger.runs[r], a.now)
    requires LiveReplay(sys.ledger, k, r, f) && f <= sys.ledger.runs[r].fence
    ensures Owed(Apply(cat, sys, a).ledger, r, f)
  {
    var s := sys.ledger;
    var (t, c) := TakeClaim(s, r, a.owner, a.ttl, a.now);
    var closed := CloseDead(s.attempts, r, a.now);
    assert AttemptOk(sys.bronze, s.runs[r], s.attempts[k]);
    if s.attempts[k].fence.None? {
      assert PendingReplay(closed[k], r);
    } else {
      assert DeadReplay(s.attempts[k], r, a.now);
    }
    assert LiveReplay(t, c.attemptId, r, f);
  }

  lemma OwedByFinish(cat: Catalog, sys: System, a: Action, r: nat, f: nat)
    requires Enabled(sys, a) && a.Finish? && ClaimOk(sys.ledger, a.claim)
    requires Owed(sys.ledger, r, f) && !Settles(sys, a, r, f)
    ensures Owed(Apply(cat, sys, a).ledger, r, f)
  {
    var s, t, c := sys.ledger, Apply(cat, sys, a).ledger, a.claim;
    if k: nat :| LiveReplay(s, k, r, f) {
      assert k != c.attemptId;
      assert t.attempts[k] == s.attempts[k];
      assert LiveReplay(t, k, r, f);
    }
  }

  /** The gap detector aside, only an accepted commit by a later claim ends the debt. */
  lemma StillOwed(cat: Catalog, sys: System, a: Action, r: nat, f: nat)
    requires Inv(cat, sys) && Enabled(sys, a) && Owed(sys.ledger, r, f)
    requires !Settles(sys, a, r, f) && !Drops(sys, a, r, f)
    ensures Owed(Apply(cat, sys, a).ledger, r, f)
  {
    var s, t := sys.ledger, Apply(cat, sys, a).ledger;
    if a.Finish? {
      assert ClaimOk(s, a.claim);
      OwedByFinish(cat, sys, a, r, f);
    } else {
      FenceStep(cat, sys, a, r);
      if k: nat :| LiveReplay(s, k, r, f) {
        if a.Take? && a.run == r && Claimable(s.runs[r], a.now) {
          OwedByTake(cat, sys, a, k, r, f);
        } else if !(a.Recapture? && a.run == r) {
          KeptByOthers(cat, sys, a, k, r, f);
        }
      }
    }
  }

  /** Such a mark always ends the debt, so the condition of `StillOwed` cannot be weakened. */
  lemma DropEndsDebt(cat: Catalog, sys: System, a: Action, r: nat, f: nat)
    requires Enabled(sys, a) && Drops(sys, a, r, f)
    ensures !Owed(Apply(cat, sys, a).ledger, r, f)
  {
    var t := Apply(cat, sys, a).ledger;
    if k: nat :| LiveReplay(t, k, r, f) {
      assert LiveReplay(sys.ledger, k, r, f);
    }
  }

  /** Exactly: short of an accepted commit by a later claim, the debt stands after a step if and only
      if the step is not a parking of the run while only its state stood for it. */
  lemma OwedUnlessDropped(cat: Catalog, sys: System, a: Action, r: nat, f: nat)
    requires Inv(cat, sys) && Enabled(sys, a) && Owed(sys.ledger, r, f) && !Settles(sys, a, r, f)
    ensures Owed(Apply(cat, sys, a).ledger, r, f) <==> !Drops(sys, a, r, f)
  {
    if Drops(sys, a, r, f) {
      DropEndsDebt(cat, sys, a, r, f);
    } else {
      StillOwed(cat, sys, a, r, f);
    }
  }

  lemma KeptByOthers(cat: Catalog, sys: System, a: Action, k: nat, r: nat, f: nat)
    requires Enabled(sys, a) && !a.Finish? && LiveReplay(sys.ledger, k, r, f)
    requires !Supersedes(sys, a, r)
    ensures LiveReplay(Apply(cat, sys, a).ledger, k, r, f)
  {
    FenceStep(cat, sys, a, r);
  }

  /** While the repair is owed the run is captured or has an unfinished replay, and `pending_runs`
      lists it as soon as no unexpired lease holds it. */
  lemma OwedIsListed(cat: Catalog, sys: System, r: nat, f: nat, now: Instant)
    requires Inv(cat, sys) && Owed(sys.ledger, r, f)
    ensures var s := sys.ledger;
      || s.runs[r].state == Captured
      || HasOpenReplay(s, r)
    ensures Claimable(sys.ledger.runs[r], now) ==> IsPending(sys.ledger, r, now)
  {
  }

  /** Neither the debt's end nor the gap detector happens to run `r` at step `k`. */
  ghost predicate Spares(tr: Trace, k: nat, r: nat, f: nat)
    requires k < |tr.actions| < |tr.states|
  {
    !Settles(tr.states[k], tr.actions[k], r, f) && !Drops(tr.states[k], tr.actions[k], r, f)
  }

  ghost predicate DebtKept(tr: Trace, k: nat, r: nat, f: nat)
    requires k < |tr.actions| && |tr.states| == |tr.actions| + 1
  {
    Owed(tr.states[k].ledger, r, f) ==> Owed(tr.states[k + 1].ledger, r, f)
  }

  lemma {:induction false} OwedFold(tr: Trace, i: nat, j: nat, r: nat, f: nat)
    requires |tr.states| == |tr.actions| + 1 && i <= j < |tr.states| && Owed(tr.states[i].ledger, r, f)
    requires forall k :: i <= k < j ==> DebtKept(tr, k, r, f)
    ensures Owed(tr.states[j].ledger, r, f)
    decreases j
  {
    if i < j {
      OwedFold(tr, i, j - 1, r, f);
      assert DebtKept(tr, j - 1, r, f);
    }
  }

  lemma OwedSince(cat: Catalog, tr: Trace, i: nat, j: nat, r: nat, f: nat)
    requires Valid(cat, tr) && i <= j < |tr.states| && Owed(tr.states[i].ledger, r, f)
    requires forall k :: i <= k < j ==> Spares(tr, k, r, f)
    ensures Owed(tr.states[j].ledger, r, f)
  {
    forall k | i <= k < j ensures DebtKept(tr, k, r, f) {
      if Owed(tr.states[k].ledger, r, f) {
        Reachable(cat, tr, k);
        assert Spares(tr, k, r, f);
        assert Steps(cat, tr, k);
        StillOwed(cat, tr.states[k], tr.actions[k], r, f);
      }
    }
    OwedFold(tr, i, j, r, f);
  }

  /** The fence of run `r`. */
  function FenceOf(s: State, r: nat): nat {
    if r < |s.runs| then s.runs[r].fence else 0
  }

  /** Repair is never dropped: once a replay of run `r` was enqueued, and until a commit by a later
      claim is accepted, the run is captured or has an unfinished replay, and it is listed as soon
      as no unexpired lease holds it, unless the gap detector marks the run while
      no live replay stands for it. */
  lemma RepairNeverDropped(cat: Catalog, tr: Trace, i: nat, j: nat, r: nat, now: Instant)
    requires Valid(cat, tr) && i < j < |tr.states| && tr.actions[i].Enqueue? && tr.actions[i].run == r
    requires forall k :: i < k < j ==> Spares(tr, k, r, FenceOf(tr.states[i].ledger, r))
    ensures var s := tr.states[j].ledger;
      && r < |s.runs|
      && (s.runs[r].state == Captured || HasOpenReplay(s, r))
      && (Claimable(s.runs[r], now) ==> IsPending(s, r, now))
  {
    var s, t := tr.states[i].ledger, tr.states[i + 1].ledger;
    var f := FenceOf(s, r);
    assert Steps(cat, tr, i);
    Reachable(cat, tr, i);
    var k := if FirstPending(s.attempts, r).Some? then FirstPending(s.attempts, r).value else |s.attempts|;
    assert PendingReplay(t.attempts[k], r);
    Reachable(cat, tr, i + 1);
    assert AttemptOk(tr.states[i + 1].bronze, t.runs[r], t.attempts[k]);
    assert LiveReplay(t, k, r, f);
    OwedSince(cat, tr, i + 1, j, r, f);
    Reachable(cat, tr, j);
    OwedIsListed(cat, tr.states[j], r, f, now);
  }

  /** No run ever has two pending replays. */
  lemma OnePendingReplay(cat: Catalog, tr: Trace, i: nat, k: nat, l: nat, r: nat)
    requires Valid(cat, tr) && i < |tr.states| && k < |tr.states[i].ledger.attempts|
    requires l < |tr.states[i].ledger.attempts|
    requires PendingReplay(tr.states[i].ledger.attempts[k], r) && PendingReplay(tr.states[i].ledger.attempts[l], r)
    ensures k == l
  {
    Reachable(cat, tr, i);
  }
}
