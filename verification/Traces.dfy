/** Theorems over whole runs: any number of workers, any interleaving, any length. */
module Traces {
  import opened Types
  import opened Ledger
  import opened System
  import Invariant

  datatype Trace = Trace(states: seq<System>, actions: seq<Action>)

  /** A fresh ledger beside a well-formed Bronze: production's start, and the drill's. */
  ghost predicate Start(sys: System) {
    LogOk(sys.bronze) && sys.ledger == EMPTY && sys.claims == {}
  }

  ghost predicate Valid(cat: Catalog, tr: Trace) {
    && |tr.states| == |tr.actions| + 1
    && Start(tr.states[0])
    && forall i :: 0 <= i < |tr.actions| ==> Steps(cat, tr, i)
  }

  /** Action `i` of the run was enabled and led where it went on. */
  ghost predicate Steps(cat: Catalog, tr: Trace, i: nat)
    requires i < |tr.actions| && |tr.states| == |tr.actions| + 1
  {
    Enabled(tr.states[i], tr.actions[i]) && tr.states[i + 1] == Apply(cat, tr.states[i], tr.actions[i])
  }

  /** The run one action longer. */
  ghost function Then(cat: Catalog, tr: Trace, a: Action): (r: Trace)
    requires Valid(cat, tr) && Enabled(tr.states[|tr.actions|], a)
    ensures Valid(cat, r) && r.actions == tr.actions + [a]
    ensures r.states == tr.states + [Apply(cat, tr.states[|tr.actions|], a)]
  {
    var r := Trace(tr.states + [Apply(cat, tr.states[|tr.actions|], a)], tr.actions + [a]);
    assert forall i :: 0 <= i < |tr.actions| ==> (Steps(cat, r, i) <==> Steps(cat, tr, i));
    assert Steps(cat, r, |tr.actions|);
    r
  }

  /** Every reachable state satisfies the invariant. */
  lemma {:induction false} Reachable(cat: Catalog, tr: Trace, i: nat)
    requires Valid(cat, tr) && i < |tr.states|
    ensures Inv(cat, tr.states[i])
  {
    if i > 0 {
      Reachable(cat, tr, i - 1);
      assert Steps(cat, tr, i - 1);
      Invariant.StepKeeps(cat, tr.states[i - 1], tr.actions[i - 1]);
    }
  }

  /** Over any run nothing settled is lost: log entries, named captures, finished attempts, Silver
      rows and occurrences, registrations, decisions; and fences only rise. */
  lemma {:induction false} NothingLost(cat: Catalog, tr: Trace, i: nat, j: nat)
    requires Valid(cat, tr) && i <= j < |tr.states|
    ensures Inv(cat, tr.states[i]) && Inv(cat, tr.states[j])
    ensures Grows(tr.states[i], tr.states[j])
    decreases j
  {
    Reachable(cat, tr, i);
    Reachable(cat, tr, j);
    if i == j {
      Invariant.KeepsOutside(cat, tr.states[i], tr.states[i]);
    } else {
      NothingLost(cat, tr, i, j - 1);
      assert Steps(cat, tr, j - 1);
      Invariant.StepKeeps(cat, tr.states[j - 1], tr.actions[j - 1]);
      Invariant.GrowsTransitive(tr.states[i], tr.states[j - 1], tr.states[j]);
    }
  }

  // ---------------------------------------------------------------- fencing

  /** Step `a` fences off every earlier claim of run `r`: a new claim, or a recapture. */
  ghost predicate Supersedes(sys: System, a: Action, r: nat) {
    && r < |sys.ledger.runs|
    && (|| (a.Take? && a.run == r && Claimable(sys.ledger.runs[r], a.now))
        || (a.Recapture? && a.run == r))
  }

  lemma FenceStep(cat: Catalog, sys: System, a: Action, r: nat)
    requires Enabled(sys, a) && r < |sys.ledger.runs|
    ensures r < |Apply(cat, sys, a).ledger.runs|
    ensures Apply(cat, sys, a).ledger.runs[r].fence == sys.ledger.runs[r].fence + if Supersedes(sys, a, r) then 1 else 0
  {
  }

  /** Step `k` of the run raises the fence of `r` by one if it supersedes, else not at all. */
  ghost predicate FenceMoves(tr: Trace, k: nat, r: nat)
    requires k < |tr.actions| && |tr.states| == |tr.actions| + 1
  {
    r < |tr.states[k].ledger.runs| ==>
      && r < |tr.states[k + 1].ledger.runs|
      && tr.states[k + 1].ledger.runs[r].fence ==
         tr.states[k].ledger.runs[r].fence + if Supersedes(tr.states[k], tr.actions[k], r) then 1 else 0
  }

  lemma {:induction false} FenceFold(tr: Trace, i: nat, j: nat, r: nat)
    requires |tr.states| == |tr.actions| + 1 && i <= j < |tr.states| && r < |tr.states[i].ledger.runs|
    requires forall k :: i <= k < j ==> FenceMoves(tr, k, r)
    ensures r < |tr.states[j].ledger.runs| && tr.states[i].ledger.runs[r].fence <= tr.states[j].ledger.runs[r].fence
    ensures tr.states[i].ledger.runs[r].fence == tr.states[j].ledger.runs[r].fence <==>
            forall k :: i <= k < j ==> !Supersedes(tr.states[k], tr.actions[k], r)
    decreases j
  {
    if i < j {
      FenceFold(tr, i, j - 1, r);
      assert FenceMoves(tr, j - 1, r);
    }
  }

  lemma FenceSince(cat: Catalog, tr: Trace, i: nat, j: nat, r: nat)
    requires Valid(cat, tr) && i <= j < |tr.states| && r < |tr.states[i].ledger.runs|
    ensures r < |tr.states[j].ledger.runs| && tr.states[i].ledger.runs[r].fence <= tr.states[j].ledger.runs[r].fence
    ensures tr.states[i].ledger.runs[r].fence == tr.states[j].ledger.runs[r].fence <==>
            forall k :: i <= k < j ==> !Supersedes(tr.states[k], tr.actions[k], r)
  {
    forall k | i <= k < j ensures FenceMoves(tr, k, r) {
      if r < |tr.states[k].ledger.runs| {
        assert Steps(cat, tr, k);
        FenceStep(cat, tr.states[k], tr.actions[k], r);
      }
    }
    FenceFold(tr, i, j, r);
  }

  /** Claim `c` was handed out by step `i`. */
  ghost predicate HandedOut(tr: Trace, i: nat, c: Claim)
    requires |tr.states| == |tr.actions| + 1
  {
    i < |tr.actions| && tr.actions[i].Take? && c !in tr.states[i].claims && c in tr.states[i + 1].claims
  }

  lemma HandedOutFence(cat: Catalog, tr: Trace, i: nat, c: Claim)
    requires Valid(cat, tr) && HandedOut(tr, i, c)
    ensures c.runId < |tr.states[i + 1].ledger.runs| && tr.states[i + 1].ledger.runs[c.runId].fence == c.fence
    ensures c.runId < |tr.states[i].ledger.runs|
    ensures c.attempt.capture.Some? && c.attempt.capture == tr.states[i].ledger.runs[c.runId].capture
  {
    assert Steps(cat, tr, i);
    var a := tr.actions[i];
    Invariant.ClaimShape(tr.states[i].ledger, a.run, a.owner, a.ttl, a.now);
  }

  /** Fencing: a commit is accepted exactly when, since its claim was handed out, the run was
      neither claimed again nor recaptured; and then the run still names the very capture that
      was claimed, which is the one the attempt names. */
  lemma AcceptedIffNotSuperseded(cat: Catalog, tr: Trace, i: nat, j: nat, c: Claim)
    requires Valid(cat, tr) && HandedOut(tr, i, c)
    requires i < j < |tr.actions| && tr.actions[j].Finish? && tr.actions[j].claim == c
    ensures Current(tr.states[j].ledger, c) <==>
            forall k :: i < k < j ==> !Supersedes(tr.states[k], tr.actions[k], c.runId)
    ensures Current(tr.states[j].ledger, c) ==>
            var s := tr.states[j].ledger;
            && c.attemptId < |s.attempts| && s.attempts[c.attemptId].outcome.None?
            && s.runs[c.runId].capture == s.attempts[c.attemptId].capture == c.attempt.capture
            && s.runs[c.runId].capture.Some?
  {
    HandedOutFence(cat, tr, i, c);
    FenceSince(cat, tr, i + 1, j, c.runId);
    assert Steps(cat, tr, j);
    Reachable(cat, tr, j);
    var s := tr.states[j].ledger;
    assert ClaimOk(s, c);
    assert AttemptOk(tr.states[j].bronze, s.runs[c.runId], s.attempts[c.attemptId]);
  }

  /** Nothing differs but attempt `k`, which is finished now, as `lost_lease` if it was open. */
  ghost predicate OnlyCloses(s: State, t: State, k: nat) {
    && t.runs == s.runs && t.silver == s.silver && t.events == s.events
    && t.derivations == s.derivations && t.invalidations == s.invalidations
    && |t.attempts| == |s.attempts| && k < |s.attempts| && t.attempts[k].outcome.Some?
    && (s.attempts[k].outcome.None? ==> t.attempts[k].outcome == Some(LostLease))
    && forall l :: 0 <= l < |s.attempts| && (l != k || s.attempts[l].outcome.Some?) ==> t.attempts[l] == s.attempts[l]
  }

  /** A superseded commit writes nothing: no row, occurrence, event, registration or run changes,
      and no attempt but its own. */
  lemma SupersededCommitIsInert(cat: Catalog, tr: Trace, i: nat, k: nat, j: nat, c: Claim)
    requires Valid(cat, tr) && HandedOut(tr, i, c)
    requires i < k < j < |tr.actions| && Supersedes(tr.states[k], tr.actions[k], c.runId)
    requires tr.actions[j].Finish? && tr.actions[j].claim == c
    ensures OnlyCloses(tr.states[j].ledger, tr.states[j + 1].ledger, c.attemptId)
  {
    AcceptedIffNotSuperseded(cat, tr, i, j, c);
    assert Steps(cat, tr, j);
  }

  // ---------------------------------------------------------------- callers

  /** `pending_runs` only ever lists runs that name a capture, and such a run can be claimed at
      any later time without losing that: no worker ever claims a run without a capture. */
  lemma ListedIsClaimable(cat: Catalog, tr: Trace, i: nat, j: nat, r: nat, listedAt: Instant,
                          owner: WorkerId, ttl: int, now: Instant)
    requires Valid(cat, tr) && i <= j < |tr.states| && IsPending(tr.states[i].ledger, r, listedAt)
    ensures Enabled(tr.states[j], Take(r, owner, ttl, now))
  {
    NothingLost(cat, tr, i, j);
    var s := tr.states[i].ledger;
    assert RunOk(tr.states[i].bronze, s.runs[r]);
    if s.runs[r].state != Captured {
      var k :| 0 <= k < |s.attempts| && (PendingReplay(s.attempts[k], r) || DeadReplay(s.attempts[k], r, listedAt));
      assert AttemptOk(tr.states[i].bronze, s.runs[r], s.attempts[k]);
    }
    assert RunGrows(s.runs[r], tr.states[j].ledger.runs[r]);
  }

  /** Processed means processed: a run marked so has a finished `ok` attempt, process or replay,
      of exactly the capture the run names; that capture is a log entry of the run's own target
      and instant whose payload is stored, as is every capture any run or attempt names. */
  lemma ProcessedMeansProcessed(cat: Catalog, tr: Trace, i: nat)
    requires Valid(cat, tr) && i < |tr.states|
    ensures var b, s := tr.states[i].bronze, tr.states[i].ledger;
      && (forall r :: 0 <= r < |s.runs| && s.runs[r].state == Processed ==>
            && s.runs[r].capture.Some?
            && exists k :: 0 <= k < |s.attempts| && Completed(s.attempts[k], r, s.runs[r].capture))
      && (forall r :: 0 <= r < |s.runs| && s.runs[r].capture.Some? ==> Durable(b, s.runs[r].capture.value, s.runs[r]))
      && (forall k :: 0 <= k < |s.attempts| && s.attempts[k].capture.Some? ==>
            s.attempts[k].run < |s.runs| && Durable(b, s.attempts[k].capture.value, s.runs[s.attempts[k].run]))
  {
    Reachable(cat, tr, i);
    var b, s := tr.states[i].bronze, tr.states[i].ledger;
    forall r | 0 <= r < |s.runs|
      ensures s.runs[r].state == Processed ==> s.runs[r].capture.Some?
      ensures s.runs[r].capture.Some? ==> Durable(b, s.runs[r].capture.value, s.runs[r])
    {
      assert RunOk(b, s.runs[r]);
    }
    forall k | 0 <= k < |s.attempts| && s.attempts[k].capture.Some?
      ensures s.attempts[k].run < |s.runs| && Durable(b, s.attempts[k].capture.value, s.runs[s.attempts[k].run])
    {
      assert AttemptOk(b, s.runs[s.attempts[k].run], s.attempts[k]);
    }
  }

  /** Capture `c` is complete in Bronze and belongs to `run`. */
  predicate Durable(b: Bronze, c: CaptureId, run: Run) {
    && c in b.log && b.log[c].id == c && b.log[c].payload in b.blobs && c.target == run.target
    && c.scheduledFor == run.scheduledFor
  }
}
