/** What a lease protects: over any run, who may claim when. */
module Leases {
  import opened Types
  import opened Ledger
  import opened System
  import opened Traces

  /** Step `k` is a claim of run `r` that was granted: the fence rose. */
  ghost predicate Granted(tr: Trace, k: nat, r: nat)
    requires k < |tr.actions| && |tr.states| == |tr.actions| + 1
  {
    && tr.actions[k].Take? && tr.actions[k].run == r
    && r < |tr.states[k].ledger.runs| && r < |tr.states[k + 1].ledger.runs|
    && tr.states[k + 1].ledger.runs[r].fence == tr.states[k].ledger.runs[r].fence + 1
  }

  /** Step `k` commits run `r` under its newest fence, or recaptures it. */
  ghost predicate Frees(tr: Trace, k: nat, r: nat)
    requires k < |tr.actions| < |tr.states|
  {
    var a, s := tr.actions[k], tr.states[k].ledger;
    || (a.Finish? && a.claim.runId == r && r < |s.runs| && a.claim.fence == s.runs[r].fence)
    || (a.Recapture? && a.run == r)
  }

  /** Step `k` is a renewal by a holder of run `r`. */
  predicate Renews(tr: Trace, k: nat, r: nat)
    requires k < |tr.actions|
  {
    tr.actions[k].Extend? && tr.actions[k].claim.runId == r
  }

  /** No step of [i, j) commits, recaptures or renews run `r`, or claims it later than `upto`. */
  ghost predicate Undisturbed(tr: Trace, i: nat, j: nat, r: nat, upto: Instant)
    requires |tr.states| == |tr.actions| + 1 && j < |tr.states|
  {
    forall k :: i <= k < j ==> LeavesLease(tr, k, r, upto)
  }

  ghost predicate LeavesLease(tr: Trace, k: nat, r: nat, upto: Instant)
    requires k < |tr.actions| < |tr.states|
  {
    && !Frees(tr, k, r) && !Renews(tr, k, r)
    && (tr.actions[k].Take? && tr.actions[k].run == r ==> tr.actions[k].now <= upto)
  }

  lemma StepLeavesLease(cat: Catalog, tr: Trace, k: nat, r: nat, upto: Instant)
    requires Valid(cat, tr) && k < |tr.actions| && LeavesLease(tr, k, r, upto)
    requires r < |tr.states[k].ledger.runs| && tr.states[k].ledger.runs[r].leaseUntil == Some(upto)
    ensures r < |tr.states[k + 1].ledger.runs| && tr.states[k + 1].ledger.runs[r].leaseUntil == Some(upto)
  {
    assert Steps(cat, tr, k);
  }

  /** The lease granted at step `i` still stands. */
  lemma {:induction false} LeaseStands(cat: Catalog, tr: Trace, i: nat, j: nat, r: nat)
    requires Valid(cat, tr) && i < j < |tr.states| && Granted(tr, i, r)
    requires Undisturbed(tr, i + 1, j, r, tr.actions[i].now + tr.actions[i].ttl)
    ensures r < |tr.states[j].ledger.runs|
    ensures tr.states[j].ledger.runs[r].leaseUntil == Some(tr.actions[i].now + tr.actions[i].ttl)
    decreases j
  {
    if i + 1 < j {
      LeaseStands(cat, tr, i, j - 1, r);
      StepLeavesLease(cat, tr, j - 1, r, tr.actions[i].now + tr.actions[i].ttl);
    } else {
      assert Steps(cat, tr, i);
    }
  }

  /** A granted lease protects its holder for `ttl` and no longer: until the run is committed, recaptured or
      renewed, a claim within the lease gets nothing and changes nothing, and the first one after it is
      granted, with a lease and a fence of its own. */
  lemma LeaseProtects(cat: Catalog, tr: Trace, i: nat, j: nat, r: nat)
    requires Valid(cat, tr) && i < j < |tr.actions| && Granted(tr, i, r)
    requires tr.actions[j].Take? && tr.actions[j].run == r
    requires Undisturbed(tr, i + 1, j, r, tr.actions[i].now + tr.actions[i].ttl)
    ensures tr.actions[j].now <= tr.actions[i].now + tr.actions[i].ttl ==> tr.states[j + 1] == tr.states[j]
    ensures tr.actions[j].now > tr.actions[i].now + tr.actions[i].ttl ==> GrantedAnew(tr, j, r)
  {
    LeaseStands(cat, tr, i, j, r);
    assert Steps(cat, tr, j);
    if tr.actions[j].now > tr.actions[i].now + tr.actions[i].ttl {
      ClaimGoesThrough(cat, tr, j, r);
    }
  }

  /** The claim of step `k` was handed out: it is the only new one, under the raised fence, and the run is
      leased to its owner for the time it asked. */
  ghost predicate GrantedAnew(tr: Trace, k: nat, r: nat)
    requires k < |tr.actions| && |tr.states| == |tr.actions| + 1
  {
    && tr.actions[k].Take? && Granted(tr, k, r)
    && var a, run := tr.actions[k], tr.states[k + 1].ledger.runs[r];
       && run.leaseOwner == Some(a.owner) && run.leaseUntil == Some(a.now + a.ttl)
       && run.state == tr.states[k].ledger.runs[r].state && run.capture == tr.states[k].ledger.runs[r].capture
       && exists c :: c !in tr.states[k].claims && tr.states[k + 1].claims == tr.states[k].claims + {c}
            && c.runId == r && c.fence == run.fence && c.run == run
            && c.attemptId < |tr.states[k + 1].ledger.attempts|
            && HeldBy(tr.states[k + 1].ledger.attempts[c.attemptId], c, a.owner, a.now, a.now + a.ttl)
  }

  /** The unfinished attempt of claim `c`, in the hands of its owner until then. */
  ghost predicate HeldBy(a: RunAttempt, c: Claim, owner: WorkerId, now: Instant, until: Instant) {
    && a.run == c.runId && a.fence == Some(c.fence) && a.leaseOwner == Some(owner) && a.leaseUntil == Some(until)
    && a.capture == c.run.capture && a.outcome.None? && a.startedAt == now
    && a.kind in {ProcessAttempt, ReplayAttempt} && c.attempt == a
  }

  /** No claim that was handed out is ahead of its run's fence. */
  lemma NotAhead(sys: System, c: Claim)
    requires AttemptsOk(sys.bronze, sys.ledger) && ClaimsOk(sys.ledger, sys.claims) && c in sys.claims
    ensures c.runId < |sys.ledger.runs| && c.fence <= sys.ledger.runs[c.runId].fence
  {
    assert ClaimOk(sys.ledger, c);
    assert AttemptOk(sys.bronze, sys.ledger.runs[c.runId], sys.ledger.attempts[c.attemptId]);
  }

  lemma ClaimGoesThrough(cat: Catalog, tr: Trace, k: nat, r: nat)
    requires Valid(cat, tr) && k < |tr.actions| && tr.actions[k].Take? && tr.actions[k].run == r
    requires r < |tr.states[k].ledger.runs|
    requires var until := tr.states[k].ledger.runs[r].leaseUntil; until.Some? ==> until.value < tr.actions[k].now
    ensures GrantedAnew(tr, k, r)
  {
    Reachable(cat, tr, k);
    assert Steps(cat, tr, k);
    var a, s := tr.actions[k], tr.states[k].ledger;
    var (t, c) := TakeClaim(s, r, a.owner, a.ttl, a.now);
    if c in tr.states[k].claims {
      NotAhead(tr.states[k], c);
    }
    assert HeldBy(t.attempts[c.attemptId], c, a.owner, a.now, a.now + a.ttl);
    assert tr.states[k + 1].claims == tr.states[k].claims + {c};
  }

  ghost predicate Untouched(tr: Trace, i: nat, j: nat, r: nat)
    requires j < |tr.states| == |tr.actions| + 1
  {
    forall k :: i <= k < j ==> !(tr.actions[k].Take? && tr.actions[k].run == r) && !Renews(tr, k, r)
  }

  lemma FreesRun(cat: Catalog, tr: Trace, i: nat, r: nat)
    requires Valid(cat, tr) && i < |tr.actions| && Frees(tr, i, r)
    ensures r < |tr.states[i + 1].ledger.runs| && tr.states[i + 1].ledger.runs[r].leaseUntil.None?
  {
    assert Steps(cat, tr, i);
  }

  lemma StepLeavesFree(cat: Catalog, tr: Trace, k: nat, r: nat)
    requires Valid(cat, tr) && k < |tr.actions| && !(tr.actions[k].Take? && tr.actions[k].run == r)
    requires !Renews(tr, k, r) && r < |tr.states[k].ledger.runs| && tr.states[k].ledger.runs[r].leaseUntil.None?
    ensures r < |tr.states[k + 1].ledger.runs| && tr.states[k + 1].ledger.runs[r].leaseUntil.None?
  {
    assert Steps(cat, tr, k);
  }

  lemma {:induction false} StaysFree(cat: Catalog, tr: Trace, i: nat, j: nat, r: nat)
    requires Valid(cat, tr) && i < j < |tr.states| && Frees(tr, i, r) && Untouched(tr, i + 1, j, r)
    ensures r < |tr.states[j].ledger.runs| && tr.states[j].ledger.runs[r].leaseUntil.None?
    decreases j
  {
    if i + 1 < j {
      StaysFree(cat, tr, i, j - 1, r);
      StepLeavesFree(cat, tr, j - 1, r);
    } else {
      FreesRun(cat, tr, i, r);
    }
  }

  /** An accepted commit and a recapture end the lease: the next claim is granted at any time. */
  lemma FreedIsGranted(cat: Catalog, tr: Trace, i: nat, j: nat, r: nat)
    requires Valid(cat, tr) && i < j < |tr.actions| && Frees(tr, i, r) && Untouched(tr, i + 1, j, r)
    requires tr.actions[j].Take? && tr.actions[j].run == r
    ensures GrantedAnew(tr, j, r)
  {
    StaysFree(cat, tr, i, j, r);
    ClaimGoesThrough(cat, tr, j, r);
  }
}
