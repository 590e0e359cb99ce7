/** Every step keeps the invariant and loses nothing settled. */
module Invariant {
  import opened Types
  import opened Ledger
  import opened System
  import Silver

  lemma GrowsTransitive(p: System, q: System, r: System)
    requires |p.ledger.silver.rows| == |p.ledger.silver.occurrences|
    requires |q.ledger.silver.rows| == |q.ledger.silver.occurrences|
    requires |r.ledger.silver.rows| == |r.ledger.silver.occurrences|
    requires Grows(p, q) && Grows(q, r)
    ensures Grows(p, r)
  {
  }

  /** Provenance survives any step that writes no observation. */
  lemma SilverPersists(cat: Catalog, p: System, q: System)
    requires SilverOk(cat, p.bronze, p.ledger) && q.ledger.silver == p.ledger.silver && Grows(p, q)
    ensures SilverOk(cat, q.bronze, q.ledger)
  {
    var s, t := p.ledger, q.ledger;
    forall i | 0 <= i < |t.silver.rows|
      ensures var row := t.silver.rows[i];
        MappedBy(cat, q.bronze, t, row.attempt, row.observation.derivation, row.observation)
    {
    }
    forall i, f | 0 <= i < |t.silver.rows| && f in t.silver.occurrences[i]
      ensures OccurrenceOk(cat, q.bronze, t, i, f)
    {
      OccurrencePersists(cat, p, q, i, f);
    }
  }

  lemma OccurrencePersists(cat: Catalog, p: System, q: System, i: nat, f: Instant)
    requires |p.ledger.silver.rows| == |p.ledger.silver.occurrences|
    requires |q.ledger.silver.rows| == |q.ledger.silver.occurrences|
    requires Grows(p, q)
    requires i < |p.ledger.silver.rows| && f in p.ledger.silver.occurrences[i]
    requires OccurrenceOk(cat, p.bronze, p.ledger, i, f)
    ensures OccurrenceOk(cat, q.bronze, q.ledger, i, f)
  {
  }

  /** A run stays correctly marked when it keeps its capture or is not marked processed. */
  lemma ProcessedPersists(s: State, t: State)
    requires ProcessedOk(s) && |s.runs| <= |t.runs| && |s.attempts| <= |t.attempts|
    requires forall k :: 0 <= k < |s.attempts| && s.attempts[k].outcome.Some? ==> t.attempts[k] == s.attempts[k]
    requires forall r :: 0 <= r < |t.runs| && t.runs[r].state == Processed ==>
               r < |s.runs| && s.runs[r].state == Processed && s.runs[r].capture == t.runs[r].capture
    ensures ProcessedOk(t)
  {
  }

  /** Steps that leave runs, attempts, claims and Silver alone. */
  lemma KeepsOutside(cat: Catalog, p: System, q: System)
    requires Inv(cat, p) && LogOk(q.bronze) && q.claims == p.claims
    requires q.ledger.runs == p.ledger.runs && q.ledger.attempts == p.ledger.attempts
    requires q.ledger.silver == p.ledger.silver && q.ledger.derivations == p.ledger.derivations
    requires p.ledger.invalidations <= q.ledger.invalidations <= q.bronze.decisions
    requires p.bronze.decisions <= q.bronze.decisions
    requires forall c :: c in p.bronze.log ==> c in q.bronze.log && q.bronze.log[c] == p.bronze.log[c]
    ensures Inv(cat, q) && Grows(p, q)
  {
    SilverPersists(cat, p, q);
  }

  /** Steps that rewrite one run or append one, and leave everything else alone. */
  lemma KeepsRuns(cat: Catalog, p: System, q: System)
    requires Inv(cat, p) && q == p.(ledger := p.ledger.(runs := q.ledger.runs))
    requires RunsOk(p.bronze, q.ledger) && |p.ledger.runs| <= |q.ledger.runs|
    requires forall r :: 0 <= r < |p.ledger.runs| ==> RunStep(p.ledger.runs[r], q.ledger.runs[r])
    requires forall r :: |p.ledger.runs| <= r < |q.ledger.runs| ==> q.ledger.runs[r].state != Processed
    ensures Inv(cat, q) && Grows(p, q)
  {
    SilverPersists(cat, p, q);
    ProcessedPersists(p.ledger, q.ledger);
  }

  /** How one run may change outside `claim` and `commit`. */
  ghost predicate RunStep(run: Run, after: Run) {
    && RunGrows(run, after)
    && (after.state == Processed ==> run.state == Processed && after.capture == run.capture)
    && (after.fence == run.fence && run.leaseUntil.Some? ==>
          after.leaseUntil.Some? && run.leaseUntil.value <= after.leaseUntil.value)
  }

  lemma KeepsEnsure(cat: Catalog, sys: System, target: TargetId, t: Instant, state: RunState, origin: RunOrigin,
                    capture: Option<CaptureId>, now: Instant)
    requires Inv(cat, sys)
    requires state != Processed && (state == Captured ==> capture.Some?)
    requires capture.Some? ==>
      capture.value in sys.bronze.log && capture.value.target == target && capture.value.scheduledFor == t
    ensures var q := sys.(ledger := EnsureRun(sys.ledger, target, t, state, origin, capture, now).0);
            Inv(cat, q) && Grows(sys, q)
  {
    var s := sys.ledger;
    var t' := EnsureRun(s, target, t, state, origin, capture, now).0;
    assert RunsOk(sys.bronze, t');
    KeepsRuns(cat, sys, sys.(ledger := t'));
  }

  lemma KeepsUpdate(cat: Catalog, sys: System, r: nat, run: Run)
    requires Inv(cat, sys) && r < |sys.ledger.runs|
    requires RunStep(sys.ledger.runs[r], run) && RunOk(sys.bronze, run)
    ensures var q := sys.(ledger := sys.ledger.(runs := sys.ledger.runs[r := run]));
            Inv(cat, q) && Grows(sys, q)
  {
    KeepsRuns(cat, sys, sys.(ledger := sys.ledger.(runs := sys.ledger.runs[r := run])));
  }

  lemma AppendAttempt(b: Bronze, s: State, claims: set<Claim>, a: RunAttempt)
    requires AttemptsOk(b, s) && OnePending(s.attempts) && ClaimsOk(s, claims)
    requires a.run < |s.runs| && AttemptOk(b, s.runs[a.run], a) && a.fence.None?
    requires PendingReplay(a, a.run) ==> FirstPending(s.attempts, a.run).None?
    ensures var t := s.(attempts := s.attempts + [a]);
            AttemptsOk(b, t) && OnePending(t.attempts) && ClaimsOk(t, claims)
  {
    var t := s.(attempts := s.attempts + [a]);
    forall c | c in claims ensures ClaimOk(t, c) {
      assert ClaimOk(s, c);
    }
  }

  /** Steps that append one attempt without a fence. */
  lemma KeepsAppend(cat: Catalog, sys: System, a: RunAttempt)
    requires Inv(cat, sys) && a.run < |sys.ledger.runs|
    requires AttemptOk(sys.bronze, sys.ledger.runs[a.run], a) && a.fence.None?
    requires PendingReplay(a, a.run) ==> FirstPending(sys.ledger.attempts, a.run).None?
    ensures var q := sys.(ledger := sys.ledger.(attempts := sys.ledger.attempts + [a]));
            Inv(cat, q) && Grows(sys, q)
  {
    var q := sys.(ledger := sys.ledger.(attempts := sys.ledger.attempts + [a]));
    AppendAttempt(sys.bronze, sys.ledger, sys.claims, a);
    SilverPersists(cat, sys, q);
    ProcessedPersists(sys.ledger, q.ledger);
  }

  // ---------------------------------------------------------------- claim

  /** How `claim` may change an attempt: close it, or put a pending one in the new holder's hands. */
  ghost predicate AttemptClaimed(a: RunAttempt, after: RunAttempt, run: Run, r: nat) {
    || after == a
    || (a.outcome.None? && a.run == r && exists at :: after == Closed(a, LostLease, at))
    || (PendingReplay(a, r) && exists at :: after == Held(a, run, at))
  }

  /** What `claim` does to the ledger, as the invariant needs it. */
  ghost predicate Taken(s: State, r: nat, c: Claim, t: State) {
    && r < |s.runs| && r == c.runId && |t.runs| == |s.runs|
    && (forall i :: 0 <= i < |s.runs| && i != r ==> t.runs[i] == s.runs[i])
    && t.runs[r].state == s.runs[r].state && t.runs[r].capture == s.runs[r].capture
    && t.runs[r].target == s.runs[r].target && t.runs[r].scheduledFor == s.runs[r].scheduledFor
    && t.runs[r].fence == s.runs[r].fence + 1 && t.runs[r].leaseUntil.Some?
    && |s.attempts| <= |t.attempts| <= |s.attempts| + 1
    && (forall k :: 0 <= k < |s.attempts| ==> AttemptClaimed(s.attempts[k], t.attempts[k], t.runs[r], r))
    && c.attemptId < |t.attempts| && (|s.attempts| < |t.attempts| ==> c.attemptId == |s.attempts|)
    && (c.attemptId < |s.attempts| ==> PendingReplay(s.attempts[c.attemptId], r))
    && (forall k :: 0 <= k < |s.attempts| && k != c.attemptId ==> t.attempts[k].fence == s.attempts[k].fence)
    && t.attempts[c.attemptId] == c.attempt && c.run == t.runs[r] && c.fence == t.runs[r].fence
    && c.attempt.run == r && c.attempt.kind in {ProcessAttempt, ReplayAttempt} && c.attempt.outcome.None?
    && c.attempt.fence == Some(c.fence) && c.attempt.capture == s.runs[r].capture
    && c.attempt.leaseOwner.Some? && c.attempt.leaseUntil == t.runs[r].leaseUntil
  }

  lemma ClaimShape(s: State, r: nat, owner: WorkerId, ttl: int, now: Instant)
    requires r < |s.runs|
    ensures var (t, c) := TakeClaim(s, r, owner, ttl, now);
            Taken(s, r, c, t) && t == s.(runs := t.runs, attempts := t.attempts)
  {
    var (t, c) := TakeClaim(s, r, owner, ttl, now);
    var closed := CloseDead(s.attempts, r, now);
    forall k | 0 <= k < |s.attempts| ensures AttemptClaimed(s.attempts[k], t.attempts[k], t.runs[r], r) {
      assert closed[k] == s.attempts[k] || closed[k] == Closed(s.attempts[k], LostLease, now);
      if k == c.attemptId {
        assert PendingReplay(closed[k], r) && t.attempts[k] == Held(closed[k], t.runs[r], now);
      }
    }
  }

  lemma KeepsTake(cat: Catalog, sys: System, r: nat, owner: WorkerId, ttl: int, now: Instant)
    requires Inv(cat, sys) && r < |sys.ledger.runs| && sys.ledger.runs[r].capture.Some?
    ensures var (t, c) := TakeClaim(sys.ledger, r, owner, ttl, now);
            var q := sys.(ledger := t, claims := sys.claims + {c});
            Inv(cat, q) && Grows(sys, q)
  {
    var (t, c) := TakeClaim(sys.ledger, r, owner, ttl, now);
    ClaimShape(sys.ledger, r, owner, ttl, now);
    TakenKeeps(cat, sys, r, c, t);
  }

  lemma TakenKeeps(cat: Catalog, sys: System, r: nat, c: Claim, t: State)
    requires Inv(cat, sys) && Taken(sys.ledger, r, c, t) && sys.ledger.runs[r].capture.Some?
    requires t == sys.ledger.(runs := t.runs, attempts := t.attempts)
    ensures var q := sys.(ledger := t, claims := sys.claims + {c}); Inv(cat, q) && Grows(sys, q)
  {
    var q := sys.(ledger := t, claims := sys.claims + {c});
    TakeAttempts(sys, r, c, t);
    TakeClaims(cat, sys, r, c, t);
    forall k | 0 <= k < |sys.ledger.attempts|
      ensures t.attempts[k].run == sys.ledger.attempts[k].run
      ensures sys.ledger.attempts[k].outcome.Some? ==> t.attempts[k] == sys.ledger.attempts[k]
    {
      assert AttemptClaimed(sys.ledger.attempts[k], t.attempts[k], t.runs[r], r);
    }
    SilverPersists(cat, sys, q);
    ProcessedPersists(sys.ledger, t);
  }

  lemma TakeAttempt(sys: System, r: nat, c: Claim, t: State, k: nat)
    requires RunsOk(sys.bronze, sys.ledger) && AttemptsOk(sys.bronze, sys.ledger)
    requires Taken(sys.ledger, r, c, t) && sys.ledger.runs[r].capture.Some? && k < |t.attempts|
    ensures t.attempts[k].run < |t.runs| && AttemptOk(sys.bronze, t.runs[t.attempts[k].run], t.attempts[k])
    ensures k != c.attemptId && t.attempts[k].run == r && t.attempts[k].fence.Some? ==>
      t.attempts[k].fence.value < c.fence
    ensures k < |sys.ledger.attempts| ==> t.attempts[k].run == sys.ledger.attempts[k].run
    ensures forall i :: PendingReplay(t.attempts[k], i) ==>
      k < |sys.ledger.attempts| && PendingReplay(sys.ledger.attempts[k], i)
  {
    var s := sys.ledger;
    assert RunOk(sys.bronze, s.runs[r]);
    if k < |s.attempts| {
      assert AttemptClaimed(s.attempts[k], t.attempts[k], t.runs[r], r);
      assert AttemptOk(sys.bronze, s.runs[s.attempts[k].run], s.attempts[k]);
    }
  }

  lemma TakeAttempts(sys: System, r: nat, c: Claim, t: State)
    requires RunsOk(sys.bronze, sys.ledger) && AttemptsOk(sys.bronze, sys.ledger) && OnePending(sys.ledger.attempts)
    requires Taken(sys.ledger, r, c, t) && sys.ledger.runs[r].capture.Some?
    ensures AttemptsOk(sys.bronze, t) && OnePending(t.attempts)
  {
    forall k, l | 0 <= k < l < |t.attempts|
      ensures t.attempts[k].run == t.attempts[l].run ==>
                !(t.attempts[k].fence.Some? && t.attempts[k].fence == t.attempts[l].fence)
      ensures forall i :: !(PendingReplay(t.attempts[k], i) && PendingReplay(t.attempts[l], i))
    {
      TakeAttempt(sys, r, c, t, k);
      TakeAttempt(sys, r, c, t, l);
    }
    forall k | 0 <= k < |t.attempts|
      ensures t.attempts[k].run < |t.runs| && AttemptOk(sys.bronze, t.runs[t.attempts[k].run], t.attempts[k])
    {
      TakeAttempt(sys, r, c, t, k);
    }
  }

  lemma TakeClaims(cat: Catalog, sys: System, r: nat, c: Claim, t: State)
    requires Inv(cat, sys) && Taken(sys.ledger, r, c, t)
    ensures ClaimsOk(t, sys.claims + {c})
  {
    forall d | d in sys.claims ensures ClaimOk(t, d) && d.attemptId != c.attemptId {
      ClaimStays(sys.bronze, sys.ledger, r, c, t, d);
    }
  }

  lemma ClaimStays(b: Bronze, s: State, r: nat, c: Claim, t: State, d: Claim)
    requires AttemptsOk(b, s) && Taken(s, r, c, t) && ClaimOk(s, d)
    ensures ClaimOk(t, d) && d.attemptId != c.attemptId
  {
  }

  // ---------------------------------------------------------------- commit

  lemma LoseAttempt(b: Bronze, s: State, claims: set<Claim>, c: Claim, now: Instant)
    requires AttemptsOk(b, s) && OnePending(s.attempts) && ClaimsOk(s, claims)
    requires c in claims && ClaimOk(s, c) && !Current(s, c)
    ensures var t := LoseClaim(s, c, now);
            AttemptsOk(b, t) && OnePending(t.attempts) && ClaimsOk(t, claims - {c})
  {
    var t := LoseClaim(s, c, now);
    forall k | 0 <= k < |t.attempts|
      ensures t.attempts[k].run < |t.runs| && AttemptOk(b, t.runs[t.attempts[k].run], t.attempts[k])
    {
      assert AttemptOk(b, s.runs[s.attempts[k].run], s.attempts[k]);
    }
  }

  lemma KeepsLose(cat: Catalog, sys: System, c: Claim, now: Instant)
    requires Inv(cat, sys) && c in sys.claims && ClaimOk(sys.ledger, c) && !Current(sys.ledger, c)
    ensures var q := sys.(ledger := LoseClaim(sys.ledger, c, now), claims := sys.claims - {c});
            Inv(cat, q) && Grows(sys, q)
  {
    var q := sys.(ledger := LoseClaim(sys.ledger, c, now), claims := sys.claims - {c});
    LoseAttempt(sys.bronze, sys.ledger, sys.claims, c, now);
    SilverPersists(cat, sys, q);
    ProcessedPersists(sys.ledger, q.ledger);
  }

  /** The work is what `process_one` computes, so the attempt's own capture was mapped. */
  lemma WorkIsMapped(cat: Catalog, sys: System, c: Claim, d: DerivationId, refused: bool, at: Instant)
    requires Inv(cat, sys) && c in sys.claims && ClaimOk(sys.ledger, c)
    ensures var w, a := WorkFor(cat, sys.bronze, c, d, refused, at), sys.ledger.attempts[c.attemptId];
      && w.derivation == Some(d) && (w.state == Processed <==> w.outcome == Ok) && w.state in {Processed, Failed}
      && a.capture.Some? && InLog(sys.bronze, a.capture, c.run)
      && (w.state != Processed ==> w.observations == [])
      && (w.state == Processed ==>
            Observe(cat, c.run.target, c.run.scheduledFor, d, sys.bronze.log[a.capture.value], at)
            == Some(w.observations))
  {
    assert AttemptOk(sys.bronze, sys.ledger.runs[c.runId], sys.ledger.attempts[c.attemptId]);
  }

  lemma KeepsAccept(cat: Catalog, sys: System, c: Claim, d: DerivationId, refused: bool, at: Instant, now: Instant)
    requires Inv(cat, sys) && c in sys.claims && ClaimOk(sys.ledger, c) && Current(sys.ledger, c)
    ensures var w := WorkFor(cat, sys.bronze, c, d, refused, at);
            var q := sys.(ledger := Accept(sys.ledger, c, w, now), claims := sys.claims - {c});
            Inv(cat, q) && Grows(sys, q)
  {
    var w := WorkFor(cat, sys.bronze, c, d, refused, at);
    var s := sys.ledger;
    var q := sys.(ledger := Accept(s, c, w, now), claims := sys.claims - {c});
    WorkIsMapped(cat, sys, c, d, refused, at);
    AcceptGrows(sys, c, w, now);
    AcceptLedger(cat, sys, c, w, now);
    AcceptSilver(cat, sys, q, c, w, d, at);
  }

  lemma AcceptGrows(sys: System, c: Claim, w: Work, now: Instant)
    requires Silver.Valid(sys.ledger.silver) && ClaimOk(sys.ledger, c) && Current(sys.ledger, c)
    ensures var q := sys.(ledger := Accept(sys.ledger, c, w, now), claims := sys.claims - {c});
            Silver.Valid(q.ledger.silver) && Grows(sys, q)
  {
    Silver.StoreAllKeeps(sys.ledger.silver, c.attemptId, w.observations);
  }

  lemma AcceptLedger(cat: Catalog, sys: System, c: Claim, w: Work, now: Instant)
    requires Inv(cat, sys) && c in sys.claims && ClaimOk(sys.ledger, c) && Current(sys.ledger, c)
    requires w.state in {Processed, Failed} && (w.state == Processed <==> w.outcome == Ok)
    ensures var t := Accept(sys.ledger, c, w, now);
      && RunsOk(sys.bronze, t) && AttemptsOk(sys.bronze, t) && OnePending(t.attempts)
      && ClaimsOk(t, sys.claims - {c}) && ProcessedOk(t)
  {
    assert AttemptOk(sys.bronze, sys.ledger.runs[c.runId], sys.ledger.attempts[c.attemptId]);
    AcceptAttempts(sys, c, w, now);
    AcceptClaims(sys.bronze, sys.ledger, sys.claims, c, w, now);
    AcceptProcessed(sys.ledger, c, w, now);
  }

  lemma AcceptClaims(b: Bronze, s: State, claims: set<Claim>, c: Claim, w: Work, now: Instant)
    requires RunsOk(b, s) && ClaimsOk(s, claims) && c in claims && ClaimOk(s, c)
    requires |s.silver.rows| == |s.silver.occurrences|
    requires s.runs[c.runId].capture.Some?
    ensures RunsOk(b, Accept(s, c, w, now)) && ClaimsOk(Accept(s, c, w, now), claims - {c})
  {
    assert RunOk(b, s.runs[c.runId]);
  }

  lemma AcceptProcessed(s: State, c: Claim, w: Work, now: Instant)
    requires ProcessedOk(s) && ClaimOk(s, c) && Current(s, c) && |s.silver.rows| == |s.silver.occurrences|
    requires w.state in {Processed, Failed} && (w.state == Processed <==> w.outcome == Ok)
    requires s.attempts[c.attemptId].capture == s.runs[c.runId].capture && s.runs[c.runId].capture.Some?
    ensures ProcessedOk(Accept(s, c, w, now))
  {
    var t := Accept(s, c, w, now);
    forall r | 0 <= r < |t.runs| && t.runs[r].state == Processed
      ensures exists k :: 0 <= k < |t.attempts| && Completed(t.attempts[k], r, t.runs[r].capture)
    {
      if r == c.runId {
        assert Completed(t.attempts[c.attemptId], r, t.runs[r].capture);
      } else {
        var k :| 0 <= k < |s.attempts| && Completed(s.attempts[k], r, s.runs[r].capture);
        assert Completed(t.attempts[k], r, t.runs[r].capture);
      }
    }
  }

  lemma AcceptAttempts(sys: System, c: Claim, w: Work, now: Instant)
    requires RunsOk(sys.bronze, sys.ledger) && AttemptsOk(sys.bronze, sys.ledger) && OnePending(sys.ledger.attempts)
    requires ClaimOk(sys.ledger, c) && Current(sys.ledger, c)
    requires |sys.ledger.silver.rows| == |sys.ledger.silver.occurrences|
    ensures var t := Accept(sys.ledger, c, w, now); AttemptsOk(sys.bronze, t) && OnePending(t.attempts)
  {
    var s, t := sys.ledger, Accept(sys.ledger, c, w, now);
    forall k | 0 <= k < |t.attempts|
      ensures t.attempts[k].run < |t.runs| && AttemptOk(sys.bronze, t.runs[t.attempts[k].run], t.attempts[k])
    {
      assert AttemptOk(sys.bronze, s.runs[s.attempts[k].run], s.attempts[k]);
    }
  }

  lemma AcceptSilver(cat: Catalog, p: System, q: System, c: Claim, w: Work, d: DerivationId, at: Instant)
    requires Inv(cat, p) && Silver.Valid(q.ledger.silver) && Grows(p, q)
    requires q.ledger.silver == Silver.StoreAll(p.ledger.silver, c.attemptId, w.observations)
    requires d in q.ledger.derivations
    requires forall o :: o in w.observations ==>
      MappedBy(cat, q.bronze, q.ledger, c.attemptId, d, o) && o.derivation == d
    ensures SilverOk(cat, q.bronze, q.ledger)
  {
    var s, t := p.ledger, q.ledger;
    Silver.StoreAllOrigin(s.silver, c.attemptId, w.observations);
    forall i | 0 <= i < |t.silver.rows|
      ensures var row := t.silver.rows[i];
        MappedBy(cat, q.bronze, t, row.attempt, row.observation.derivation, row.observation)
      ensures t.silver.rows[i].observation.derivation in t.derivations
    {
      if i < |s.silver.rows| {
        assert t.silver.rows[i] == s.silver.rows[i];
      }
    }
    forall i, f | 0 <= i < |t.silver.rows| && f in t.silver.occurrences[i]
      ensures OccurrenceOk(cat, q.bronze, t, i, f)
    {
      assert Silver.Sourced(s.silver, t.silver, c.attemptId, w.observations, i, f);
      if i < |s.silver.rows| && f in s.silver.occurrences[i] {
        OccurrencePersists(cat, p, q, i, f);
      } else {
        var o :| o in w.observations && Silver.PutBy(t.silver, c.attemptId, o, i, f);
        assert MappedBy(cat, q.bronze, t, t.silver.occurrences[i][f].attempt, o.derivation, o);
      }
    }
  }

  // ---------------------------------------------------------------- every step

  lemma AckActionKeeps(cat: Catalog, sys: System, a: Action)
    requires Inv(cat, sys) && Enabled(sys, a) && (a.Ack? || a.AckEmpty?)
    ensures Inv(cat, Apply(cat, sys, a)) && Grows(sys, Apply(cat, sys, a))
  {
    match a
    case Ack(e, origin, now) =>
      KeepsEnsure(cat, sys, e.id.target, e.id.scheduledFor, Captured, origin, Some(e.id), now);
    case AckEmpty(target, t, state, origin, now) => KeepsEnsure(cat, sys, target, t, state, origin, None, now);
  }

  lemma RunActionKeeps(cat: Catalog, sys: System, a: Action)
    requires Inv(cat, sys) && Enabled(sys, a) && (a.Recapture? || a.Mark?)
    ensures Inv(cat, Apply(cat, sys, a)) && Grows(sys, Apply(cat, sys, a))
  {
    var run := sys.ledger.runs[a.run];
    assert RunOk(sys.bronze, run);
    var after := if a.Mark? then run.(state := a.state, updatedAt := a.now) else Recaptured(run, a.entry.id, a.now);
    assert RunStep(run, after) && RunOk(sys.bronze, after);
    KeepsUpdate(cat, sys, a.run, after);
  }

  lemma RenewKeeps(cat: Catalog, sys: System, c: Claim, ttl: int, now: Instant)
    requires Inv(cat, sys) && c.runId < |sys.ledger.runs| && Current(sys.ledger, c)
    requires sys.ledger.runs[c.runId].leaseUntil.Some? ==> sys.ledger.runs[c.runId].leaseUntil.value <= now + ttl
    ensures var q := sys.(ledger := Renew(sys.ledger, c, ttl, now).0); Inv(cat, q) && Grows(sys, q)
  {
    var run := sys.ledger.runs[c.runId];
    var after := run.(leaseUntil := Some(now + ttl), updatedAt := now);
    assert RunOk(sys.bronze, run);
    assert RunStep(run, after) && RunOk(sys.bronze, after);
    KeepsUpdate(cat, sys, c.runId, after);
    assert Renew(sys.ledger, c, ttl, now).0 == sys.ledger.(runs := sys.ledger.runs[c.runId := after]);
  }

  lemma ExtendKeeps(cat: Catalog, sys: System, a: Action)
    requires Inv(cat, sys) && Enabled(sys, a) && a.Extend?
    ensures Inv(cat, Apply(cat, sys, a)) && Grows(sys, Apply(cat, sys, a))
  {
    if Current(sys.ledger, a.claim) {
      RenewKeeps(cat, sys, a.claim, a.ttl, a.now);
    } else {
      assert Apply(cat, sys, a) == sys;
      KeepsOutside(cat, sys, sys);
    }
  }

  lemma AttemptActionKeeps(cat: Catalog, sys: System, a: Action)
    requires Inv(cat, sys) && Enabled(sys, a)
    requires a.Record? || a.Enqueue? || a.Take?
    ensures Inv(cat, Apply(cat, sys, a)) && Grows(sys, Apply(cat, sys, a))
  {
    var s := sys.ledger;
    match a
    case Record(r, kind, outcome, capture, now) =>
      KeepsAppend(cat, sys, RunAttempt(r, kind, None, None, None, capture, None, Some(outcome), now, Some(now)));
    case Enqueue(r, now) =>
      if FirstPending(s.attempts, r).None? {
        assert RunOk(sys.bronze, s.runs[r]);
        KeepsAppend(cat, sys, OpenReplay(r, s.runs[r].capture, now));
      } else {
        KeepsOutside(cat, sys, sys);
      }
    case Take(r, owner, ttl, now) =>
      if Claimable(s.runs[r], now) {
        KeepsTake(cat, sys, r, owner, ttl, now);
      } else {
        KeepsOutside(cat, sys, sys);
      }
  }

  lemma FinishKeeps(cat: Catalog, sys: System, a: Action)
    requires Inv(cat, sys) && Enabled(sys, a) && a.Finish?
    ensures Inv(cat, Apply(cat, sys, a)) && Grows(sys, Apply(cat, sys, a))
  {
    assert ClaimOk(sys.ledger, a.claim);
    if Current(sys.ledger, a.claim) {
      KeepsAccept(cat, sys, a.claim, a.derivation, a.refused, a.processedAt, a.now);
    } else {
      KeepsLose(cat, sys, a.claim, a.now);
    }
  }

  /** Every action any worker can take keeps the invariant and loses nothing settled. */
  lemma StepKeeps(cat: Catalog, sys: System, a: Action)
    requires Inv(cat, sys) && Enabled(sys, a)
    ensures Inv(cat, Apply(cat, sys, a)) && Grows(sys, Apply(cat, sys, a))
  {
    if a.Finish? {
      FinishKeeps(cat, sys, a);
    } else if a.Record? || a.Enqueue? || a.Take? {
      AttemptActionKeeps(cat, sys, a);
    } else if a.Recapture? || a.Mark? {
      RunActionKeeps(cat, sys, a);
    } else if a.Extend? {
      ExtendKeeps(cat, sys, a);
    } else if a.Ack? || a.AckEmpty? {
      AckActionKeeps(cat, sys, a);
    } else {
      KeepsOutside(cat, sys, Apply(cat, sys, a));
    }
  }
}
