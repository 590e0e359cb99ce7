/** The in-memory store: fields updated in place, each method proved against its ledger step. */
module MemoryStore {
  import opened Types
  import opened Ledger
  import opened View
  import Silver

  class Store {
    var runs: seq<Run>
    var attempts: seq<RunAttempt>
    var rows: seq<StoredObservation>
    var occurrences: seq<map<Instant, Occurrence>>
    var derivations: map<DerivationId, Instant>
    var invalidations: set<Decision>
    var events: seq<StoredEvent>

    /** The whole state, as one value. */
    function Snapshot(): State
      reads this
    {
      State(runs, attempts, Silver.Store(rows, occurrences), derivations, invalidations, events)
    }

    constructor ()
      ensures Snapshot() == EMPTY
    {
      runs, attempts, rows, occurrences := [], [], [], [];
      derivations, invalidations, events := map[], {}, [];
    }

    // -------------------------------------------------------------- runs

    method Find(target: TargetId, t: Instant) returns (found: Option<nat>)
      ensures found == FindRun(runs, target, t)
    {
      for i := 0 to |runs|
        invariant forall j :: 0 <= j < i ==> !(runs[j].target == target && runs[j].scheduledFor == t)
      {
        if runs[i].target == target && runs[i].scheduledFor == t {
          return Some(i);
        }
      }
      return None;
    }

    method Ensure(target: TargetId, t: Instant, state: RunState, origin: RunOrigin, capture: Option<CaptureId>,
                  now: Instant)
      returns (run: nat)
      modifies this
      ensures (Snapshot(), run) == EnsureRun(old(Snapshot()), target, t, state, origin, capture, now)
      ensures Snapshot() == old(Snapshot()).(runs := runs) && run < |runs|
      ensures runs[run].target == target && runs[run].scheduledFor == t
      ensures forall i :: 0 <= i < |old(runs)| && i != run ==> i < |runs| && runs[i] == old(runs)[i]
      ensures run == |old(runs)| ==>
        && (forall i :: 0 <= i < |old(runs)| ==> !(runs[i].target == target && runs[i].scheduledFor == t))
        && runs == old(runs) + [Run(target, t, state, 0, origin, None, None, capture, now, now)]
      ensures run < |old(runs)| ==>
        && |runs| == |old(runs)|
        && var was := old(runs)[run];
           runs[run] == if state == Captured && was.capture.None? && was.state != Processed
                        then was.(state := Captured, capture := capture, updatedAt := now) else was
    {
      var existing := Find(target, t);
      if existing.None? {
        runs := runs + [Run(target, t, state, 0, origin, None, None, capture, now, now)];
        return |runs| - 1;
      }
      run := existing.value;
      if state == Captured && runs[run].state != Processed && runs[run].capture.None? {
        runs := runs[run := runs[run].(state := Captured, capture := capture, updatedAt := now)];
      }
    }

    method Mark(run: nat, state: RunState, now: Instant)
      requires run < |runs|
      modifies this
      ensures Snapshot() == SetState(old(Snapshot()), run, state, now)
      ensures Snapshot() == old(Snapshot()).(runs := runs)
      ensures runs == old(runs)[run := old(runs)[run].(state := state, updatedAt := now)]
    {
      runs := runs[run := runs[run].(state := state, updatedAt := now)];
    }

    method Recapture(run: nat, capture: CaptureId, now: Instant)
      requires run < |runs|
      modifies this
      ensures Snapshot() == MarkRecaptured(old(Snapshot()), run, capture, now)
      ensures Snapshot() == old(Snapshot()).(runs := runs) && |runs| == |old(runs)|
      ensures forall i :: 0 <= i < |runs| && i != run ==> runs[i] == old(runs)[i]
      ensures runs[run] == old(runs)[run].(state := Captured, capture := Some(capture), leaseOwner := None,
                                           fence := old(runs)[run].fence + 1, leaseUntil := None, updatedAt := now)
    {
      var r := runs[run];
      runs := runs[run := r.(state := Captured, capture := Some(capture), fence := r.fence + 1,
                             leaseOwner := None, leaseUntil := None, updatedAt := now)];
    }

    // -------------------------------------------------------------- attempts

    /** Close every replay of `run` whose holder died; say whether there was one. */
    method CloseExpired(run: nat, now: Instant) returns (reopened: bool)
      modifies this
      ensures Snapshot() == old(Snapshot()).(attempts := CloseDead(old(attempts), run, now))
      ensures reopened == HasDead(old(attempts), run, now)
    {
      ghost var before := attempts;
      reopened := false;
      for k := 0 to |attempts|
        modifies this`attempts
        invariant |attempts| == |before|
        invariant forall i :: 0 <= i < k ==>
          attempts[i] == if DeadReplay(before[i], run, now) then Closed(before[i], LostLease, now) else before[i]
        invariant forall i :: k <= i < |before| ==> attempts[i] == before[i]
        invariant reopened <==> exists i :: 0 <= i < k && DeadReplay(before[i], run, now)
      {
        if attempts[k].run == run && attempts[k].kind == ReplayAttempt && attempts[k].Expired(now) {
          attempts := attempts[k := attempts[k].(outcome := Some(LostLease), finishedAt := Some(now))];
          reopened := true;
        }
      }
      assert attempts == CloseDead(before, run, now);
    }

    method NextPending(run: nat) returns (pending: Option<nat>)
      ensures pending == FirstPending(attempts, run)
    {
      for k := 0 to |attempts|
        invariant forall j :: 0 <= j < k ==> !PendingReplay(attempts[j], run)
      {
        if attempts[k].run == run && attempts[k].kind == ReplayAttempt && attempts[k].Pending() {
          return Some(k);
        }
      }
      return None;
    }

    method Take(run: nat, owner: WorkerId, ttl: int, now: Instant) returns (claim: Option<Claim>)
      requires run < |runs|
      modifies this
      ensures (Snapshot(), claim) == ClaimRun(old(Snapshot()), run, owner, ttl, now)
      ensures var lease := old(runs)[run].leaseUntil;
        claim.None? <==> lease.Some? && now <= lease.value
      ensures claim.None? ==> Snapshot() == old(Snapshot())
      ensures claim.Some? ==>
        && Snapshot() == old(Snapshot()).(runs := runs, attempts := attempts)
        && runs == old(runs)[run := old(runs)[run].(fence := old(runs)[run].fence + 1, leaseOwner := Some(owner),
                                                    leaseUntil := Some(now + ttl), updatedAt := now)]
        && TakenInto(old(attempts), attempts, run, runs[run], claim.value.attemptId, now)
        && claim.value == Claim(run, runs[run], runs[run].fence, claim.value.attemptId,
                                attempts[claim.value.attemptId])
    {
      TakeMeans(Snapshot(), run, owner, ttl, now);
      var held := runs[run];
      if held.leaseUntil.Some? && held.leaseUntil.value >= now {
        return None;
      }
      held := held.(fence := held.fence + 1, leaseOwner := Some(owner), leaseUntil := Some(now + ttl),
                    updatedAt := now);
      runs := runs[run := held];
      var reopened := CloseExpired(run, now);
      var pending := NextPending(run);
      var id := |attempts|;
      var attempt := RunAttempt(run, ProcessAttempt, Some(owner), held.leaseUntil, Some(held.fence), held.capture,
                                None, None, now, None);
      if pending.Some? {
        id := pending.value;
        attempt := attempts[id].(leaseOwner := Some(owner), leaseUntil := held.leaseUntil, fence := Some(held.fence),
                                 capture := held.capture, startedAt := now);
        attempts := attempts[id := attempt];
      } else {
        if reopened {
          attempt := attempt.(kind := ReplayAttempt);
        }
        attempts := attempts + [attempt];
      }
      return Some(Claim(run, held, held.fence, id, attempt));
    }

    method Extend(claim: Claim, ttl: int, now: Instant) returns (renewed: bool)
      requires claim.runId < |runs|
      modifies this
      ensures (Snapshot(), renewed) == Renew(old(Snapshot()), claim, ttl, now)
      ensures renewed <==> old(runs)[claim.runId].fence == claim.fence
      ensures Snapshot() == old(Snapshot()).(runs := runs) && |runs| == |old(runs)|
      ensures forall i :: 0 <= i < |runs| ==>
        runs[i] == if renewed && i == claim.runId then old(runs)[i].(leaseUntil := Some(now + ttl), updatedAt := now)
                   else old(runs)[i]
    {
      renewed := runs[claim.runId].fence == claim.fence;
      if renewed {
        runs := runs[claim.runId := runs[claim.runId].(leaseUntil := Some(now + ttl), updatedAt := now)];
      }
    }

    method Record(run: nat, kind: AttemptKind, outcome: Outcome, capture: Option<CaptureId>, now: Instant)
      modifies this
      ensures Snapshot() == RecordAttempt(old(Snapshot()), run, kind, outcome, capture, now)
      ensures Snapshot() == old(Snapshot()).(attempts := old(attempts) +
          [RunAttempt(run, kind, None, None, None, capture, None, Some(outcome), now, Some(now))])
    {
      attempts := attempts + [RunAttempt(run, kind, None, None, None, capture, None, Some(outcome), now, Some(now))];
    }

    method Enqueue(run: nat, now: Instant)
      requires run < |runs|
      modifies this
      ensures Snapshot() == EnqueueReplay(old(Snapshot()), run, now)
      ensures (exists k :: 0 <= k < |old(attempts)| && Waiting(old(attempts)[k], run)) ==> Snapshot() == old(Snapshot())
      ensures (forall k :: 0 <= k < |old(attempts)| ==> !Waiting(old(attempts)[k], run)) ==>
        Snapshot() == old(Snapshot()).(attempts := old(attempts) +
          [RunAttempt(run, ReplayAttempt, None, None, None, old(runs)[run].capture, None, None, now, None)])
    {
      var pending := NextPending(run);
      if pending.None? {
        var capture := runs[run].capture;
        attempts := attempts + [RunAttempt(run, ReplayAttempt, None, None, None, capture, None, None, now, None)];
      }
    }

    /** The target's runs to process, each once, by scheduled instant. */
    method PendingRuns(target: TargetId, now: Instant) returns (pending: seq<nat>)
      ensures forall r: nat :: r in pending <==> IsPending(Snapshot(), r, now) && runs[r].target == target
      ensures ByInstant(runs, pending) && Distinct(pending)
    {
      pending := [];
      for r := 0 to |runs|
        invariant forall i: nat :: i in pending <==> i < r && IsPending(Snapshot(), i, now) && runs[i].target == target
        invariant ByInstant(runs, pending) && Distinct(pending)
      {
        if runs[r].target == target {
          var listed := runs[r].state == Captured;
          for k := 0 to |attempts|
            invariant listed <==>
              || runs[r].state == Captured
              || exists l :: 0 <= l < k && (PendingReplay(attempts[l], r) || DeadReplay(attempts[l], r, now))
          {
            if attempts[k].run == r && attempts[k].kind == ReplayAttempt
               && (attempts[k].Pending() || attempts[k].Expired(now)) {
              listed := true;
            }
          }
          if listed {
            pending := Insert(pending, r);
          }
        }
      }
    }

    /** `r` among `rs`, after every run that is not later. */
    method Insert(rs: seq<nat>, r: nat) returns (all: seq<nat>)
      requires r < |runs| && r !in rs && ByInstant(runs, rs) && Distinct(rs)
      ensures ByInstant(runs, all) && Distinct(all)
      ensures forall i: nat :: i in all <==> i in rs || i == r
    {
      var k := 0;
      while k < |rs| && runs[rs[k]].scheduledFor <= runs[r].scheduledFor
        invariant k <= |rs| && NotLater(runs, rs, k, r)
      {
        k := k + 1;
      }
      PutOrdered(runs, rs, k, r);
      PutMembers(rs, k, r);
      return Put(rs, k, r);
    }

    // -------------------------------------------------------------- commit

    /** The stored position of every version. */
    method Index() returns (existing: map<Version, nat>)
      requires Silver.Valid(Snapshot().silver)
      ensures Indexes(existing)
    {
      existing := map[];
      for i := 0 to |rows|
        invariant forall v :: v in existing ==> existing[v] < i && VersionOf(rows[existing[v]].observation) == v
        invariant forall j :: 0 <= j < i ==> VersionOf(rows[j].observation) in existing
      {
        existing := existing[VersionOf(rows[i].observation) := i];
      }
    }

    ghost predicate Indexes(existing: map<Version, nat>)
      reads this
    {
      && (forall v :: v in existing ==> existing[v] < |rows| && VersionOf(rows[existing[v]].observation) == v)
      && (forall j :: 0 <= j < |rows| ==> VersionOf(rows[j].observation) in existing)
    }

    method Commit(claim: Claim, w: Work, now: Instant) returns (result: CommitResult)
      requires claim.runId < |runs| && claim.attemptId < |attempts| && Silver.Valid(Snapshot().silver)
      modifies this
      ensures Silver.Valid(Snapshot().silver)
      ensures (Snapshot(), result) == Ledger.Commit(old(Snapshot()), claim, w, now)
      ensures Committed(old(Snapshot()), Snapshot(), claim, w, now, result)
    {
      CommitMeans(Snapshot(), claim, w, now);
      var run := runs[claim.runId];
      if run.fence != claim.fence {
        var stale := attempts[claim.attemptId];
        if stale.outcome.None? {
          attempts := attempts[claim.attemptId := stale.(outcome := Some(LostLease), finishedAt := Some(now))];
        }
        return CommitResult(0, true, 0);
      }
      if w.derivation.Some? && w.derivation.value !in derivations {
        derivations := derivations[w.derivation.value := now];
      }
      var inserted, returned := Upsert(claim.attemptId, w.observations);
      events := StoreEvents(events, run.target, Some(claim.attemptId), w.events, now);
      var attempt := attempts[claim.attemptId];
      attempt := attempt.(outcome := Some(w.outcome), finishedAt := Some(now), derivation := w.derivation);
      attempts := attempts[claim.attemptId := attempt];
      runs := runs[claim.runId := run.(state := w.state, leaseOwner := None, leaseUntil := None, updatedAt := now)];
      return CommitResult(inserted, false, returned);
    }

    /** One observation: a new version gets a row, and each capture one occurrence. */
    method UpsertOne(attempt: nat, o: Observation, existing: map<Version, nat>)
      returns (index: map<Version, nat>, inserted: bool, returned: bool)
      requires Silver.Valid(Silver.Store(rows, occurrences)) && Indexes(existing)
      modifies this`rows, this`occurrences
      ensures Silver.Valid(Silver.Store(rows, occurrences)) && Indexes(index)
      ensures Silver.Store(rows, occurrences) == Silver.StoreOne(Silver.Store(old(rows), old(occurrences)), attempt, o)
      ensures inserted == (|rows| != |old(rows)|)
      ensures |rows| == |old(rows)| + if inserted then 1 else 0
      ensures returned == (Silver.Find(old(rows), VersionOf(o)).Some?
                           && o.fetchedAt !in old(occurrences)[Silver.Find(old(rows), VersionOf(o)).value])
      ensures Upserted(Silver.Store(old(rows), old(occurrences)), Silver.Store(rows, occurrences), attempt, o, inserted,
                       returned)
    {
      ghost var before := Silver.Store(rows, occurrences);
      Silver.StoreOneKeeps(before, attempt, o);
      StoreOneMeans(before, attempt, o);
      var key := VersionOf(o);
      index, inserted, returned := existing, false, false;
      if key in existing {
        var rid := existing[key];
        if o.fetchedAt !in occurrences[rid] {
          occurrences := occurrences[rid := occurrences[rid][o.fetchedAt := Occurrence(OrderingInstant(o), attempt)]];
          returned := true;
        }
      } else {
        assert Silver.Find(rows, key).None?;
        index := index[key := |rows|];
        rows := rows + [StoredObservation(attempt, o)];
        occurrences := occurrences + [map[o.fetchedAt := Occurrence(OrderingInstant(o), attempt)]];
        inserted := true;
      }
    }

    /** The observations of a commit, in order. */
    method Upsert(attempt: nat, os: seq<Observation>) returns (inserted: nat, returned: nat)
      requires Silver.Valid(Silver.Store(rows, occurrences))
      modifies this`rows, this`occurrences
      ensures Silver.Valid(Silver.Store(rows, occurrences))
      ensures Silver.Store(rows, occurrences) == Silver.StoreAll(Silver.Store(old(rows), old(occurrences)), attempt, os)
      ensures inserted == |rows| - |old(rows)|
      ensures returned == Silver.Returned(Silver.Store(old(rows), old(occurrences)), attempt, os)
    {
      ghost var s := Silver.Store(rows, occurrences);
      var existing: map<Version, nat> := Index();
      inserted, returned := 0, 0;
      for n := 0 to |os|
        invariant Silver.Store(rows, occurrences) == Silver.StoreAll(s, attempt, os[..n])
        invariant Silver.Valid(Silver.Store(rows, occurrences)) && Indexes(existing)
        invariant inserted == |rows| - |s.rows| && returned == Silver.Returned(s, attempt, os[..n])
      {
        assert os[..n + 1][..n] == os[..n] && os[..n + 1][n] == os[n];
        var isNew, isBack;
        existing, isNew, isBack := UpsertOne(attempt, os[n], existing);
        inserted := if isNew then inserted + 1 else inserted;
        returned := if isBack then returned + 1 else returned;
      }
      assert os[..|os|] == os;
    }

    // -------------------------------------------------------------- invalidations and events

    method Invalidate(d: Decision) returns (created: bool)
      modifies this
      ensures Snapshot() == AddInvalidation(old(Snapshot()), d)
      ensures Snapshot() == old(Snapshot()).(invalidations := old(invalidations) + {d})
      ensures created == (d !in old(invalidations))
    {
      created := d !in invalidations;
      invalidations := invalidations + {d};
    }

    method Report(target: TargetId, event: QualityEvent, now: Instant)
      modifies this
      ensures Snapshot() == AddEvents(old(Snapshot()), target, None, [event], now)
      ensures Snapshot() == old(Snapshot()).(events := old(events) + [StoredEvent(target, None, event, now)])
    {
      events := StoreEvents(events, target, None, [event], now);
    }

    // -------------------------------------------------------------- the current view

    /** One row per identity, keyed by it: exactly the rows the specification calls current. */
    method CurrentRows(reg: Registry, q: Query) returns (current: map<Identity, nat>)
      requires Readable(Snapshot())
      ensures forall id :: id in current ==>
                && current[id] < |rows| && rows[current[id]].observation.identity == id
                && IsCurrent(reg, Snapshot(), q, current[id])
      ensures forall i: nat :: IsCurrent(reg, Snapshot(), q, i) ==>
                rows[i].observation.identity in current && current[rows[i].observation.identity] == i
      ensures forall id :: id in current ==>
                && current[id] < |rows| && rows[current[id]].observation.identity == id
                && Asked(Snapshot(), q, current[id]) && ComesFirst(reg, Snapshot(), q, current[id])
      ensures forall i: nat :: Asked(Snapshot(), q, i) ==> rows[i].observation.identity in current
    {
      var s := Snapshot();
      var best := BestRows(reg, q);
      forall id | id in best ensures BestFor(reg, s, q, |rows|, id, best[id]) {
      }
      current := map id | id in best && (q.metric.None? || id.metric == q.metric.value) :: best[id];
      forall i: nat | IsCurrent(reg, s, q, i)
        ensures rows[i].observation.identity in current && current[rows[i].observation.identity] == i
      {
        CurrentIsNamed(reg, s, q, best, i);
      }
      forall id | id in current ensures Asked(s, q, current[id]) && ComesFirst(reg, s, q, current[id]) {
        CurrentMeans(reg, s, q, current[id]);
      }
      forall i: nat | Asked(s, q, i) ensures rows[i].observation.identity in current {
        AskedIsCandidate(s, q, i);
      }
    }

    /** The loop: keep the first candidate of each identity that no later one outranks. */
    method BestRows(reg: Registry, q: Query) returns (best: map<Identity, nat>)
      requires Readable(Snapshot())
      ensures BestSoFar(reg, Snapshot(), q, |rows|, best)
    {
      var s := Snapshot();
      best := map[];
      for n := 0 to |rows|
        invariant BestSoFar(reg, s, q, n, best)
      {
        ghost var before := best;
        var key := rows[n].observation.identity;
        if Candidate(s, q, n) && (key !in best || Below(RankOf(reg, s, best[key]), RankOf(reg, s, n))) {
          best := best[key := n];
        }
        ConsiderNext(reg, s, q, n, before, best);
      }
    }
  }

  /** A replay of the run that was asked for and nobody holds. */
  ghost predicate Waiting(a: RunAttempt, run: nat) {
    a.run == run && a.kind == ReplayAttempt && a.outcome.None? && a.leaseOwner.None?
  }

  /** A replay of the run whose holder let its own lease run out. */
  ghost predicate Abandoned(a: RunAttempt, run: nat, now: Instant) {
    && a.run == run && a.kind == ReplayAttempt && a.outcome.None?
    && a.leaseOwner.Some? && a.leaseUntil.Some? && a.leaseUntil.value < now
  }

  /** A run is to be processed when it is captured, or a replay of it waits or was abandoned. */
  lemma PendingMeans(s: State, r: nat, now: Instant)
    ensures IsPending(s, r, now) <==>
      && r < |s.runs|
      && (s.runs[r].state == Captured
          || exists k :: 0 <= k < |s.attempts| && (Waiting(s.attempts[k], r) || Abandoned(s.attempts[k], r, now)))
  {
    assert forall k :: 0 <= k < |s.attempts| ==>
        (PendingReplay(s.attempts[k], r) <==> Waiting(s.attempts[k], r))
        && (DeadReplay(s.attempts[k], r, now) <==> Abandoned(s.attempts[k], r, now));
  }

  /** What a claim does to the attempts: abandoned replays are closed as lost; the first waiting replay is
      handed to the run's new holder or, where there is none, a new attempt is, a replay exactly if one
      was closed. */
  ghost predicate TakenInto(was: seq<RunAttempt>, attempts: seq<RunAttempt>, run: nat, held: Run, id: nat,
                            now: Instant)
  {
    && id < |attempts|
    && (forall k :: 0 <= k < |was| && k != id ==>
          k < |attempts| && attempts[k] == if !Abandoned(was[k], run, now) then was[k]
                                           else was[k].(outcome := Some(LostLease), finishedAt := Some(now)))
    && (forall k :: 0 <= k < |was| && k < id ==> !Waiting(was[k], run))
    && if id < |was|
       then
         && |attempts| == |was| && Waiting(was[id], run)
         && attempts[id] == was[id].(leaseOwner := held.leaseOwner, leaseUntil := held.leaseUntil,
                                     fence := Some(held.fence), capture := held.capture, startedAt := now)
       else
         && id == |was| && |attempts| == |was| + 1
         && attempts[id] == RunAttempt(run, attempts[id].kind, held.leaseOwner, held.leaseUntil, Some(held.fence),
                                       held.capture, None, None, now, None)
         && attempts[id].kind == if exists k :: 0 <= k < |was| && Abandoned(was[k], run, now) then ReplayAttempt
                                 else ProcessAttempt
  }

  lemma TakeMeans(s: State, r: nat, owner: WorkerId, ttl: int, now: Instant)
    requires r < |s.runs|
    ensures var (t, c) := TakeClaim(s, r, owner, ttl, now);
      && TakenInto(s.attempts, t.attempts, r, t.runs[r], c.attemptId, now)
      && c == Claim(r, t.runs[r], t.runs[r].fence, c.attemptId, t.attempts[c.attemptId])
  {
    var closed := CloseDead(s.attempts, r, now);
    forall k | 0 <= k < |s.attempts| ensures Waiting(s.attempts[k], r) <==> PendingReplay(closed[k], r) {
    }
    assert HasDead(s.attempts, r, now) <==>
      exists k :: 0 <= k < |s.attempts| && Abandoned(s.attempts[k], r, now);
  }

  /** Two observations of one version: same identity, payload and derivation. */
  ghost predicate SameVersion(a: Observation, b: Observation) {
    a.identity == b.identity && a.payload == b.payload && a.derivation == b.derivation
  }

  /** What one observation does: a version not stored yet gets a row of its own, one that is gets an occurrence
      for a fetch it has not seen, and nothing else happens. */
  ghost predicate Upserted(s: Silver.Store, t: Silver.Store, attempt: nat, o: Observation, inserted: bool,
                           returned: bool)
    requires |s.rows| == |s.occurrences|
  {
    && (inserted <==> forall i :: 0 <= i < |s.rows| ==> !SameVersion(s.rows[i].observation, o))
    && (returned <==> exists i :: 0 <= i < |s.rows| && SameVersion(s.rows[i].observation, o)
                                  && o.fetchedAt !in s.occurrences[i])
    && (inserted ==>
          && t.rows == s.rows + [StoredObservation(attempt, o)]
          && t.occurrences == s.occurrences + [map[o.fetchedAt := Occurrence(OrderedAt(o), attempt)]])
    && (!inserted ==>
          && t.rows == s.rows && |t.occurrences| == |s.occurrences|
          && forall i :: 0 <= i < |s.rows| ==>
               t.occurrences[i] == if SameVersion(s.rows[i].observation, o) && o.fetchedAt !in s.occurrences[i]
                                   then s.occurrences[i][o.fetchedAt := Occurrence(OrderedAt(o), attempt)]
                                   else s.occurrences[i])
  }

  lemma StoreOneMeans(s: Silver.Store, attempt: nat, o: Observation)
    requires Silver.Valid(s)
    ensures var found := Silver.Find(s.rows, VersionOf(o));
      Upserted(s, Silver.StoreOne(s, attempt, o), attempt, o, found.None?,
               found.Some? && o.fetchedAt !in s.occurrences[found.value])
  {
    forall i | 0 <= i < |s.rows|
      ensures SameVersion(s.rows[i].observation, o) <==> Silver.Find(s.rows, VersionOf(o)) == Some(i)
    {
      assert SameVersion(s.rows[i].observation, o) <==> VersionOf(s.rows[i].observation) == VersionOf(o);
    }
  }

  /** What a commit does.  Under a stale fence the claim's own unfinished attempt is closed as lost; else the
      run takes the state and loses its lease, the attempt is finished, the derivation is registered unless
      it was, and the events are appended. */
  ghost predicate Committed(s: State, u: State, claim: Claim, w: Work, now: Instant, result: CommitResult)
    requires claim.runId < |s.runs| && claim.attemptId < |s.attempts|
  {
    var run, attempt := s.runs[claim.runId], s.attempts[claim.attemptId];
    && (result.lostLease <==> run.fence != claim.fence)
    && if result.lostLease
       then
         && result.inserted == 0 && result.occurrences == 0
         && u == s.(attempts := s.attempts[claim.attemptId :=
                      if attempt.outcome.Some? then attempt
                      else attempt.(outcome := Some(LostLease), finishedAt := Some(now))])
       else
         && u.runs == s.runs[claim.runId := run.(state := w.state, leaseOwner := None, leaseUntil := None,
                                                 updatedAt := now)]
         && u.attempts == s.attempts[claim.attemptId := attempt.(outcome := Some(w.outcome), finishedAt := Some(now),
                                                                 derivation := w.derivation)]
         && u.derivations == (if w.derivation.Some? && w.derivation.value !in s.derivations
                              then s.derivations[w.derivation.value := now] else s.derivations)
         && u.invalidations == s.invalidations
         && |u.events| == |s.events| + |w.events| && s.events <= u.events
         && (forall k :: 0 <= k < |w.events| ==>
               u.events[|s.events| + k] == StoredEvent(run.target, Some(claim.attemptId), w.events[k], now))
         && result.inserted == |u.silver.rows| - |s.silver.rows|
  }

  lemma CommitMeans(s: State, claim: Claim, w: Work, now: Instant)
    requires claim.runId < |s.runs| && claim.attemptId < |s.attempts| && Silver.Valid(s.silver)
    ensures var (u, result) := Ledger.Commit(s, claim, w, now); Committed(s, u, claim, w, now, result)
  {
  }

  /** An observation is ordered by its publication where the source tells it, else by its fetch. */
  ghost function OrderedAt(o: Observation): Instant {
    match o.publishedAt
    case Some(published) => published
    case None => o.fetchedAt
  }

  function Put(rs: seq<nat>, k: nat, r: nat): (all: seq<nat>)
    requires k <= |rs|
    ensures |all| == |rs| + 1
    ensures forall i :: 0 <= i < |all| ==> all[i] == if i < k then rs[i] else if i == k then r else rs[i - 1]
  {
    rs[..k] + [r] + rs[k..]
  }

  /** Runs in order of their scheduled instants. */
  ghost predicate ByInstant(runs: seq<Run>, rs: seq<nat>) {
    && (forall k :: 0 <= k < |rs| ==> rs[k] < |runs|)
    && forall i, j :: 0 <= i < j < |rs| ==> runs[rs[i]].scheduledFor <= runs[rs[j]].scheduledFor
  }

  ghost predicate Distinct(rs: seq<nat>) {
    forall i, j :: 0 <= i < j < |rs| ==> rs[i] != rs[j]
  }

  /** The first `k` runs of the list are not later than `r`. */
  ghost predicate NotLater(runs: seq<Run>, rs: seq<nat>, k: nat, r: nat)
    requires k <= |rs| && r < |runs| && forall i :: 0 <= i < |rs| ==> rs[i] < |runs|
  {
    forall i :: 0 <= i < k ==> runs[rs[i]].scheduledFor <= runs[r].scheduledFor
  }

  lemma PutOrdered(runs: seq<Run>, rs: seq<nat>, k: nat, r: nat)
    requires k <= |rs| && r < |runs| && r !in rs && ByInstant(runs, rs) && Distinct(rs) && NotLater(runs, rs, k, r)
    requires k < |rs| ==> runs[r].scheduledFor < runs[rs[k]].scheduledFor
    ensures ByInstant(runs, Put(rs, k, r)) && Distinct(Put(rs, k, r))
  {
    var all := Put(rs, k, r);
    forall i, j | 0 <= i < j < |all|
      ensures runs[all[i]].scheduledFor <= runs[all[j]].scheduledFor && all[i] != all[j]
    {
      var a, b := if i < k then i else i - 1, if j < k then j else j - 1;
      assert i != k ==> all[i] == rs[a] && rs[a] in rs;
      assert j != k ==> all[j] == rs[b] && rs[b] in rs;
      assert i != k && j != k ==> a < b;
    }
  }

  lemma PutMembers(rs: seq<nat>, k: nat, r: nat)
    requires k <= |rs|
    ensures forall i: nat :: i in Put(rs, k, r) <==> i in rs || i == r
  {
    var all := Put(rs, k, r);
    assert all[k] == r;
    forall i: nat | i in rs ensures i in all {
      var n :| 0 <= n < |rs| && rs[n] == i;
      assert all[if n < k then n else n + 1] == i;
    }
  }

  ghost predicate BestFor(reg: Registry, s: State, q: Query, n: nat, id: Identity, i: nat)
    requires Readable(s) && n <= |s.silver.rows|
  {
    i < n && s.silver.rows[i].observation.identity == id && BestOf(reg, s, q, n, i)
  }

  /** `best` names the best of the first `n` rows for every identity that has a candidate there. */
  ghost predicate BestSoFar(reg: Registry, s: State, q: Query, n: nat, best: map<Identity, nat>)
    requires Readable(s) && n <= |s.silver.rows|
  {
    && (forall id :: id in best ==> BestFor(reg, s, q, n, id, best[id]))
    && (forall j :: 0 <= j < n && Candidate(s, q, j) ==> s.silver.rows[j].observation.identity in best)
  }

  lemma ConsiderNext(reg: Registry, s: State, q: Query, n: nat, best: map<Identity, nat>, after: map<Identity, nat>)
    requires Readable(s) && n < |s.silver.rows| && BestSoFar(reg, s, q, n, best)
    requires var key := s.silver.rows[n].observation.identity;
      after == if Candidate(s, q, n) && (key !in best || Below(RankOf(reg, s, best[key]), RankOf(reg, s, n)))
               then best[key := n] else best
    ensures BestSoFar(reg, s, q, n + 1, after)
  {
    forall id | id in after ensures BestFor(reg, s, q, n + 1, id, after[id]) {
      assert id in best ==> BestFor(reg, s, q, n, id, best[id]);
      if after[id] != n {
        StaysBest(reg, s, q, n, after[id]);
      } else if id in best {
        TakesOver(reg, s, q, n, best[id]);
      } else {
        FirstIsBest(reg, s, q, n, best);
      }
    }
  }

  lemma StaysBest(reg: Registry, s: State, q: Query, n: nat, b: nat)
    requires Readable(s) && n < |s.silver.rows| && BestOf(reg, s, q, n, b)
    requires Candidate(s, q, n) && SameIdentity(s, n, b) ==> !Below(RankOf(reg, s, b), RankOf(reg, s, n))
    ensures BestOf(reg, s, q, n + 1, b)
  {
  }

  lemma FirstIsBest(reg: Registry, s: State, q: Query, n: nat, best: map<Identity, nat>)
    requires Readable(s) && n < |s.silver.rows| && BestSoFar(reg, s, q, n, best)
    requires Candidate(s, q, n) && s.silver.rows[n].observation.identity !in best
    ensures BestOf(reg, s, q, n + 1, n)
  {
  }

  lemma CurrentIsNamed(reg: Registry, s: State, q: Query, best: map<Identity, nat>, i: nat)
    requires Readable(s) && BestSoFar(reg, s, q, |s.silver.rows|, best) && IsCurrent(reg, s, q, i)
    ensures s.silver.rows[i].observation.identity in best && best[s.silver.rows[i].observation.identity] == i
  {
    var b := best[s.silver.rows[i].observation.identity];
    assert BestFor(reg, s, q, |s.silver.rows|, s.silver.rows[i].observation.identity, b);
    assert SameIdentity(s, i, b) && SameIdentity(s, b, i);
    PreferredIsOrder(reg, s, i, b, i);
  }

  /** The row just considered outranks the best so far, so it is the best now. */
  lemma TakesOver(reg: Registry, s: State, q: Query, n: nat, b: nat)
    requires Readable(s) && n < |s.silver.rows| && BestOf(reg, s, q, n, b)
    requires Candidate(s, q, n) && SameIdentity(s, n, b) && Below(RankOf(reg, s, b), RankOf(reg, s, n))
    ensures BestOf(reg, s, q, n + 1, n)
  {
    forall j | 0 <= j < n + 1 && Candidate(s, q, j) && SameIdentity(s, n, j) ensures Preferred(reg, s, n, j) {
      PreferredIsOrder(reg, s, n, b, j);
    }
  }
}
