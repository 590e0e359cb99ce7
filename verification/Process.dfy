/** Process: reconcile, then claim and commit every pending run. */
module Process {
  import opened Types
  import opened Ledger
  import opened CaptureLog
  import opened System
  import Invariant
  import MemoryStore
  import Reconcile
  import Silver

  /** What `process_one` commits: a missing entry fails, an invalidated capture is refused. */
  function WorkOn(cat: Catalog, b: Bronze, s: State, c: Claim, d: DerivationId, at: Instant): Work {
    WorkFor(cat, b, c, d, CaptureOf(c).Some? && IsInvalidated(s.invalidations, CaptureOf(c).value, d), at)
  }

  /** Every version that mapping entry `e` under `d` gives is stored. */
  ghost predicate Covered(cat: Catalog, s: Silver.Store, d: DerivationId, e: CaptureEntry) {
    var outcome := cat.mapping(e.id.target, d, e.payload, e.id.scheduledFor);
    outcome.Mapped? ==> forall i :: 0 <= i < |outcome.measurements| ==>
      Silver.Stored(s, Version(IdentityOf(cat.feed(e.id.target).dataset, outcome.measurements[i]), e.payload, d))
  }

  lemma CoveredPersists(cat: Catalog, s: Silver.Store, t: Silver.Store, d: DerivationId, e: CaptureEntry)
    requires s.rows <= t.rows && Covered(cat, s, d, e)
    ensures Covered(cat, t, d, e)
  {
  }

  // ---------------------------------------------------------------- one claimed run

  /** Claim run `r` and commit its work: a whole turn of one worker, undisturbed. */
  function Turn(cat: Catalog, b: Bronze, s: State, r: nat, owner: WorkerId, ttl: int, d: DerivationId,
                taken: Instant, at: Instant, done: Instant): State
    requires r < |s.runs| && Silver.Valid(s.silver)
  {
    var (t, c) := TakeClaim(s, r, owner, ttl, taken);
    Commit(t, c, WorkOn(cat, b, t, c, d, at), done).0
  }

  /** Everything but run `r`, the attempts and what the commit added is as before. */
  ghost predicate TurnOf(s: State, u: State, r: nat) {
    && r < |s.runs| && |u.runs| == |s.runs| && u.invalidations == s.invalidations
    && (forall i :: 0 <= i < |s.runs| && i != r ==> u.runs[i] == s.runs[i])
    && u.runs[r].capture == s.runs[r].capture && u.runs[r].leaseUntil.None?
    && u.runs[r].target == s.runs[r].target && u.runs[r].scheduledFor == s.runs[r].scheduledFor
  }

  lemma TurnShape(s: State, t: State, r: nat, c: Claim, w: Work, done: Instant)
    requires Invariant.Taken(s, r, c, t) && t == s.(runs := t.runs, attempts := t.attempts) && Silver.Valid(s.silver)
    ensures TurnOf(s, Accept(t, c, w, done), r) && s.silver.rows <= Accept(t, c, w, done).silver.rows
  {
    Silver.StoreAllKeeps(t.silver, c.attemptId, w.observations);
  }

  lemma TurnKeeps(cat: Catalog, sys: System, r: nat, owner: WorkerId, ttl: int, d: DerivationId,
                  taken: Instant, at: Instant, done: Instant)
    requires Inv(cat, sys) && r < |sys.ledger.runs| && sys.ledger.runs[r].capture.Some?
    ensures var u := Turn(cat, sys.bronze, sys.ledger, r, owner, ttl, d, taken, at, done);
      Inv(cat, sys.(ledger := u)) && Grows(sys, sys.(ledger := u))
  {
    var (t, c) := TakeClaim(sys.ledger, r, owner, ttl, taken);
    var mid := sys.(ledger := t, claims := sys.claims + {c});
    Invariant.KeepsTake(cat, sys, r, owner, ttl, taken);
    Invariant.ClaimShape(sys.ledger, r, owner, ttl, taken);
    CommitKeeps(cat, sys, mid, r, c, d, at, done);
  }

  lemma CommitKeeps(cat: Catalog, sys: System, mid: System, r: nat, c: Claim, d: DerivationId, at: Instant,
                    done: Instant)
    requires Inv(cat, sys) && Inv(cat, mid) && Grows(sys, mid) && mid.bronze == sys.bronze
    requires mid.claims == sys.claims + {c}
    requires sys.claims + {c} - {c} == sys.claims && Current(mid.ledger, c)
    ensures c.attemptId < |mid.ledger.attempts|
    ensures var q := sys.(ledger := Accept(mid.ledger, c, WorkOn(cat, sys.bronze, mid.ledger, c, d, at), done));
      Inv(cat, q) && Grows(sys, q)
  {
    assert c in mid.claims && ClaimOk(mid.ledger, c);
    var refused := CaptureOf(c).Some? && IsInvalidated(mid.ledger.invalidations, CaptureOf(c).value, d);
    Invariant.KeepsAccept(cat, mid, c, d, refused, at, done);
    var w := WorkOn(cat, sys.bronze, mid.ledger, c, d, at);
    Invariant.GrowsTransitive(sys, mid, sys.(ledger := Accept(mid.ledger, c, w, done)));
  }

  /** If the run's capture is usable, its versions are stored afterwards. */
  lemma TurnCovers(cat: Catalog, sys: System, r: nat, owner: WorkerId, ttl: int, d: DerivationId,
                   taken: Instant, at: Instant, done: Instant)
    requires Inv(cat, sys) && r < |sys.ledger.runs| && sys.ledger.runs[r].capture.Some?
    ensures var u := Turn(cat, sys.bronze, sys.ledger, r, owner, ttl, d, taken, at, done);
            var c := sys.ledger.runs[r].capture.value;
      && c in sys.bronze.log
      && (!IsInvalidated(sys.ledger.invalidations, c, d) ==> Covered(cat, u.silver, d, sys.bronze.log[c]))
  {
    var b := sys.bronze;
    var (t, claim) := TakeClaim(sys.ledger, r, owner, ttl, taken);
    Invariant.ClaimShape(sys.ledger, r, owner, ttl, taken);
    assert RunOk(b, sys.ledger.runs[r]);
    var e := b.log[sys.ledger.runs[r].capture.value];
    var w := WorkOn(cat, b, t, claim, d, at);
    if !IsInvalidated(sys.ledger.invalidations, e.id, d)
       && cat.mapping(e.id.target, d, e.payload, e.id.scheduledFor).Mapped? {
      Silver.StoreAllKeeps(t.silver, claim.attemptId, w.observations);
      RecordedCovers(cat, Silver.StoreAll(t.silver, claim.attemptId, w.observations), d, e, at, w.observations);
    }
  }

  lemma RecordedCovers(cat: Catalog, s: Silver.Store, d: DerivationId, e: CaptureEntry, at: Instant,
                       os: seq<Observation>)
    requires |s.rows| == |s.occurrences| && Observe(cat, e.id.target, e.id.scheduledFor, d, e, at) == Some(os)
    requires forall k :: 0 <= k < |os| ==> Silver.Recorded(s, VersionOf(os[k]), os[k].fetchedAt)
    ensures Covered(cat, s, d, e)
  {
    var ms := cat.mapping(e.id.target, d, e.payload, e.id.scheduledFor).measurements;
    forall i | 0 <= i < |ms|
      ensures Silver.Stored(s, Version(IdentityOf(cat.feed(e.id.target).dataset, ms[i]), e.payload, d))
    {
      assert os[i] == Envelope(cat.feed(e.id.target), d, e, at, ms[i]);
      assert Silver.Recorded(s, VersionOf(os[i]), os[i].fetchedAt);
    }
  }

  /** Claim `c`'s capture, if it has an entry in the log. */
  function EntryOf(b: Bronze, c: Claim): Option<CaptureEntry> {
    if CaptureOf(c).Some? && CaptureOf(c).value in b.log then Some(b.log[CaptureOf(c).value]) else None
  }

  /** The capture is there, stands, has its payload and maps. */
  predicate Mappable(cat: Catalog, b: Bronze, s: State, c: Claim, d: DerivationId) {
    && EntryOf(b, c).Some? && !IsInvalidated(s.invalidations, CaptureOf(c).value, d)
    && EntryOf(b, c).value.payload in b.blobs
    && cat.mapping(c.run.target, d, EntryOf(b, c).value.payload, c.run.scheduledFor).Mapped?
  }

  /** The decision table of `process_one`, by what the log, the blobs, the decisions and the mapping say of the
      capture that the attempt (or else the run) names. */
  ghost function Decided(cat: Catalog, b: Bronze, decisions: set<Decision>, claim: Claim, d: DerivationId,
                         at: Instant): Work
  {
    var named := if claim.attempt.capture.None? then claim.run.capture else claim.attempt.capture;
    match named
    case None => Work(Failed, FailedOutcome, Some(d), [], [QualityEvent(ProcessFailed, None)])
    case Some(c) =>
      if c !in b.log then Work(Failed, FailedOutcome, Some(d), [], [QualityEvent(ProcessFailed, None)])
      else if Decision(c, None) in decisions || Decision(c, Some(d)) in decisions then
        Work(Failed, Quarantined, Some(d), [], [QualityEvent(Invalidated, None)])
      else if b.log[c].payload !in b.blobs then
        Work(Failed, FailedOutcome, Some(d), [], [QualityEvent(ProcessFailed, None)])
      else
        match cat.mapping(claim.run.target, d, b.log[c].payload, claim.run.scheduledFor)
        case Unmappable => Work(Failed, Quarantined, Some(d), [], [QualityEvent(QuarantinedDocument, None)])
        case Mapped(ms) =>
          Work(Processed, Ok, Some(d), Enveloped(cat.feed(claim.run.target), d, b.log[c], at, ms), [])
  }

  /** The measurements of a document, each under its identity and with what is known of the capture. */
  ghost function Enveloped(feed: Feed, d: DerivationId, e: CaptureEntry, at: Instant, ms: seq<Measurement>)
    : (os: seq<Observation>)
    ensures |os| == |ms|
  {
    seq(|ms|, i requires 0 <= i < |ms| =>
          Observation(Identity(feed.dataset, ms[i].dimensions, ms[i].start, ms[i].resolution, ms[i].metric,
                               ms[i].sourceVersion),
                      feed.transport, ms[i].contractVersion, d, e.payload, e.fetchedAt, ms[i].publishedAt, at,
                      ms[i].value))
  }

  lemma WorkIsDecided(cat: Catalog, b: Bronze, s: State, claim: Claim, d: DerivationId, at: Instant)
    ensures WorkOn(cat, b, s, claim, d, at) == Decided(cat, b, s.invalidations, claim, d, at)
  {
    if EntryOf(b, claim).Some? {
      var e := EntryOf(b, claim).value;
      var outcome := cat.mapping(claim.run.target, d, e.payload, claim.run.scheduledFor);
      if outcome.Mapped? {
        assert Observe(cat, claim.run.target, claim.run.scheduledFor, d, e, at).value
            == Enveloped(cat.feed(claim.run.target), d, e, at, outcome.measurements);
      }
    }
  }

  /** `process_one` under a claim.  A fenced-off claim loses; a missing entry or blob fails; a capture
      ruled out or unmappable is quarantined and stores nothing; else the run is processed, as a
      no-op exactly when the document had observations and Silver already had all of it. */
  method One(store: MemoryStore.Store, cat: Catalog, b: Bronze, claim: Claim, d: DerivationId, at: Instant,
             done: Instant)
    returns (outcome: Outcome)
    requires claim.runId < |store.runs| && claim.attemptId < |store.attempts| && Silver.Valid(store.Snapshot().silver)
    modifies store
    ensures var s := old(store.Snapshot());
      store.Snapshot() == Commit(s, claim, WorkOn(cat, b, s, claim, d, at), done).0
    ensures outcome == LostLease <==> !Current(old(store.Snapshot()), claim)
    ensures outcome in {Ok, Noop} <==>
      Current(old(store.Snapshot()), claim) && Mappable(cat, b, old(store.Snapshot()), claim, d)
    ensures outcome in {Ok, Noop} ==> store.runs[claim.runId].state == Processed
    ensures outcome == Noop ==> Silver.Store(store.rows, store.occurrences) == old(store.Snapshot().silver)
    ensures outcome == FailedOutcome <==>
      && Current(old(store.Snapshot()), claim)
      && (|| EntryOf(b, claim).None?
          || (&& !IsInvalidated(old(store.invalidations), CaptureOf(claim).value, d)
              && EntryOf(b, claim).value.payload !in b.blobs))
    ensures outcome in {FailedOutcome, Quarantined} ==>
      && store.runs[claim.runId].state == Failed
      && Silver.Store(store.rows, store.occurrences) == old(store.Snapshot().silver)
    ensures outcome in {LostLease, FailedOutcome, Quarantined, Ok, Noop}
    ensures var s, w := old(store.Snapshot()), Decided(cat, b, old(store.invalidations), claim, d, at);
      && store.Snapshot() == Commit(s, claim, w, done).0
      && outcome == if s.runs[claim.runId].fence != claim.fence then LostLease
                    else if w.outcome == Ok && w.observations != []
                            && Silver.Store(store.rows, store.occurrences) == s.silver then Noop
                    else w.outcome
  {
    WorkIsDecided(cat, b, store.Snapshot(), claim, d, at);
    var refused := CaptureOf(claim).Some? && IsInvalidated(store.invalidations, CaptureOf(claim).value, d);
    var w := WorkFor(cat, b, claim, d, refused, at);
    ghost var before := store.Snapshot();
    var result := store.Commit(claim, w, done);
    if result.lostLease {
      outcome := LostLease;
    } else if w.outcome == Ok && w.observations != [] && result.inserted == 0 && result.occurrences == 0 {
      Silver.NothingCounted(before.silver, claim.attemptId, w.observations);
      outcome := Noop;
    } else {
      if Silver.Store(store.rows, store.occurrences) == before.silver {
        Silver.UnchangedCountsNothing(before.silver, claim.attemptId, w.observations);
      }
      outcome := w.outcome;
    }
  }

  // ---------------------------------------------------------------- what the attempts of a worker stand for

  /** Attempt `k` belongs to the target, ran under `d`, and read a capture that stands. */
  ghost predicate Clean(u: State, k: nat, target: TargetId, d: DerivationId) {
    && k < |u.attempts| && u.attempts[k].run < |u.runs| && u.runs[u.attempts[k].run].target == target
    && u.attempts[k].derivation == Some(d) && u.attempts[k].capture.Some?
    && !IsInvalidated(u.invalidations, u.attempts[k].capture.value, d)
  }

  ghost predicate FairAttempt(s: State, u: State, k: nat, target: TargetId, d: DerivationId)
    requires k < |u.attempts|
  {
    u.attempts[k].outcome == Some(Ok) ==> (k < |s.attempts| && u.attempts[k] == s.attempts[k]) || Clean(u, k, target, d)
  }

  /** Every attempt of `u` that ended ok did so in `s` already, or is a clean one of the target. */
  ghost predicate Fair(s: State, u: State, target: TargetId, d: DerivationId) {
    |s.attempts| <= |u.attempts| && forall k :: 0 <= k < |u.attempts| ==> FairAttempt(s, u, k, target, d)
  }

  ghost predicate KeepsTargets(runs: seq<Run>, after: seq<Run>) {
    |runs| <= |after| && forall r :: 0 <= r < |runs| ==> after[r].target == runs[r].target
  }

  /** Runs of other targets are untouched. */
  ghost predicate OthersSame(runs: seq<Run>, after: seq<Run>, target: TargetId) {
    && |runs| == |after|
    && forall r :: 0 <= r < |runs| ==>
         after[r].target == runs[r].target && (runs[r].target != target ==> after[r] == runs[r])
  }

  lemma FairTransitive(s: State, t: State, u: State, target: TargetId, d: DerivationId)
    requires Fair(s, t, target, d) && Fair(t, u, target, d)
    requires KeepsTargets(t.runs, u.runs) && u.invalidations == t.invalidations
    ensures Fair(s, u, target, d)
  {
    forall k | 0 <= k < |u.attempts| ensures FairAttempt(s, u, k, target, d) {
      assert FairAttempt(t, u, k, target, d);
      if k < |t.attempts| && u.attempts[k] == t.attempts[k] {
        assert FairAttempt(s, t, k, target, d);
      }
    }
  }

  lemma FairSame(s: State, u: State, target: TargetId, d: DerivationId)
    requires u.attempts == s.attempts
    ensures Fair(s, u, target, d)
  {
  }

  /** A turn ends only its own attempt, and ends it ok only for a capture that stands. */
  lemma TurnIsFair(s: State, t: State, r: nat, c: Claim, w: Work, d: DerivationId, done: Instant)
    requires Invariant.Taken(s, r, c, t) && t == s.(runs := t.runs, attempts := t.attempts) && Silver.Valid(s.silver)
    requires w.derivation == Some(d)
    requires w.outcome == Ok ==> s.runs[r].capture.Some? && !IsInvalidated(s.invalidations, s.runs[r].capture.value, d)
    ensures Fair(s, Accept(t, c, w, done), s.runs[r].target, d)
  {
    var u := Accept(t, c, w, done);
    forall k | 0 <= k < |u.attempts| ensures FairAttempt(s, u, k, s.runs[r].target, d) {
      if k < |s.attempts| && k != c.attemptId {
        assert Invariant.AttemptClaimed(s.attempts[k], t.attempts[k], t.runs[r], r);
      }
    }
  }

  // ---------------------------------------------------------------- every pending run

  /** No run of the target is leased. */
  ghost predicate Quiet(s: State, target: TargetId) {
    forall r :: 0 <= r < |s.runs| && s.runs[r].target == target ==> s.runs[r].leaseUntil.None?
  }

  /** `u` came from `m` by worker turns only: captures, keys and decisions are as in `m`. */
  ghost predicate Worked(m: State, u: State) {
    && |u.runs| == |m.runs| && u.invalidations == m.invalidations && m.silver.rows <= u.silver.rows
    && forall r :: 0 <= r < |m.runs| ==>
         && u.runs[r].target == m.runs[r].target && u.runs[r].scheduledFor == m.runs[r].scheduledFor
         && u.runs[r].capture == m.runs[r].capture
  }

  /** The capture run `r` names in `m` is logged, and covered in `u` if it is usable. */
  ghost predicate RunCovered(cat: Catalog, b: Bronze, m: State, u: State, d: DerivationId, r: nat) {
    && r < |m.runs| && m.runs[r].capture.Some? && m.runs[r].capture.value in b.log
    && (!IsInvalidated(m.invalidations, m.runs[r].capture.value, d) ==>
          Covered(cat, u.silver, d, b.log[m.runs[r].capture.value]))
  }

  /** The capture run `r` names in `m` is logged, stands and maps under `d`. */
  ghost predicate RunMapped(cat: Catalog, b: Bronze, m: State, d: DerivationId, r: nat) {
    && r < |m.runs| && m.runs[r].capture.Some? && m.runs[r].capture.value in b.log
    && !IsInvalidated(m.invalidations, m.runs[r].capture.value, d) && Maps(cat, d, b.log[m.runs[r].capture.value])
  }

  predicate Maps(cat: Catalog, d: DerivationId, e: CaptureEntry) {
    cat.mapping(e.id.target, d, e.payload, e.id.scheduledFor).Mapped?
  }

  predicate AllOk(outcomes: seq<Outcome>) {
    forall k :: 0 <= k < |outcomes| ==> outcomes[k] in {Ok, Noop}
  }

  lemma TurnWorks(cat: Catalog, sys: System, m: State, r: nat, owner: WorkerId, ttl: int, d: DerivationId,
                  taken: Instant, at: Instant, done: Instant)
    requires Inv(cat, sys) && Worked(m, sys.ledger) && r < |m.runs| && m.runs[r].capture.Some?
    ensures var u := Turn(cat, sys.bronze, sys.ledger, r, owner, ttl, d, taken, at, done);
      && Worked(m, u) && sys.ledger.silver.rows <= u.silver.rows && RunCovered(cat, sys.bronze, m, u, d, r)
      && forall target :: Quiet(sys.ledger, target) ==> Quiet(u, target)
  {
    var u := Turn(cat, sys.bronze, sys.ledger, r, owner, ttl, d, taken, at, done);
    TurnKept(cat, sys.bronze, sys.ledger, r, owner, ttl, d, taken, at, done);
    TurnCovers(cat, sys, r, owner, ttl, d, taken, at, done);
  }

  lemma TurnKept(cat: Catalog, b: Bronze, s: State, r: nat, owner: WorkerId, ttl: int, d: DerivationId,
                 taken: Instant, at: Instant, done: Instant)
    requires r < |s.runs| && Silver.Valid(s.silver)
    ensures var u := Turn(cat, b, s, r, owner, ttl, d, taken, at, done);
      TurnOf(s, u, r) && s.silver.rows <= u.silver.rows
  {
    var (t, c) := TakeClaim(s, r, owner, ttl, taken);
    Invariant.ClaimShape(s, r, owner, ttl, taken);
    TurnShape(s, t, r, c, WorkOn(cat, b, t, c, d, at), done);
  }

  lemma MergeOneStaysQuiet(s: State, log: map<CaptureId, CaptureEntry>, e: CaptureEntry, now: Instant, target: TargetId)
    requires Quiet(s, target)
    ensures Quiet(Reconcile.MergeOne(s, log, e, now), target)
  {
  }

  /** Reconcile leases nothing. */
  lemma {:induction false} MergeStaysQuiet(s: State, log: map<CaptureId, CaptureEntry>, es: seq<CaptureEntry>,
                                           now: Instant, target: TargetId)
    requires Quiet(s, target)
    ensures Quiet(Reconcile.MergeAll(s, log, es, now), target)
  {
    if es != [] {
      MergeStaysQuiet(s, log, es[..|es| - 1], now, target);
      MergeOneStaysQuiet(Reconcile.MergeAll(s, log, es[..|es| - 1], now), log, es[|es| - 1], now, target);
    }
  }

  /** `process`: reconcile the window, then claim and commit every pending run.  The clock may
      show anything at each reading.  When nobody else holds a run of the target and there is no
      limit, every pending run has its versions stored afterwards, is processed if its capture maps,
      and no report is a failure exactly when all of them map. */
  method Run(store: MemoryStore.Store, ghost claims: set<Claim>, cat: Catalog, b: Bronze, target: TargetId,
             d: DerivationId, owner: WorkerId, ttl: int, limit: Option<nat>, es: seq<CaptureEntry>, now: Instant)
    returns (outcomes: seq<Outcome>)
    requires Inv(cat, System(b, store.Snapshot(), claims))
    requires Sorted(es) && forall e :: e in es ==> Logged(b, e)
    modifies store
    ensures Inv(cat, System(b, store.Snapshot(), claims))
    ensures limit.Some? ==> |outcomes| <= limit.value
    ensures var m := Reconcile.ReconcileFrom(old(store.Snapshot()), b, target, d, es, now);
      && Worked(m, store.Snapshot())
      && (Quiet(old(store.Snapshot()), target) ==> Quiet(store.Snapshot(), target))
      && (Quiet(old(store.Snapshot()), target) && limit.None? ==>
            AllDone(cat, b, m, store.Snapshot(), target, d, now, outcomes))
      && (Quiet(old(store.Snapshot()), target) ==>
            WorkedInTurn(cat, b, m, store.Snapshot(), target, d, now, limit, outcomes))
      && (forall r: nat :: r < |m.runs| && !Listed(m, target, r, now) ==> store.runs[r] == m.runs[r])
      && Fair(m, store.Snapshot(), target, d) && OthersSame(m.runs, store.runs, target)
  {
    ghost var before := store.Snapshot();
    Reconcile.Run(store, b, target, d, es, now);
    Reconcile.ReconcileKeeps(cat, System(b, before, claims), target, d, es, now);
    ghost var m := store.Snapshot();
    if Quiet(before, target) {
      ghost var mirrored := Reconcile.Mirrored(before, b, target);
      assert Quiet(mirrored, target);
      MergeStaysQuiet(mirrored, b.log, Reconcile.NewestOf(es, mirrored.invalidations, d), now, target);
    }
    outcomes := ClaimPending(store, claims, cat, b, target, d, owner, ttl, limit, now);
  }

  lemma OneMoreOk(outcomes: seq<Outcome>, o: Outcome)
    ensures AllOk(outcomes + [o]) <==> AllOk(outcomes) && o in {Ok, Noop}
  {
    assert (outcomes + [o])[|outcomes|] == o;
    assert forall k :: 0 <= k < |outcomes| ==> (outcomes + [o])[k] == outcomes[k];
  }

  lemma BothOk(first: seq<Outcome>, second: seq<Outcome>)
    ensures AllOk(first + second) <==> AllOk(first) && AllOk(second)
  {
    assert forall k :: 0 <= k < |first| ==> (first + second)[k] == first[k];
    assert forall k :: 0 <= k < |second| ==> (first + second)[|first| + k] == second[k];
  }

  /** Run `r` is covered in `u`, and processed there if its capture maps. */
  ghost predicate RunDone(cat: Catalog, b: Bronze, m: State, u: State, d: DerivationId, r: nat) {
    RunCovered(cat, b, m, u, d, r) && (RunMapped(cat, b, m, d, r) ==> r < |u.runs| && u.runs[r].state == Processed)
  }

  ghost predicate RunsMapped(cat: Catalog, b: Bronze, m: State, d: DerivationId, rs: seq<nat>, n: nat)
    requires n <= |rs|
  {
    forall k :: 0 <= k < n ==> RunMapped(cat, b, m, d, rs[k])
  }

  /** The first `n` runs of the list are done, and no outcome is a failure exactly when all map. */
  ghost predicate Progress(cat: Catalog, b: Bronze, m: State, u: State, d: DerivationId, rs: seq<nat>, n: nat,
                           outcomes: seq<Outcome>)
    requires n <= |rs|
  {
    && (forall k :: 0 <= k < n ==> RunDone(cat, b, m, u, d, rs[k]))
    && (AllOk(outcomes) <==> RunsMapped(cat, b, m, d, rs, n))
  }

  lemma NextProgress(cat: Catalog, b: Bronze, m: State, t: State, u: State, d: DerivationId, rs: seq<nat>, n: nat,
                     outcomes: seq<Outcome>, o: Outcome)
    requires n < |rs| && Progress(cat, b, m, t, d, rs, n, outcomes) && t.silver.rows <= u.silver.rows
    requires |t.runs| <= |u.runs| && forall i :: 0 <= i < |t.runs| && i != rs[n] ==> u.runs[i] == t.runs[i]
    requires RunDone(cat, b, m, u, d, rs[n]) && (o in {Ok, Noop} <==> RunMapped(cat, b, m, d, rs[n]))
    requires forall k :: 0 <= k < n ==> rs[k] != rs[n]
    ensures Progress(cat, b, m, u, d, rs, n + 1, outcomes + [o])
  {
    OneMoreOk(outcomes, o);
    forall k | 0 <= k < n ensures RunDone(cat, b, m, u, d, rs[k]) {
      assert RunDone(cat, b, m, t, d, rs[k]);
    }
    assert RunsMapped(cat, b, m, d, rs, n + 1) <==> RunsMapped(cat, b, m, d, rs, n) && RunMapped(cat, b, m, d, rs[n]);
  }

  /** A run of the target that `process` finds to do. */
  predicate Listed(m: State, target: TargetId, r: nat, now: Instant) {
    IsPending(m, r, now) && m.runs[r].target == target
  }

  /** What is known about the listed runs when all of them were worked on. */
  ghost predicate AllDone(cat: Catalog, b: Bronze, m: State, u: State, target: TargetId, d: DerivationId, now: Instant,
                          outcomes: seq<Outcome>)
  {
    && (forall r: nat :: Listed(m, target, r, now) ==> RunDone(cat, b, m, u, d, r))
    && (AllOk(outcomes) <==> forall r: nat :: Listed(m, target, r, now) ==> RunMapped(cat, b, m, d, r))
  }

  lemma AllProgressed(cat: Catalog, b: Bronze, m: State, u: State, target: TargetId, d: DerivationId, now: Instant,
                      rs: seq<nat>, outcomes: seq<Outcome>)
    requires Progress(cat, b, m, u, d, rs, |rs|, outcomes) && forall r: nat :: r in rs <==> Listed(m, target, r, now)
    ensures AllDone(cat, b, m, u, target, d, now, outcomes)
  {
    forall r: nat | Listed(m, target, r, now) ensures RunDone(cat, b, m, u, d, r) {
      assert r in rs;
    }
    if forall r: nat :: Listed(m, target, r, now) ==> RunMapped(cat, b, m, d, r) {
      forall k | 0 <= k < |rs| ensures RunMapped(cat, b, m, d, rs[k]) {
        assert rs[k] in rs;
      }
    }
    if RunsMapped(cat, b, m, d, rs, |rs|) {
      forall r: nat | Listed(m, target, r, now) ensures RunMapped(cat, b, m, d, r) {
        assert r in rs;
      }
    }
  }

  method ClaimPending(store: MemoryStore.Store, ghost claims: set<Claim>, cat: Catalog, b: Bronze, target: TargetId,
                      d: DerivationId, owner: WorkerId, ttl: int, limit: Option<nat>, now: Instant)
    returns (outcomes: seq<Outcome>)
    requires Inv(cat, System(b, store.Snapshot(), claims))
    modifies store
    ensures Inv(cat, System(b, store.Snapshot(), claims))
    ensures limit.Some? ==> |outcomes| <= limit.value
    ensures Worked(old(store.Snapshot()), store.Snapshot())
    ensures Quiet(old(store.Snapshot()), target) ==> Quiet(store.Snapshot(), target)
    ensures Fair(old(store.Snapshot()), store.Snapshot(), target, d)
    ensures OthersSame(old(store.runs), store.runs, target)
    ensures Quiet(old(store.Snapshot()), target) && limit.None? ==>
      AllDone(cat, b, old(store.Snapshot()), store.Snapshot(), target, d, now, outcomes)
    ensures Quiet(old(store.Snapshot()), target) ==>
      WorkedInTurn(cat, b, old(store.Snapshot()), store.Snapshot(), target, d, now, limit, outcomes)
    ensures forall r: nat :: r < |old(store.runs)| && !Listed(old(store.Snapshot()), target, r, now) ==>
      store.runs[r] == old(store.runs)[r]
  {
    ghost var m := store.Snapshot();
    var pending := store.PendingRuns(target, now);
    ghost var upto;
    outcomes, upto := ClaimAll(store, claims, cat, b, target, pending, d, owner, ttl, limit, now);
    Concludes(cat, b, m, store.Snapshot(), target, d, now, pending, upto, limit, outcomes);
  }

  /** The loop over the pending runs, up to the limit. */
  method ClaimAll(store: MemoryStore.Store, ghost claims: set<Claim>, cat: Catalog, b: Bronze, ghost target: TargetId,
                  pending: seq<nat>, d: DerivationId, owner: WorkerId, ttl: int, limit: Option<nat>,
                  ghost now: Instant)
    returns (outcomes: seq<Outcome>, ghost upto: nat)
    requires Inv(cat, System(b, store.Snapshot(), claims)) && InTurn(store.Snapshot(), target, now, pending)
    modifies store
    ensures Inv(cat, System(b, store.Snapshot(), claims)) && upto <= |pending|
    ensures Going(cat, b, old(store.Snapshot()), store.Snapshot(), target, d, pending, upto, limit, outcomes)
    ensures limit.Some? ==> |outcomes| <= limit.value
    ensures upto < |pending| ==> limit.Some? && |outcomes| >= limit.value
  {
    ghost var m := store.Snapshot();
    Begins(cat, b, m, target, d, pending, limit);
    outcomes, upto := [], 0;
    for n := 0 to |pending|
      invariant Inv(cat, System(b, store.Snapshot(), claims)) && (limit.Some? ==> |outcomes| <= limit.value)
      invariant upto == n && Going(cat, b, m, store.Snapshot(), target, d, pending, n, limit, outcomes)
    {
      if limit.Some? && |outcomes| >= limit.value {
        break;
      }
      NextIsNamed(cat, System(b, m, claims), target, now, pending, n);
      outcomes := ClaimNext(store, claims, m, cat, b, target, pending, n, d, owner, ttl, limit, outcomes);
      upto := upto + 1;
    }
  }

  lemma Concludes(cat: Catalog, b: Bronze, m: State, u: State, target: TargetId, d: DerivationId, now: Instant,
                  rs: seq<nat>, n: nat, limit: Option<nat>, outcomes: seq<Outcome>)
    requires InTurn(m, target, now, rs) && n <= |rs| && Going(cat, b, m, u, target, d, rs, n, limit, outcomes)
    requires limit.Some? ==> |outcomes| <= limit.value
    requires n < |rs| ==> limit.Some? && |outcomes| >= limit.value
    ensures Quiet(m, target) ==> WorkedInTurn(cat, b, m, u, target, d, now, limit, outcomes)
    ensures Quiet(m, target) && limit.None? ==> AllDone(cat, b, m, u, target, d, now, outcomes)
    ensures forall r: nat :: r < |m.runs| && !Listed(m, target, r, now) ==> u.runs[r] == m.runs[r]
  {
    if Quiet(m, target) {
      assert WorkedOff(cat, b, m, u, d, rs, limit, outcomes);
      if limit.None? {
        AllProgressed(cat, b, m, u, target, d, now, rs, outcomes);
      }
    }
    forall r: nat | r < |m.runs| && !Listed(m, target, r, now) ensures u.runs[r] == m.runs[r] {
      assert r !in rs;
    }
  }

  lemma Begins(cat: Catalog, b: Bronze, m: State, target: TargetId, d: DerivationId, rs: seq<nat>, limit: Option<nat>)
    ensures Going(cat, b, m, m, target, d, rs, 0, limit, [])
  {
    FairSame(m, m, target, d);
  }

  lemma NextIsNamed(cat: Catalog, sys: System, target: TargetId, now: Instant, rs: seq<nat>, n: nat)
    requires Inv(cat, sys) && n < |rs| && InTurn(sys.ledger, target, now, rs)
    ensures rs[n] < |sys.ledger.runs| && sys.ledger.runs[rs[n]].target == target
    ensures sys.ledger.runs[rs[n]].capture.Some? && forall k :: 0 <= k < n ==> rs[k] != rs[n]
  {
    assert rs[n] in rs;
    PendingIsNamed(cat, sys, rs[n], now);
  }

  /** The next pending run, and its report if it was not held. */
  method ClaimNext(store: MemoryStore.Store, ghost claims: set<Claim>, ghost m: State, cat: Catalog, b: Bronze,
                   ghost target: TargetId, pending: seq<nat>, n: nat, d: DerivationId, owner: WorkerId, ttl: int,
                   ghost limit: Option<nat>, before: seq<Outcome>)
    returns (outcomes: seq<Outcome>)
    requires n < |pending| && pending[n] < |m.runs| && m.runs[pending[n]].target == target
    requires m.runs[pending[n]].capture.Some? && forall k :: 0 <= k < n ==> pending[k] != pending[n]
    requires Inv(cat, System(b, store.Snapshot(), claims))
    requires Going(cat, b, m, store.Snapshot(), target, d, pending, n, limit, before)
    modifies store
    ensures Inv(cat, System(b, store.Snapshot(), claims))
    ensures Going(cat, b, m, store.Snapshot(), target, d, pending, n + 1, limit, outcomes)
    ensures |before| <= |outcomes| <= |before| + 1
  {
    ghost var s := store.Snapshot();
    var worked := ClaimOne(store, claims, m, cat, b, pending[n], d, owner, ttl);
    GoesOn(cat, b, m, s, store.Snapshot(), target, d, pending, n, limit, before, worked);
    outcomes := if worked.Some? then before + [worked.value] else before;
  }

  /** After the first `n` pending runs. */
  ghost predicate Going(cat: Catalog, b: Bronze, m: State, u: State, target: TargetId, d: DerivationId, rs: seq<nat>,
                        n: nat, limit: Option<nat>, outcomes: seq<Outcome>)
    requires n <= |rs|
  {
    && Worked(m, u) && Fair(m, u, target, d) && OthersSame(m.runs, u.runs, target)
    && (Quiet(m, target) ==> Quiet(u, target))
    && (forall r: nat :: r < |m.runs| && (forall k :: 0 <= k < n ==> rs[k] != r) ==> u.runs[r] == m.runs[r])
    && (Quiet(m, target) ==> Progress(cat, b, m, u, d, rs, n, outcomes) && Told(cat, b, m, d, rs, n, outcomes))
  }

  /** Each run has its report: no failure exactly if its capture maps. */
  ghost predicate Told(cat: Catalog, b: Bronze, m: State, d: DerivationId, rs: seq<nat>, n: nat, outcomes: seq<Outcome>)
    requires n <= |rs|
  {
    |outcomes| == n && forall k :: 0 <= k < n ==> (outcomes[k] in {Ok, Noop} <==> RunMapped(cat, b, m, d, rs[k]))
  }

  /** The target's runs to do, in their order. */
  ghost predicate InTurn(m: State, target: TargetId, now: Instant, rs: seq<nat>) {
    && MemoryStore.ByInstant(m.runs, rs) && MemoryStore.Distinct(rs)
    && forall r: nat :: r in rs <==> Listed(m, target, r, now)
  }

  /** The first runs of the list, as many as the limit lets, are done and reported in that order, and all
      other runs are as they were. */
  ghost predicate WorkedOff(cat: Catalog, b: Bronze, m: State, u: State, d: DerivationId, rs: seq<nat>,
                            limit: Option<nat>, outcomes: seq<Outcome>)
  {
    && |outcomes| == (if limit.Some? && limit.value < |rs| then limit.value else |rs|)
    && (forall k :: 0 <= k < |outcomes| ==> RunDone(cat, b, m, u, d, rs[k]))
    && Told(cat, b, m, d, rs, |outcomes|, outcomes)
    && |u.runs| == |m.runs|
    && forall r: nat :: r < |m.runs| && (forall k :: 0 <= k < |outcomes| ==> rs[k] != r) ==> u.runs[r] == m.runs[r]
  }

  ghost predicate WorkedInTurn(cat: Catalog, b: Bronze, m: State, u: State, target: TargetId, d: DerivationId,
                               now: Instant, limit: Option<nat>, outcomes: seq<Outcome>)
  {
    exists rs :: InTurn(m, target, now, rs) && WorkedOff(cat, b, m, u, d, rs, limit, outcomes)
  }

  /** One more pending run keeps it so. */
  lemma GoesOn(cat: Catalog, b: Bronze, m: State, s: State, u: State, target: TargetId, d: DerivationId, rs: seq<nat>,
               n: nat, limit: Option<nat>, outcomes: seq<Outcome>, worked: Option<Outcome>)
    requires n < |rs| && Going(cat, b, m, s, target, d, rs, n, limit, outcomes) && Worked(m, u)
    requires rs[n] < |m.runs| && m.runs[rs[n]].target == target && s.silver.rows <= u.silver.rows
    requires forall i :: 0 <= i < |s.runs| && i != rs[n] ==> u.runs[i] == s.runs[i]
    requires Fair(s, u, target, d) && (Quiet(s, target) ==> Quiet(u, target))
    requires s.runs[rs[n]].leaseUntil.None? ==> worked.Some?
    requires worked.Some? ==>
      RunDone(cat, b, m, u, d, rs[n]) && (worked.value in {Ok, Noop} <==> RunMapped(cat, b, m, d, rs[n]))
    requires forall k :: 0 <= k < n ==> rs[k] != rs[n]
    ensures Going(cat, b, m, u, target, d, rs, n + 1, limit,
                  if worked.Some? then outcomes + [worked.value] else outcomes)
  {
    FairTransitive(m, s, u, target, d);
    if Quiet(m, target) {
      NextProgress(cat, b, m, s, u, d, rs, n, outcomes, worked.value);
    }
  }

  /** One pending run: skipped while another worker holds it. */
  method ClaimOne(store: MemoryStore.Store, ghost claims: set<Claim>, ghost m: State, cat: Catalog, b: Bronze, run: nat,
                  d: DerivationId, owner: WorkerId, ttl: int)
    returns (worked: Option<Outcome>)
    requires Inv(cat, System(b, store.Snapshot(), claims)) && Worked(m, store.Snapshot())
    requires run < |m.runs| && m.runs[run].capture.Some?
    modifies store
    ensures Inv(cat, System(b, store.Snapshot(), claims)) && Worked(m, store.Snapshot())
    ensures old(store.rows) <= store.rows
    ensures forall target :: Quiet(old(store.Snapshot()), target) ==> Quiet(store.Snapshot(), target)
    ensures worked.None? ==> store.Snapshot() == old(store.Snapshot())
    ensures worked.Some? ==> RunCovered(cat, b, m, store.Snapshot(), d, run)
    ensures worked.Some? ==> (worked.value in {Ok, Noop} <==> RunMapped(cat, b, m, d, run))
    ensures worked.Some? && RunMapped(cat, b, m, d, run) ==> store.runs[run].state == Processed
    ensures forall i :: 0 <= i < |old(store.runs)| && i != run ==> store.runs[i] == old(store.runs)[i]
    ensures Fair(old(store.Snapshot()), store.Snapshot(), m.runs[run].target, d)
    ensures old(store.runs[run].leaseUntil).None? ==> worked.Some?
  {
    ghost var sys := System(b, store.Snapshot(), claims);
    var taken: Instant, at: Instant, done: Instant := *, *, *;
    var claim := store.Take(run, owner, ttl, taken);
    if claim.None? {
      FairSame(sys.ledger, store.Snapshot(), m.runs[run].target, d);
      return None;
    }
    Invariant.ClaimShape(sys.ledger, run, owner, ttl, taken);
    var outcome := One(store, cat, b, claim.value, d, at, done);
    TurnKeeps(cat, sys, run, owner, ttl, d, taken, at, done);
    TurnWorks(cat, sys, m, run, owner, ttl, d, taken, at, done);
    TakenMaps(cat, b, m, sys.ledger, claim.value, d, run, owner, ttl, taken);
    TakenIsFair(cat, b, sys.ledger, run, owner, ttl, d, taken, at, done);
    TurnKept(cat, b, sys.ledger, run, owner, ttl, d, taken, at, done);
    return Some(outcome);
  }

  lemma TakenIsFair(cat: Catalog, b: Bronze, s: State, r: nat, owner: WorkerId, ttl: int, d: DerivationId,
                    taken: Instant, at: Instant, done: Instant)
    requires r < |s.runs| && s.runs[r].capture.Some? && Silver.Valid(s.silver)
    ensures Fair(s, Turn(cat, b, s, r, owner, ttl, d, taken, at, done), s.runs[r].target, d)
  {
    var (t, c) := TakeClaim(s, r, owner, ttl, taken);
    Invariant.ClaimShape(s, r, owner, ttl, taken);
    TurnIsFair(s, t, r, c, WorkOn(cat, b, t, c, d, at), d, done);
  }

  /** The claim just taken is mappable exactly when the run's capture is. */
  lemma TakenMaps(cat: Catalog, b: Bronze, m: State, s: State, c: Claim, d: DerivationId, r: nat, owner: WorkerId,
                  ttl: int, now: Instant)
    requires r < |s.runs| && Worked(m, s) && s.runs[r].capture.Some? && LogOk(b) && RunOk(b, s.runs[r])
    requires c == TakeClaim(s, r, owner, ttl, now).1
    ensures Mappable(cat, b, TakeClaim(s, r, owner, ttl, now).0, c, d) <==> RunMapped(cat, b, m, d, r)
    ensures Current(TakeClaim(s, r, owner, ttl, now).0, c)
  {
    Invariant.ClaimShape(s, r, owner, ttl, now);
  }

  /** Runs are claimed only when they name a capture. */
  lemma PendingIsNamed(cat: Catalog, sys: System, r: nat, now: Instant)
    requires Inv(cat, sys) && IsPending(sys.ledger, r, now)
    ensures sys.ledger.runs[r].capture.Some?
  {
  }
}
