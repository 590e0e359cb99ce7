/** Any number of workers over one Bronze and one ledger, as interleaved atomic steps.

Each action is one store call of a runtime function, with the guard that function checked before
making it; a guard that was read earlier is kept only in the form that cannot become false since.
*/
module System {
  import opened Types
  import opened Ledger
  import Silver

  /** `claims` are the claims handed out and not yet committed: `process_one` commits each once. */
  datatype System = System(bronze: Bronze, ledger: State, claims: set<Claim>)

  datatype Action =
    | LogCapture(entry: CaptureEntry)
    | Decide(decision: Decision)
    | Ack(entry: CaptureEntry, origin: RunOrigin, now: Instant)
    | AckEmpty(target: TargetId, t: Instant, state: RunState, origin: RunOrigin, now: Instant)
    | Recapture(run: nat, entry: CaptureEntry, now: Instant)
    | Record(run: nat, kind: AttemptKind, outcome: Outcome, capture: Option<CaptureId>, now: Instant)
    | Mark(run: nat, state: RunState, now: Instant)
    | Mirror(decision: Decision)
    | Take(run: nat, owner: WorkerId, ttl: int, now: Instant)
    | Extend(claim: Claim, ttl: int, now: Instant)
    | Finish(claim: Claim, derivation: DerivationId, refused: bool, processedAt: Instant, now: Instant)
    | Enqueue(run: nat, now: Instant)
    | Report(target: TargetId, event: QualityEvent, now: Instant)

  // ---------------------------------------------------------------- process_one

  function CaptureOf(c: Claim): Option<CaptureId> {
    if c.attempt.capture.Some? then c.attempt.capture else c.run.capture
  }

  const FAILURE := QualityEvent(ProcessFailed, None)

  /** What `process_one` commits for claim `c`: a missing entry or blob fails, a refused capture
      and an unmappable payload are quarantined, everything else is processed. */
  function WorkFor(cat: Catalog, b: Bronze, c: Claim, d: DerivationId, refused: bool, at: Instant): Work {
    if CaptureOf(c).None? || CaptureOf(c).value !in b.log then Work(Failed, FailedOutcome, Some(d), [], [FAILURE])
    else
      var e := b.log[CaptureOf(c).value];
      if refused then Work(Failed, Quarantined, Some(d), [], [QualityEvent(Invalidated, None)])
      else if e.payload !in b.blobs then Work(Failed, FailedOutcome, Some(d), [], [FAILURE])
      else
        var mapped := Observe(cat, c.run.target, c.run.scheduledFor, d, e, at);
        if mapped.None? then Work(Failed, Quarantined, Some(d), [], [QualityEvent(QuarantinedDocument, None)])
        else Work(Processed, Ok, Some(d), mapped.value, [])
  }

  // ---------------------------------------------------------------- steps

  /** Entry `e` is in the log and belongs to the run of `target` at `t`. */
  predicate Logged(b: Bronze, e: CaptureEntry) {
    e.id in b.log && b.log[e.id] == e
  }

  ghost predicate Enabled(sys: System, a: Action) {
    var s := sys.ledger;
    match a
    case LogCapture(e) => e.id !in sys.bronze.log
    case Decide(_) => true
    case Ack(e, _, _) => Logged(sys.bronze, e)
    case AckEmpty(_, _, state, _, _) => state in {Scheduled, MissingCapture, Unrecoverable}
    case Recapture(r, e, _) =>
      r < |s.runs| && Logged(sys.bronze, e)
      && s.runs[r].target == e.id.target && s.runs[r].scheduledFor == e.id.scheduledFor
    case Record(r, kind, _, capture, _) =>
      r < |s.runs| && kind in {CaptureAttempt, BackfillAttempt} && InLog(sys.bronze, capture, s.runs[r])
    case Mark(r, state, _) => r < |s.runs| && state in {MissingCapture, Unrecoverable}
    case Mirror(d) => d in sys.bronze.decisions
    case Take(r, _, _, _) => r < |s.runs| && s.runs[r].capture.Some?
    case Extend(c, ttl, now) =>
      c in sys.claims && c.runId < |s.runs|
      && (s.runs[c.runId].leaseUntil.Some? ==> s.runs[c.runId].leaseUntil.value <= now + ttl)
    case Finish(c, d, refused, _, _) =>
      && c in sys.claims && c.runId < |s.runs| && c.attemptId < |s.attempts| && Silver.Valid(s.silver)
      && (refused ==> CaptureOf(c).Some? && IsInvalidated(s.invalidations, CaptureOf(c).value, d))
    case Enqueue(r, _) => r < |s.runs| && s.runs[r].capture.Some?
    case Report(_, _, _) => true
  }

  ghost function Apply(cat: Catalog, sys: System, a: Action): System
    requires Enabled(sys, a)
  {
    var s := sys.ledger;
    match a
    case LogCapture(e) =>
      sys.(bronze := sys.bronze.(log := sys.bronze.log[e.id := e], blobs := sys.bronze.blobs + {e.payload}))
    case Decide(d) => sys.(bronze := sys.bronze.(decisions := sys.bronze.decisions + {d}))
    case Ack(e, origin, now) =>
      sys.(ledger := EnsureRun(s, e.id.target, e.id.scheduledFor, Captured, origin, Some(e.id), now).0)
    case AckEmpty(target, t, state, origin, now) =>
      sys.(ledger := EnsureRun(s, target, t, state, origin, None, now).0)
    case Recapture(r, e, now) => sys.(ledger := MarkRecaptured(s, r, e.id, now))
    case Record(r, kind, outcome, capture, now) => sys.(ledger := RecordAttempt(s, r, kind, outcome, capture, now))
    case Mark(r, state, now) => sys.(ledger := SetState(s, r, state, now))
    case Mirror(d) => sys.(ledger := AddInvalidation(s, d))
    case Take(r, owner, ttl, now) =>
      var (after, claim) := ClaimRun(s, r, owner, ttl, now);
      sys.(ledger := after, claims := if claim.Some? then sys.claims + {claim.value} else sys.claims)
    case Extend(c, ttl, now) => sys.(ledger := Renew(s, c, ttl, now).0)
    case Finish(c, d, refused, at, now) =>
      sys.(ledger := Commit(s, c, WorkFor(cat, sys.bronze, c, d, refused, at), now).0, claims := sys.claims - {c})
    case Enqueue(r, now) => sys.(ledger := EnqueueReplay(s, r, now))
    case Report(target, event, now) => sys.(ledger := AddEvents(s, target, None, [event], now))
  }

  // ---------------------------------------------------------------- the invariant

  /** Capture `c`, if any, is a log entry of the run's own target and instant. */
  predicate InLog(b: Bronze, c: Option<CaptureId>, run: Run) {
    c.Some? ==> c.value in b.log && c.value.target == run.target && c.value.scheduledFor == run.scheduledFor
  }

  ghost predicate LogOk(b: Bronze) {
    forall c :: c in b.log ==> b.log[c].id == c && b.log[c].payload in b.blobs
  }

  ghost predicate RunOk(b: Bronze, run: Run) {
    InLog(b, run.capture, run) && (run.state in {Captured, Processed} ==> run.capture.Some?)
  }

  ghost predicate RunsOk(b: Bronze, s: State) {
    && (forall i :: 0 <= i < |s.runs| ==> RunOk(b, s.runs[i]))
    && (forall i, j :: 0 <= i < j < |s.runs| ==>
          !(s.runs[i].target == s.runs[j].target && s.runs[i].scheduledFor == s.runs[j].scheduledFor))
  }

  /** One attempt against its run: what it names, and what holding it means. */
  ghost predicate AttemptOk(b: Bronze, run: Run, a: RunAttempt) {
    && InLog(b, a.capture, run)
    && (a.fence.Some? <==> a.leaseOwner.Some?) && (a.fence.Some? <==> a.leaseUntil.Some?)
    && (a.fence.Some? ==> a.fence.value <= run.fence && a.capture.Some?)
    && (a.kind in {ProcessAttempt, ReplayAttempt} ==> run.capture.Some?)
    && (a.kind == ProcessAttempt ==> a.fence.Some?)
    && (a.kind in {CaptureAttempt, BackfillAttempt} ==> a.outcome.Some? && a.fence.None?)
    // the newest claim, while unfinished, keeps the run leased at least as long as its attempt
    // says and keeps the run on the capture its attempt names
    && (a.fence == Some(run.fence) && a.outcome.None? ==>
          run.leaseUntil.Some? && a.leaseUntil.value <= run.leaseUntil.value && run.capture == a.capture)
  }

  ghost predicate AttemptsOk(b: Bronze, s: State) {
    && (forall k :: 0 <= k < |s.attempts| ==>
          s.attempts[k].run < |s.runs| && AttemptOk(b, s.runs[s.attempts[k].run], s.attempts[k]))
    && (forall k, l :: 0 <= k < l < |s.attempts| && s.attempts[k].run == s.attempts[l].run ==>
          !(s.attempts[k].fence.Some? && s.attempts[k].fence == s.attempts[l].fence))
  }

  ghost predicate OnePending(attempts: seq<RunAttempt>) {
    forall k, l, r :: 0 <= k < l < |attempts| ==> !(PendingReplay(attempts[k], r) && PendingReplay(attempts[l], r))
  }

  ghost predicate ClaimOk(s: State, c: Claim) {
    && c.runId < |s.runs| && c.attemptId < |s.attempts|
    && c.run.target == s.runs[c.runId].target && c.run.scheduledFor == s.runs[c.runId].scheduledFor
    && var a := s.attempts[c.attemptId];
       && a.run == c.runId && a.fence == Some(c.fence) && a.capture == c.attempt.capture
       && a.kind in {ProcessAttempt, ReplayAttempt}
       && (Current(s, c) ==> a.outcome.None?)
  }

  ghost predicate ClaimsOk(s: State, claims: set<Claim>) {
    && (forall c :: c in claims ==> ClaimOk(s, c))
    && (forall c, d :: c in claims && d in claims && c.attemptId == d.attemptId ==> c == d)
  }

  /** A finished attempt that processed capture `c` of run `r`. */
  predicate Completed(a: RunAttempt, r: nat, c: Option<CaptureId>) {
    a.run == r && a.kind in {ProcessAttempt, ReplayAttempt} && a.outcome == Some(Ok) && a.capture == c && c.Some?
  }

  ghost predicate ProcessedOk(s: State) {
    forall r :: 0 <= r < |s.runs| && s.runs[r].state == Processed ==>
      exists k :: 0 <= k < |s.attempts| && Completed(s.attempts[k], r, s.runs[r].capture)
  }

  /** Attempt `k` mapped, under `d`, a logged capture of its own run, and `o` is one of the
      observations that gave. */
  ghost predicate MappedBy(cat: Catalog, b: Bronze, s: State, k: nat, d: DerivationId, o: Observation) {
    && k < |s.attempts| && s.attempts[k].run < |s.runs|
    && var a, run := s.attempts[k], s.runs[s.attempts[k].run];
       && Completed(a, a.run, a.capture) && a.derivation == Some(d) && InLog(b, a.capture, run)
       && var mapped := Observe(cat, run.target, run.scheduledFor, d, b.log[a.capture.value], o.processedAt);
          mapped.Some? && o in mapped.value
  }

  /** The occurrence of row `i` at fetch instant `f` was put there by the attempt it names. */
  ghost predicate OccurrenceOk(cat: Catalog, b: Bronze, s: State, i: nat, f: Instant)
    requires i < |s.silver.rows| == |s.silver.occurrences| && f in s.silver.occurrences[i]
  {
    exists o :: VersionOf(o) == VersionOf(s.silver.rows[i].observation) && o.fetchedAt == f
      && OrderingInstant(o) == s.silver.occurrences[i][f].instant
      && MappedBy(cat, b, s, s.silver.occurrences[i][f].attempt, o.derivation, o)
  }

  ghost predicate SilverOk(cat: Catalog, b: Bronze, s: State) {
    && Silver.Valid(s.silver)
    && (forall i :: 0 <= i < |s.silver.rows| ==>
          && MappedBy(cat, b, s, s.silver.rows[i].attempt,
                      s.silver.rows[i].observation.derivation, s.silver.rows[i].observation)
          && s.silver.rows[i].observation.derivation in s.derivations)
    && (forall i, f :: 0 <= i < |s.silver.rows| && f in s.silver.occurrences[i] ==> OccurrenceOk(cat, b, s, i, f))
  }

  ghost predicate Inv(cat: Catalog, sys: System) {
    && LogOk(sys.bronze)
    && RunsOk(sys.bronze, sys.ledger)
    && AttemptsOk(sys.bronze, sys.ledger)
    && OnePending(sys.ledger.attempts)
    && ClaimsOk(sys.ledger, sys.claims)
    && ProcessedOk(sys.ledger)
    && SilverOk(cat, sys.bronze, sys.ledger)
    && sys.ledger.invalidations <= sys.bronze.decisions
  }

  // ---------------------------------------------------------------- what every step keeps

  /** Nothing settled is ever lost: entries, run keys, named captures, fences, finished attempts,
      Silver rows and occurrences, registrations and decisions. */
  ghost predicate Grows(p: System, q: System)
    requires |p.ledger.silver.rows| == |p.ledger.silver.occurrences|
    requires |q.ledger.silver.rows| == |q.ledger.silver.occurrences|
  {
    var s, t := p.ledger, q.ledger;
    && (forall c :: c in p.bronze.log ==> c in q.bronze.log && q.bronze.log[c] == p.bronze.log[c])
    && |s.runs| <= |t.runs| && |s.attempts| <= |t.attempts|
    && (forall r :: 0 <= r < |s.runs| ==> RunGrows(s.runs[r], t.runs[r]))
    && (forall k :: 0 <= k < |s.attempts| ==>
          t.attempts[k].run == s.attempts[k].run && (s.attempts[k].outcome.Some? ==> t.attempts[k] == s.attempts[k]))
    && Silver.Extends(s.silver, t.silver)
    && (forall d :: d in s.derivations ==> d in t.derivations && t.derivations[d] == s.derivations[d])
    && s.invalidations <= t.invalidations && p.bronze.decisions <= q.bronze.decisions
  }

  ghost predicate RunGrows(run: Run, after: Run) {
    && after.target == run.target && after.scheduledFor == run.scheduledFor
    && run.fence <= after.fence
    && (run.capture.Some? ==> after.capture.Some?)
    && (after.fence == run.fence && run.capture.Some? ==> after.capture == run.capture)
  }
}
