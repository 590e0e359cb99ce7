/** The atomic steps of the run ledger, as functions of its whole state.

A run, attempt or event id is its position: the source numbers rows from a counter and never
deletes one, and iterates its dictionaries in that order.
*/
module Ledger {
  import opened Types
  import Silver

  datatype State = State(
    runs: seq<Run>,
    attempts: seq<RunAttempt>,
    silver: Silver.Store,
    derivations: map<DerivationId, Instant>,
    invalidations: set<Decision>,
    events: seq<StoredEvent>)

  const EMPTY := State([], [], Silver.Store([], []), map[], {}, [])

  // ---------------------------------------------------------------- runs

  function FindRun(runs: seq<Run>, target: TargetId, t: Instant): (r: Option<nat>)
    ensures r.Some? ==> r.value < |runs| && runs[r.value].target == target && runs[r.value].scheduledFor == t
    ensures r.Some? ==> forall i :: 0 <= i < r.value ==> !(runs[i].target == target && runs[i].scheduledFor == t)
    ensures r.None? ==> forall i :: 0 <= i < |runs| ==> !(runs[i].target == target && runs[i].scheduledFor == t)
  {
    if runs == [] then None
    else
      var earlier := FindRun(runs[..|runs| - 1], target, t);
      if earlier.Some? then earlier
      else if runs[|runs| - 1].target == target && runs[|runs| - 1].scheduledFor == t then Some(|runs| - 1)
      else None
  }

  lemma FoundAt(runs: seq<Run>, target: TargetId, t: Instant, i: nat)
    requires i < |runs| && runs[i].target == target && runs[i].scheduledFor == t
    requires forall j :: 0 <= j < i ==> !(runs[j].target == target && runs[j].scheduledFor == t)
    ensures FindRun(runs, target, t) == Some(i)
  {
  }

  /** The run of the instant, if there is one. */
  function RunOn(runs: seq<Run>, target: TargetId, t: Instant): Option<Run> {
    match FindRun(runs, target, t)
    case None => None
    case Some(i) => Some(runs[i])
  }

  /** Runs of other targets keep their places, and runs are added for this target only. */
  ghost predicate OthersKept(target: TargetId, runs: seq<Run>, after: seq<Run>) {
    && |runs| <= |after|
    && (forall i :: 0 <= i < |runs| && runs[i].target != target ==> after[i] == runs[i])
    && (forall i :: 0 <= i < |runs| ==>
          after[i].target == runs[i].target && after[i].scheduledFor == runs[i].scheduledFor)
    && (forall i :: |runs| <= i < |after| ==> after[i].target == target)
  }

  /** What a run must be for `ensure_run` to record a capture on it. */
  predicate Fillable(run: Run, state: RunState) {
    state == Captured && run.state != Processed && run.capture.None?
  }

  function EnsureRun(s: State, target: TargetId, t: Instant, state: RunState, origin: RunOrigin,
                     capture: Option<CaptureId>, now: Instant): (r: (State, nat))
    ensures r.1 < |r.0.runs| && r.0.runs[r.1].target == target && r.0.runs[r.1].scheduledFor == t
  {
    match FindRun(s.runs, target, t)
    case None =>
      (s.(runs := s.runs + [Run(target, t, state, 0, origin, None, None, capture, now, now)]), |s.runs|)
    case Some(i) =>
      if Fillable(s.runs[i], state) then
        (s.(runs := s.runs[i := s.runs[i].(state := Captured, capture := capture, updatedAt := now)]), i)
      else
        (s, i)
  }

  function SetState(s: State, r: nat, state: RunState, now: Instant): State
    requires r < |s.runs|
  {
    s.(runs := s.runs[r := s.runs[r].(state := state, updatedAt := now)])
  }

  /** A new generation: the run names `c`, is pending again, and every claim on it is fenced off. */
  function Recaptured(run: Run, c: CaptureId, now: Instant): Run {
    run.(state := Captured, capture := Some(c), fence := run.fence + 1,
         leaseOwner := None, leaseUntil := None, updatedAt := now)
  }

  function MarkRecaptured(s: State, r: nat, c: CaptureId, now: Instant): State
    requires r < |s.runs|
  {
    s.(runs := s.runs[r := Recaptured(s.runs[r], c, now)])
  }

  // ---------------------------------------------------------------- attempts

  predicate PendingReplay(a: RunAttempt, r: nat) {
    a.run == r && a.kind == ReplayAttempt && a.Pending()
  }

  /** A replay a dead worker left behind: unfinished, and its own lease ran out. */
  predicate DeadReplay(a: RunAttempt, r: nat, now: Instant) {
    a.run == r && a.kind == ReplayAttempt && a.Expired(now)
  }

  function Closed(a: RunAttempt, outcome: Outcome, now: Instant): RunAttempt {
    a.(outcome := Some(outcome), finishedAt := Some(now))
  }

  function CloseDead(attempts: seq<RunAttempt>, r: nat, now: Instant): (result: seq<RunAttempt>)
    ensures |result| == |attempts|
    ensures forall i :: 0 <= i < |attempts| ==>
      result[i] == if DeadReplay(attempts[i], r, now) then Closed(attempts[i], LostLease, now) else attempts[i]
  {
    seq(|attempts|, i requires 0 <= i < |attempts| =>
          if DeadReplay(attempts[i], r, now) then Closed(attempts[i], LostLease, now) else attempts[i])
  }

  predicate HasDead(attempts: seq<RunAttempt>, r: nat, now: Instant) {
    exists i :: 0 <= i < |attempts| && DeadReplay(attempts[i], r, now)
  }

  function FirstPending(attempts: seq<RunAttempt>, r: nat): (result: Option<nat>)
    ensures result.Some? ==> result.value < |attempts| && PendingReplay(attempts[result.value], r)
    ensures result.Some? ==> forall j :: 0 <= j < result.value ==> !PendingReplay(attempts[j], r)
    ensures result.None? ==> forall j :: 0 <= j < |attempts| ==> !PendingReplay(attempts[j], r)
  {
    if attempts == [] then None
    else
      var earlier := FirstPending(attempts[..|attempts| - 1], r);
      if earlier.Some? then earlier
      else if PendingReplay(attempts[|attempts| - 1], r) then Some(|attempts| - 1)
      else None
  }

  function OpenReplay(r: nat, capture: Option<CaptureId>, now: Instant): RunAttempt {
    RunAttempt(r, ReplayAttempt, None, None, None, capture, None, None, now, None)
  }

  predicate Claimable(run: Run, now: Instant) {
    run.leaseUntil.None? || run.leaseUntil.value < now
  }

  /** The run as its new holder has it. */
  function Leased(run: Run, owner: WorkerId, ttl: int, now: Instant): Run {
    run.(fence := run.fence + 1, leaseOwner := Some(owner), leaseUntil := Some(now + ttl), updatedAt := now)
  }

  /** The attempt `a` of the run in the hands of the run's new holder. */
  function Held(a: RunAttempt, run: Run, now: Instant): RunAttempt {
    a.(leaseOwner := run.leaseOwner, leaseUntil := run.leaseUntil, fence := Some(run.fence),
       capture := run.capture, startedAt := now)
  }

  /** `claim` on a free run: a pending replay is adopted, a dead one reopened, else a process
      attempt is opened. */
  function TakeClaim(s: State, r: nat, owner: WorkerId, ttl: int, now: Instant): (result: (State, Claim))
    requires r < |s.runs|
    ensures result.1.runId == r && result.1.attemptId < |result.0.attempts|
  {
    var run := Leased(s.runs[r], owner, ttl, now);
    var closed := CloseDead(s.attempts, r, now);
    var pending := FirstPending(closed, r);
    var kind := if HasDead(s.attempts, r, now) then ReplayAttempt else ProcessAttempt;
    var id := if pending.Some? then pending.value else |closed|;
    var attempt :=
      if pending.Some? then Held(closed[id], run, now)
      else Held(OpenReplay(r, run.capture, now).(kind := kind), run, now);
    var attempts := if pending.Some? then closed[id := attempt] else closed + [attempt];
    (s.(runs := s.runs[r := run], attempts := attempts), Claim(r, run, run.fence, id, attempt))
  }

  function ClaimRun(s: State, r: nat, owner: WorkerId, ttl: int, now: Instant): (result: (State, Option<Claim>))
    requires r < |s.runs|
  {
    if Claimable(s.runs[r], now) then
      var taken := TakeClaim(s, r, owner, ttl, now);
      (taken.0, Some(taken.1))
    else (s, None)
  }

  predicate Current(s: State, c: Claim) {
    c.runId < |s.runs| && s.runs[c.runId].fence == c.fence
  }

  function Renew(s: State, c: Claim, ttl: int, now: Instant): (State, bool)
    requires c.runId < |s.runs|
  {
    if Current(s, c) then
      (s.(runs := s.runs[c.runId := s.runs[c.runId].(leaseUntil := Some(now + ttl), updatedAt := now)]), true)
    else (s, false)
  }

  /** What a worker asks `commit` to write. */
  datatype Work = Work(
    state: RunState,
    outcome: Outcome,
    derivation: Option<DerivationId>,
    observations: seq<Observation>,
    events: seq<QualityEvent>)

  function Register(derivations: map<DerivationId, Instant>, d: DerivationId, now: Instant)
    : map<DerivationId, Instant>
  {
    if d in derivations then derivations else derivations[d := now]
  }

  function StoreEvents(events: seq<StoredEvent>, target: TargetId, attempt: Option<nat>,
                       added: seq<QualityEvent>, now: Instant): (r: seq<StoredEvent>)
    ensures |r| == |events| + |added| && events <= r
  {
    events + seq(|added|, i requires 0 <= i < |added| => StoredEvent(target, attempt, added[i], now))
  }

  /** A commit under a stale fence closes its own unfinished attempt and does nothing else. */
  function LoseClaim(s: State, c: Claim, now: Instant): State
    requires c.attemptId < |s.attempts|
  {
    if s.attempts[c.attemptId].outcome.None?
    then s.(attempts := s.attempts[c.attemptId := Closed(s.attempts[c.attemptId], LostLease, now)])
    else s
  }

  function Accept(s: State, c: Claim, w: Work, now: Instant): State
    requires c.runId < |s.runs| && c.attemptId < |s.attempts|
    requires |s.silver.rows| == |s.silver.occurrences|
  {
    var attempt := Closed(s.attempts[c.attemptId], w.outcome, now).(derivation := w.derivation);
    State(
      s.runs[c.runId := s.runs[c.runId].(state := w.state, leaseOwner := None, leaseUntil := None, updatedAt := now)],
      s.attempts[c.attemptId := attempt],
      Silver.StoreAll(s.silver, c.attemptId, w.observations),
      if w.derivation.Some? then Register(s.derivations, w.derivation.value, now) else s.derivations,
      s.invalidations,
      StoreEvents(s.events, s.runs[c.runId].target, Some(c.attemptId), w.events, now))
  }

  function Commit(s: State, c: Claim, w: Work, now: Instant): (result: (State, CommitResult))
    requires c.runId < |s.runs| && c.attemptId < |s.attempts|
    requires Silver.Valid(s.silver)
  {
    if Current(s, c) then
      Silver.StoreAllOrigin(s.silver, c.attemptId, w.observations);
      var after := Accept(s, c, w, now);
      (after, CommitResult(|after.silver.rows| - |s.silver.rows|, false,
                           Silver.Returned(s.silver, c.attemptId, w.observations)))
    else (LoseClaim(s, c, now), CommitResult(0, true, 0))
  }

  function RecordAttempt(s: State, r: nat, kind: AttemptKind, outcome: Outcome, capture: Option<CaptureId>,
                         now: Instant): State
  {
    s.(attempts := s.attempts + [RunAttempt(r, kind, None, None, None, capture, None, Some(outcome), now, Some(now))])
  }

  function EnqueueReplay(s: State, r: nat, now: Instant): State
    requires r < |s.runs|
  {
    if FirstPending(s.attempts, r).Some? then s
    else s.(attempts := s.attempts + [OpenReplay(r, s.runs[r].capture, now)])
  }

  /** Runs to process: captured, or with a replay that is pending or was left by a dead worker. */
  predicate IsPending(s: State, r: nat, now: Instant) {
    && r < |s.runs|
    && (|| s.runs[r].state == Captured
        || exists i :: 0 <= i < |s.attempts| && (PendingReplay(s.attempts[i], r) || DeadReplay(s.attempts[i], r, now)))
  }

  // ---------------------------------------------------------------- invalidations

  function AddInvalidation(s: State, d: Decision): State {
    s.(invalidations := s.invalidations + {d})
  }

  predicate IsInvalidated(decisions: set<Decision>, c: CaptureId, d: DerivationId) {
    Decision(c, None) in decisions || Decision(c, Some(d)) in decisions
  }

  function AddEvents(s: State, target: TargetId, attempt: Option<nat>, events: seq<QualityEvent>, now: Instant): State {
    s.(events := StoreEvents(s.events, target, attempt, events, now))
  }
}
