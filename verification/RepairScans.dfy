/** Repair work among gap scans: exactly which turn of a scan drops an owed repair. */
module RepairScans {
  import opened Types
  import opened Ledger
  import opened System
  import opened Scans
  import opened Alerts
  import opened Repair
  import Invariant
  import opened SecondAlerts
  import Silver

  /** The move is a scan's turn that marks run `r`. */
  ghost predicate Marks(w: World, m: Move, r: nat) {
    m.Turn? && Possible(w, m) && ActionOf(w, m).Some? && ActionOf(w, m).value.Mark? && ActionOf(w, m).value.run == r
  }

  /** It does so while only the run's `captured` state stands for the debt. */
  ghost predicate TurnDrops(w: World, m: Move, r: nat, f: nat) {
    Marks(w, m, r) && forall k: nat :: !LiveReplay(w.sys.ledger, k, r, f)
  }

  /** The move is an accepted commit on run `r` by a claim taken after fence `f`. */
  ghost predicate MoveSettles(w: World, m: Move, r: nat, f: nat) {
    m.Other? && Settles(w.sys, m.action, r, f)
  }

  /** Exactly: short of an accepted commit by a later claim, the debt stands after a move if and only if
      the move is not such a turn. */
  lemma OwedUnlessTurnDrops(cat: Catalog, w: World, m: Move, r: nat, f: nat)
    requires WorldOk(cat, w) && Possible(w, m) && Owed(w.sys.ledger, r, f) && !MoveSettles(w, m, r, f)
    ensures Owed(Next(cat, w, m).sys.ledger, r, f) <==> !TurnDrops(w, m, r, f)
  {
    MoveIsStep(cat, w, m);
    if ActionOf(w, m).Some? {
      OwedUnlessDropped(cat, w.sys, ActionOf(w, m).value, r, f);
    }
  }

  /** Move `k` is a turn on the instant by a scan that did not find it listed. */
  ghost predicate Unlisted(h: History, k: nat, target: TargetId, t: Instant)
    requires k < |h.moves| < |h.worlds|
  {
    OnInstant(h, k, target, t) && t !in h.worlds[k].scans[h.moves[k].scan].view.entries
  }

  /** A marking turn is on the run's own instant, which its scan did not find listed. */
  lemma MarkedUnlisted(cat: Catalog, h: History, k: nat, r: nat) returns (l: nat, b: nat)
    requires Valid(cat, h) && k < |h.moves| && Marks(h.worlds[k], h.moves[k], r)
    ensures r < |h.worlds[k].sys.ledger.runs| && ReadAt(h, k, h.moves[k].scan, l, b)
    ensures var run := h.worlds[k].sys.ledger.runs[r];
      && Unlisted(h, k, run.target, run.scheduledFor)
      && !HasEntry(h.worlds[l].sys.bronze, run.target, run.scheduledFor)
  {
    l, b := Reads(cat, h, k, h.moves[k].scan);
    Reachable(cat, h, k);
  }

  lemma OwedIsLogged(cat: Catalog, sys: System, r: nat, f: nat)
    requires Inv(cat, sys) && Owed(sys.ledger, r, f) && forall k: nat :: !LiveReplay(sys.ledger, k, r, f)
    ensures HasEntry(sys.bronze, sys.ledger.runs[r].target, sys.ledger.runs[r].scheduledFor)
  {
    var run := sys.ledger.runs[r];
    assert RunOk(sys.bronze, run);
    assert run.capture.value in sys.bronze.log;
  }

  /** A turn drops a repair only when an entry of the instant landed after its scan listed the log. */
  lemma DropNeedsEntry(cat: Catalog, h: History, k: nat, r: nat, f: nat) returns (l: nat, b: nat)
    requires Valid(cat, h) && k < |h.moves| && Owed(h.worlds[k].sys.ledger, r, f)
    requires TurnDrops(h.worlds[k], h.moves[k], r, f)
    ensures ReadAt(h, k, h.moves[k].scan, l, b)
    ensures var run := h.worlds[k].sys.ledger.runs[r];
      Unlisted(h, k, run.target, run.scheduledFor) && LandedIn(h, l, k, run.target, run.scheduledFor)
  {
    var run := h.worlds[k].sys.ledger.runs[r];
    l, b := MarkedUnlisted(cat, h, k, r);
    Reachable(cat, h, k);
    OwedIsLogged(cat, h.worlds[k].sys, r, f);
    EntryLanded(cat, h, l, k, run.target, run.scheduledFor);
  }

  /** No entry of the instant lands between the listing of a scan that found none and its turn on it. */
  ghost predicate ListingsHold(h: History, n: nat, target: TargetId, t: Instant)
    requires |h.worlds| == |h.moves| + 1
  {
    forall k, l, b :: 0 <= k < n && k < |h.moves| && Unlisted(h, k, target, t)
                      && ReadAt(h, k, h.moves[k].scan, l, b) ==>
                        !LandedIn(h, l, k, target, t)
  }

  lemma ListingsSpare(cat: Catalog, h: History, k: nat, n: nat, r: nat, f: nat, target: TargetId, t: Instant)
    requires Valid(cat, h) && k < n && k < |h.moves| && Owed(h.worlds[k].sys.ledger, r, f)
    requires RunAt(h.worlds[k].sys.ledger.runs[r], target, t) && ListingsHold(h, n, target, t)
    ensures !TurnDrops(h.worlds[k], h.moves[k], r, f)
  {
    if TurnDrops(h.worlds[k], h.moves[k], r, f) {
      var l, b := DropNeedsEntry(cat, h, k, r, f);
    }
  }

  /** The listings of scans whose turns act on current readings hold. */
  lemma CurrentListingsHold(cat: Catalog, h: History, n: nat, target: TargetId, t: Instant)
    requires Valid(cat, h) && ReadingsCurrent(h, n, target, t)
    ensures ListingsHold(h, n, target, t)
  {
    forall k: nat, l: nat, b: nat | k < n && k < |h.moves| && Unlisted(h, k, target, t)
                                    && ReadAt(h, k, h.moves[k].scan, l, b)
      ensures !LandedIn(h, l, k, target, t)
    {
      assert Moves(cat, h, k);
      assert !HasEntry(h.worlds[l].sys.bronze, target, t);
      forall i | l <= i < k ensures !Lands(h.moves[i], target, t) {
        assert SameInstant(h.worlds[l].sys, h.worlds[i + 1].sys, target, t);
        assert Moves(cat, h, i);
        LandedIsLogged(cat, h.worlds[i], h.moves[i], target, t);
      }
    }
  }

  /** Move `k` is no accepted commit by a later claim, nor a turn that drops the repair. */
  ghost predicate Spared(h: History, k: nat, r: nat, f: nat)
    requires k < |h.moves| && |h.worlds| == |h.moves| + 1
  {
    !MoveSettles(h.worlds[k], h.moves[k], r, f) && !TurnDrops(h.worlds[k], h.moves[k], r, f)
  }

  lemma SparedKeeps(cat: Catalog, h: History, k: nat, r: nat, f: nat)
    requires Valid(cat, h) && k < |h.moves| && Owed(h.worlds[k].sys.ledger, r, f) && Spared(h, k, r, f)
    ensures Owed(h.worlds[k + 1].sys.ledger, r, f)
  {
    Reachable(cat, h, k);
    assert Moves(cat, h, k);
    OwedUnlessTurnDrops(cat, h.worlds[k], h.moves[k], r, f);
  }

  /** An owed repair stays owed until a later claim's commit is accepted, if the scans' listings hold. */
  lemma {:induction false} OwedAlong(cat: Catalog, h: History, i: nat, j: nat, n: nat, r: nat, f: nat,
                                     target: TargetId, t: Instant)
    requires Valid(cat, h) && i <= j <= n < |h.worlds| && Owed(h.worlds[i].sys.ledger, r, f)
    requires RunAt(h.worlds[i].sys.ledger.runs[r], target, t) && ListingsHold(h, n, target, t)
    requires forall k :: i <= k < n ==> !MoveSettles(h.worlds[k], h.moves[k], r, f)
    ensures Owed(h.worlds[j].sys.ledger, r, f)
    decreases j
  {
    if i < j {
      OwedAlong(cat, h, i, j - 1, n, r, f, target, t);
      OnwardAlong(cat, h, i, j - 1);
      ListingsSpare(cat, h, j - 1, n, r, f, target, t);
      assert Spared(h, j - 1, r, f);
      SparedKeeps(cat, h, j - 1, r, f);
    }
  }

  /** After a replay of the run was enqueued it is owed. */
  lemma EnqueueOwes(cat: Catalog, sys: System, r: nat, now: Instant)
    requires Inv(cat, sys) && Enabled(sys, Enqueue(r, now))
    ensures Owed(Apply(cat, sys, Enqueue(r, now)).ledger, r, sys.ledger.runs[r].fence)
  {
    var s, q := sys.ledger, Apply(cat, sys, Enqueue(r, now));
    Invariant.StepKeeps(cat, sys, Enqueue(r, now));
    var k := if FirstPending(s.attempts, r).Some? then FirstPending(s.attempts, r).value else |s.attempts|;
    assert PendingReplay(q.ledger.attempts[k], r);
    assert AttemptOk(q.bronze, q.ledger.runs[r], q.ledger.attempts[k]);
    assert LiveReplay(q.ledger, k, r, s.runs[r].fence);
  }

  /** Repair work is never dropped, scans included: once a replay was enqueued, and until a commit by a
      later claim is accepted, the run is captured or has an unfinished replay, and it is listed as soon
      as no unexpired lease holds it; provided that no entry of the instant lands between a scan's
      listing and its turn. */
  lemma RepairNeverDropped(cat: Catalog, h: History, i: nat, j: nat, r: nat, target: TargetId, t: Instant, now: Instant)
    requires Valid(cat, h) && i < j < |h.worlds| && h.moves[i].Other? && h.moves[i].action.Enqueue?
    requires h.moves[i].action.run == r < |h.worlds[i].sys.ledger.runs|
    requires RunAt(h.worlds[i].sys.ledger.runs[r], target, t) && ListingsHold(h, j, target, t)
    requires forall k :: i < k < j ==>
      !MoveSettles(h.worlds[k], h.moves[k], r, h.worlds[i].sys.ledger.runs[r].fence)
    ensures var s := h.worlds[j].sys.ledger;
      && r < |s.runs|
      && (s.runs[r].state == Captured || HasOpenReplay(s, r))
      && (Claimable(s.runs[r], now) ==> IsPending(s, r, now))
  {
    var f := h.worlds[i].sys.ledger.runs[r].fence;
    Reachable(cat, h, i);
    assert Moves(cat, h, i);
    EnqueueOwes(cat, h.worlds[i].sys, r, h.moves[i].action.now);
    OnwardAlong(cat, h, i, i + 1);
    OwedAlong(cat, h, i + 1, j, j, r, f, target, t);
    Reachable(cat, h, j);
    OwedIsListed(cat, h.worlds[j].sys, r, f, now);
  }

  // ---------------------------------------------------------------- a scan does drop one

  /** One run, scheduled, for the instant of capture `c`. */
  predicate OneScheduled(runs: seq<Run>, c: CaptureId) {
    Alone(runs, c.target, c.scheduledFor, Scheduled) && runs[0].fence == 0
    && runs[0].capture.None? && runs[0].leaseUntil.None?
  }

  /** One run, captured, with a pending replay and no lease. */
  ghost predicate Queued(s: State, c: CaptureId, now: Instant) {
    && |s.runs| == 1 && RunAt(s.runs[0], c.target, c.scheduledFor) && s.runs[0].fence == 0
    && s.runs[0].capture == Some(c) && s.runs[0].leaseUntil.None?
    && s.attempts == [OpenReplay(0, Some(c), now)] && Silver.Valid(s.silver)
  }

  /** One run, whose newest fence is `fence`, and the one claim on it, unfinished under fence 1. */
  ghost predicate HeldOnce(sys: System, c: Claim, e: CaptureEntry, fence: nat) {
    && c in sys.claims && c.runId == 0 && c.attemptId == 0 && c.fence == 1 && Logged(sys.bronze, e)
    && |sys.ledger.runs| == 1 && sys.ledger.runs[0].fence == fence && Silver.Valid(sys.ledger.silver)
    && RunAt(sys.ledger.runs[0], e.id.target, e.id.scheduledFor)
    && |sys.ledger.attempts| == 1 && sys.ledger.attempts[0].outcome.None? && sys.ledger.attempts[0].fence == Some(1)
  }

  /** Scan 0 of a source without history read no run but a scheduled one. */
  ghost predicate StaleScan(w: World, c: CaptureId, now: Instant, tolerance: int) {
    && 0 in w.scans && w.scans[0].base.Some? && OneScheduled(w.scans[0].base.value, c)
    && HasRead(w, 0, View(c.target, now, tolerance, None), c.scheduledFor, w.scans[0].base.value)
  }

  /** A scan reads the log and the runs before the first capture, and takes its turn on the instant after
      a replay was enqueued, claimed and recaptured over: it parks the run for good.  Nothing was
      committed, and no `pending_runs` ever lists the run again. */
  lemma ScanCanDropRepair(cat: Catalog, w: WorkerId, d: DerivationId, e1: CaptureEntry, e2: CaptureEntry,
                          now: Instant, tolerance: int) returns (h: History, c: Claim)
    requires e2.id == e1.id.(attempt := e1.id.attempt + 1) && Due(e1.id.scheduledFor, now, tolerance)
    ensures Valid(cat, h) && h.moves == Before(e1, e2, w, now, tolerance) + After(e1.id.scheduledFor, c, d, now)
    ensures forall k :: 0 <= k < |h.moves| ==> !MoveSettles(h.worlds[k], h.moves[k], 0, 0)
    ensures TurnDrops(h.worlds[9], h.moves[9], 0, 0)
    ensures forall at :: !IsPending(Now(h).sys.ledger, 0, at)
  {
    h := ReadEarly(cat, e1.id, now, tolerance);
    h := QueueReplay(cat, h, e1, now, tolerance);
    h, c := ClaimAndRecapture(cat, h, e1, e2, w, now, tolerance);
    h := DropAndLose(cat, h, c, d, e2, now, tolerance);
  }

  function Before(e1: CaptureEntry, e2: CaptureEntry, w: WorkerId, now: Instant, tolerance: int): seq<Move> {
    Early(e1.id, now, tolerance)
    + [Other(LogCapture(e1)), Other(Ack(e1, ByScheduler, now)), Other(Enqueue(0, now))]
    + [Other(LogCapture(e2)), Other(Take(0, w, 10, now)), Other(Recapture(0, e2, now))]
  }

  function Early(c: CaptureId, now: Instant, tolerance: int): seq<Move> {
    [Other(AckEmpty(c.target, c.scheduledFor, Scheduled, ByScheduler, c.scheduledFor)),
     ListLog(0, View(c.target, now, tolerance, None), c.scheduledFor - 1), ReadRuns(0)]
  }

  function After(t: Instant, c: Claim, d: DerivationId, now: Instant): seq<Move> {
    [Turn(0, t), Tell(0), Other(Finish(c, d, false, now, now))]
  }

  lemma ReadEarly(cat: Catalog, c: CaptureId, now: Instant, tolerance: int) returns (h: History)
    ensures Valid(cat, h) && h.moves == Early(c, now, tolerance)
    ensures var w := Now(h);
      && StaleScan(w, c, now, tolerance) && OneScheduled(w.sys.ledger.runs, c) && w.sys.bronze.log == map[]
      && w.sys.ledger == EMPTY.(runs := w.sys.ledger.runs)
  {
    h := History([START], []);
    h := Then(cat, h, Other(AckEmpty(c.target, c.scheduledFor, Scheduled, ByScheduler, c.scheduledFor)));
    h := ListAndRead(cat, h, 0, View(c.target, now, tolerance, None), c.scheduledFor);
  }

  lemma QueueReplay(cat: Catalog, h: History, e: CaptureEntry, now: Instant, tolerance: int) returns (g: History)
    requires Valid(cat, h) && StaleScan(Now(h), e.id, now, tolerance)
    requires var w := Now(h);
      && OneScheduled(w.sys.ledger.runs, e.id) && w.sys.bronze.log == map[]
      && w.sys.ledger == EMPTY.(runs := w.sys.ledger.runs)
    ensures Valid(cat, g) && Continues(h, g)
    ensures g.moves == h.moves + [Other(LogCapture(e)), Other(Ack(e, ByScheduler, now)), Other(Enqueue(0, now))]
    ensures var w := Now(g);
      && StaleScan(w, e.id, now, tolerance) && Queued(w.sys.ledger, e.id, now) && w.sys.bronze.log == map[e.id := e]
  {
    Found(Now(h).sys.ledger.runs, e.id.target, e.id.scheduledFor, Scheduled);
    g := Work(cat, h, LogCapture(e));
    g := Work(cat, g, Ack(e, ByScheduler, now));
    g := Work(cat, g, Enqueue(0, now));
  }

  lemma ClaimAndRecapture(cat: Catalog, h: History, e1: CaptureEntry, e2: CaptureEntry, w: WorkerId, now: Instant,
                          tolerance: int) returns (g: History, c: Claim)
    requires Valid(cat, h) && StaleScan(Now(h), e1.id, now, tolerance)
    requires e2.id == e1.id.(attempt := e1.id.attempt + 1)
    requires var v := Now(h);
      Queued(v.sys.ledger, e1.id, now) && v.sys.bronze.log == map[e1.id := e1]
    ensures Valid(cat, g) && Continues(h, g)
    ensures g.moves == h.moves + [Other(LogCapture(e2)), Other(Take(0, w, 10, now)), Other(Recapture(0, e2, now))]
    ensures StaleScan(Now(g), e2.id, now, tolerance) && HeldOnce(Now(g).sys, c, e2, 2)
    ensures Owed(Now(g).sys.ledger, 0, 0)
  {
    g := Work(cat, h, LogCapture(e2));
    assert Now(g).sys.ledger == Now(h).sys.ledger && Logged(Now(g).sys.bronze, e2);
    g, c := TakeAndRecapture(cat, g, e1.id, e2, w, now);
  }

  lemma TakeAndRecapture(cat: Catalog, h: History, c1: CaptureId, e: CaptureEntry, w: WorkerId, now: Instant)
    returns (g: History, c: Claim)
    requires Valid(cat, h) && Queued(Now(h).sys.ledger, c1, now)
    requires Logged(Now(h).sys.bronze, e) && e.id == c1.(attempt := c1.attempt + 1)
    ensures Valid(cat, g) && Continues(h, g) && Now(g).scans == Now(h).scans
    ensures g.moves == h.moves + [Other(Take(0, w, 10, now)), Other(Recapture(0, e, now))]
    ensures HeldOnce(Now(g).sys, c, e, 2) && Owed(Now(g).sys.ledger, 0, 0)
  {
    c := TakeClaim(Now(h).sys.ledger, 0, w, 10, now).1;
    ClaimQueued(cat, Now(h).sys, w, c1, e, now);
    g := Work(cat, h, Take(0, w, 10, now));
    RecaptureHeld(cat, Now(g).sys, c, e, now);
    g := Work(cat, g, Recapture(0, e, now));
  }

  /** Some worker's step. */
  lemma Work(cat: Catalog, h: History, a: Action) returns (g: History)
    requires Valid(cat, h) && Enabled(Now(h).sys, a) && !OfScans(a)
    ensures Valid(cat, g) && Continues(h, g) && g.moves == h.moves + [Other(a)]
    ensures Now(g).sys == Apply(cat, Now(h).sys, a) && Now(g).scans == Now(h).scans
  {
    g := Then(cat, h, Other(a));
  }

  lemma ClaimQueued(cat: Catalog, sys: System, w: WorkerId, c: CaptureId, e: CaptureEntry, now: Instant)
    requires Queued(sys.ledger, c, now) && Logged(sys.bronze, e) && e.id == c.(attempt := c.attempt + 1)
    ensures Enabled(sys, Take(0, w, 10, now))
    ensures HeldOnce(Apply(cat, sys, Take(0, w, 10, now)), TakeClaim(sys.ledger, 0, w, 10, now).1, e, 1)
  {
    assert FirstPending(CloseDead(sys.ledger.attempts, 0, now), 0) == Some(0);
  }

  lemma RecaptureHeld(cat: Catalog, sys: System, c: Claim, e: CaptureEntry, now: Instant)
    requires HeldOnce(sys, c, e, 1)
    ensures Enabled(sys, Recapture(0, e, now))
    ensures var q := Apply(cat, sys, Recapture(0, e, now)); HeldOnce(q, c, e, 2) && Owed(q.ledger, 0, 0)
  {
  }

  /** The scan's turn and its alert. */
  lemma DropTurn(cat: Catalog, h: History, c: Claim, e: CaptureEntry, now: Instant, tolerance: int)
    returns (g: History)
    requires Valid(cat, h) && Due(e.id.scheduledFor, now, tolerance)
    requires StaleScan(Now(h), e.id, now, tolerance) && HeldOnce(Now(h).sys, c, e, 2)
    ensures Valid(cat, g) && Continues(h, g)
    ensures g.moves == h.moves + [Turn(0, e.id.scheduledFor), Tell(0)]
    ensures TurnDrops(Now(h), Turn(0, e.id.scheduledFor), 0, 0)
    ensures HeldOnce(Now(g).sys, c, e, 2) && Now(g).sys.ledger.runs[0].state == Unrecoverable
  {
    var t := e.id.scheduledFor;
    Found(Now(h).scans[0].base.value, e.id.target, t, Scheduled);
    assert {} + {t} == {t};
    g := Then(cat, h, Turn(0, t));
    g := Then(cat, g, Tell(0));
  }

  /** The claim commits after the recapture fenced it off, and loses. */
  lemma LoseLate(cat: Catalog, h: History, c: Claim, d: DerivationId, e: CaptureEntry, now: Instant)
    returns (g: History)
    requires Valid(cat, h) && HeldOnce(Now(h).sys, c, e, 2)
    requires Now(h).sys.ledger.runs[0].state == Unrecoverable
    ensures Valid(cat, g) && Continues(h, g)
    ensures g.moves == h.moves + [Other(Finish(c, d, false, now, now))]
    ensures !MoveSettles(Now(h), Other(Finish(c, d, false, now, now)), 0, 0)
    ensures forall at :: !IsPending(Now(g).sys.ledger, 0, at)
  {
    g := Work(cat, h, Finish(c, d, false, now, now));
    assert Now(g).sys.ledger.attempts[0].outcome == Some(LostLease);
  }

  lemma DropAndLose(cat: Catalog, h: History, c: Claim, d: DerivationId, e: CaptureEntry, now: Instant,
                    tolerance: int) returns (g: History)
    requires Valid(cat, h) && |h.moves| == 9 && Due(e.id.scheduledFor, now, tolerance)
    requires forall k :: 0 <= k < 9 ==> h.moves[k].Other? ==> !h.moves[k].action.Finish?
    requires StaleScan(Now(h), e.id, now, tolerance) && HeldOnce(Now(h).sys, c, e, 2)
    ensures Valid(cat, g) && Continues(h, g)
    ensures g.moves == h.moves + After(e.id.scheduledFor, c, d, now)
    ensures TurnDrops(g.worlds[9], g.moves[9], 0, 0)
    ensures forall k :: 0 <= k < |g.moves| ==> !MoveSettles(g.worlds[k], g.moves[k], 0, 0)
    ensures forall at :: !IsPending(Now(g).sys.ledger, 0, at)
  {
    var mid := DropTurn(cat, h, c, e, now, tolerance);
    g := LoseLate(cat, mid, c, d, e, now);
    assert g.worlds[9] == Now(h) && g.worlds[11] == Now(mid);
  }
}
