/** Capture's ledger bookkeeping: Bronze first, the ledger best-effort. */
module Capture {
  import opened Types
  import opened Ledger
  import opened CaptureLog
  import opened System
  import Invariant
  import MemoryStore

  /** The entry that a conditional request and a 304 refer to: the newest HTTP 200 entry of the
      same delivery day, never a 304 and never another day's file. */
  method Baseline(es: seq<CaptureEntry>, day: Instant -> int, t: Instant) returns (baseline: Option<CaptureEntry>)
    requires Sorted(es)
    ensures baseline.None? <==> forall e :: e in es ==> !(e.status == 200 && day(e.id.scheduledFor) == day(t))
    ensures baseline.Some? ==>
      && baseline.value in es && baseline.value.status == 200 && day(baseline.value.id.scheduledFor) == day(t)
      && forall e :: e in es && e.status == 200 && day(e.id.scheduledFor) == day(t) ==>
           e == baseline.value || Before(e, baseline.value)
  {
    baseline := None;
    for n := 0 to |es|
      invariant baseline.None? <==>
        forall k :: 0 <= k < n ==> !(es[k].status == 200 && day(es[k].id.scheduledFor) == day(t))
      invariant baseline.Some? ==>
        && baseline.value in es[..n] && baseline.value.status == 200 && day(baseline.value.id.scheduledFor) == day(t)
        && forall k :: 0 <= k < n && es[k].status == 200 && day(es[k].id.scheduledFor) == day(t) ==>
             es[k] == baseline.value || Before(es[k], baseline.value)
    {
      if es[n].status == 200 && day(es[n].id.scheduledFor) == day(t) {
        baseline := Some(es[n]);
      }
    }
  }

  /** What may be acknowledged: nothing, or a logged entry of the instant. */
  predicate Acknowledges(b: Bronze, target: TargetId, t: Instant, capture: Option<CaptureId>) {
    capture.Some? ==> capture.value in b.log && capture.value.target == target && capture.value.scheduledFor == t
  }

  lemma EnsureKeeps(cat: Catalog, sys: System, target: TargetId, t: Instant, origin: RunOrigin,
                    capture: Option<CaptureId>, now: Instant)
    requires Inv(cat, sys) && Acknowledges(sys.bronze, target, t, capture)
    ensures var state := if capture.Some? then Captured else Scheduled;
            var (u, r) := EnsureRun(sys.ledger, target, t, state, origin, capture, now);
      Inv(cat, sys.(ledger := u)) && (capture.Some? ==> u.runs[r].capture.Some?)
  {
    var state := if capture.Some? then Captured else Scheduled;
    assert forall i :: 0 <= i < |sys.ledger.runs| ==> RunOk(sys.bronze, sys.ledger.runs[i]);
    Invariant.KeepsEnsure(cat, sys, target, t, state, origin, capture, now);
  }

  lemma RecaptureKeeps(cat: Catalog, sys: System, r: nat, c: CaptureId, now: Instant)
    requires Inv(cat, sys) && r < |sys.ledger.runs|
    requires Acknowledges(sys.bronze, sys.ledger.runs[r].target, sys.ledger.runs[r].scheduledFor, Some(c))
    ensures Inv(cat, sys.(ledger := MarkRecaptured(sys.ledger, r, c, now)))
  {
    var after := Recaptured(sys.ledger.runs[r], c, now);
    assert Invariant.RunStep(sys.ledger.runs[r], after) && RunOk(sys.bronze, after);
    Invariant.KeepsUpdate(cat, sys, r, after);
  }

  lemma RecordKeeps(cat: Catalog, sys: System, r: nat, kind: AttemptKind, outcome: Outcome,
                    capture: Option<CaptureId>, now: Instant)
    requires Inv(cat, sys) && r < |sys.ledger.runs| && kind in {CaptureAttempt, BackfillAttempt}
    requires Acknowledges(sys.bronze, sys.ledger.runs[r].target, sys.ledger.runs[r].scheduledFor, capture)
    ensures Inv(cat, sys.(ledger := RecordAttempt(sys.ledger, r, kind, outcome, capture, now)))
  {
    Invariant.KeepsAppend(cat, sys,
                          RunAttempt(r, kind, None, None, None, capture, None, Some(outcome), now, Some(now)));
  }

  /** The ledger after `_ack` ensured the run and, unless the store went down, advanced it onto a
      recaptured entry. */
  function Advanced(s: State, target: TargetId, t: Instant, origin: RunOrigin, capture: Option<CaptureId>,
                    recaptured: bool, now: Instant, answered: nat): (r: (State, nat))
    ensures r.1 < |r.0.runs|
  {
    var (u, r) := EnsureRun(s, target, t, if capture.Some? then Captured else Scheduled, origin, capture, now);
    if recaptured && capture.Some? && u.runs[r].capture != capture && answered >= 2
    then (MarkRecaptured(u, r, capture.value, now), r) else (u, r)
  }

  /** What a full acknowledgement makes of the instant's run: a missing one is created, one without a capture
      is filled in, and one on another capture is captured anew, under a higher fence, exactly after a
      recapture. */
  ghost function AckedRun(run: Option<Run>, target: TargetId, t: Instant, origin: RunOrigin,
                          capture: Option<CaptureId>, recaptured: bool, now: Instant): Run
  {
    match run
    case None =>
      Run(target, t, if capture.Some? then Captured else Scheduled, 0, origin, None, None, capture, now, now)
    case Some(r) =>
      if capture.None? || r.capture == capture then r
      else if r.capture.None? && r.state != Processed then
        r.(state := Captured, capture := capture, updatedAt := now)
      else if recaptured then
        r.(state := Captured, capture := capture, fence := r.fence + 1, leaseOwner := None, leaseUntil := None,
           updatedAt := now)
      else r
  }

  /** The ledger after a full acknowledgement: that run, the attempt unless it was a no-op, and nothing else. */
  ghost predicate Acknowledged(s: State, u: State, target: TargetId, t: Instant, origin: RunOrigin, kind: AttemptKind,
                               outcome: Outcome, capture: Option<CaptureId>, recaptured: bool, now: Instant)
  {
    && u == s.(runs := u.runs, attempts := u.attempts) && OthersKept(target, s.runs, u.runs)
    && RunOn(u.runs, target, t) == Some(AckedRun(RunOn(s.runs, target, t), target, t, origin, capture, recaptured, now))
    && (forall o :: o != t ==> RunOn(u.runs, target, o) == RunOn(s.runs, target, o))
    && if outcome == Noop then u.attempts == s.attempts
       else exists r: nat :: r < |u.runs| && u.runs[r].target == target && u.runs[r].scheduledFor == t
              && u.attempts == s.attempts
                 + [RunAttempt(r, kind, None, None, None, capture, None, Some(outcome), now, Some(now))]
  }

  /** The ledger after an acknowledgement that the outage cut off: nothing happened, or the run was ensured, or
      advanced too; no attempt was recorded, and nothing else happened. */
  ghost predicate CutOff(s: State, u: State, target: TargetId, t: Instant, origin: RunOrigin, kind: AttemptKind,
                         capture: Option<CaptureId>, recaptured: bool, now: Instant)
  {
    || u == s
    || Acknowledged(s, u, target, t, origin, kind, Noop, capture, false, now)
    || Acknowledged(s, u, target, t, origin, kind, Noop, capture, recaptured, now)
  }

  /** The ensured run is the instant's first. */
  lemma EnsuredRun(s: State, target: TargetId, t: Instant, state: RunState, origin: RunOrigin,
                   capture: Option<CaptureId>, now: Instant)
    ensures var (u, r) := EnsureRun(s, target, t, state, origin, capture, now);
      && u == s.(runs := u.runs) && OthersKept(target, s.runs, u.runs)
      && FindRun(u.runs, target, t) == Some(r)
      && u.runs[r] == match RunOn(s.runs, target, t)
                      case None => Run(target, t, state, 0, origin, None, None, capture, now, now)
                      case Some(was) =>
                        if Fillable(was, state) then was.(state := Captured, capture := capture, updatedAt := now)
                        else was
  {
    var (u, r) := EnsureRun(s, target, t, state, origin, capture, now);
    match FindRun(s.runs, target, t)
    case None =>
      assert u.runs == s.runs + [Run(target, t, state, 0, origin, None, None, capture, now, now)];
      FoundAt(u.runs, target, t, |s.runs|);
    case Some(i) =>
      assert r == i && |u.runs| == |s.runs| && forall j :: 0 <= j < |s.runs| && j != i ==> u.runs[j] == s.runs[j];
      FoundAt(u.runs, target, t, i);
  }

  /** `_ack` on the run alone is the table. */
  lemma AdvancedRun(s: State, target: TargetId, t: Instant, origin: RunOrigin, capture: Option<CaptureId>,
                    recaptured: bool, now: Instant, answered: nat)
    requires var (u, r) := Advanced(s, target, t, origin, capture, recaptured, now, answered);
      recaptured && capture.Some? ==> u.runs[r].capture == capture
    ensures var (u, r) := Advanced(s, target, t, origin, capture, recaptured, now, answered);
      && u == s.(runs := u.runs) && OthersKept(target, s.runs, u.runs)
      && u.runs[r].target == target && u.runs[r].scheduledFor == t
      && RunOn(u.runs, target, t)
         == Some(AckedRun(RunOn(s.runs, target, t), target, t, origin, capture, recaptured, now))
  {
    EnsuredRun(s, target, t, if capture.Some? then Captured else Scheduled, origin, capture, now);
    var (u, r) := Advanced(s, target, t, origin, capture, recaptured, now, answered);
    FoundAt(u.runs, target, t, r);
  }

  lemma AdvancedSpares(s: State, target: TargetId, t: Instant, origin: RunOrigin, capture: Option<CaptureId>,
                       recaptured: bool, now: Instant, answered: nat, o: Instant)
    requires o != t
    ensures var u := Advanced(s, target, t, origin, capture, recaptured, now, answered).0;
      RunOn(u.runs, target, o) == RunOn(s.runs, target, o)
  {
    var u := Advanced(s, target, t, origin, capture, recaptured, now, answered).0;
    var i := FindRun(s.runs, target, o);
    if i.Some? {
      FoundAt(u.runs, target, o, i.value);
    }
  }

  /** So the ledger is the acknowledged one, but for the attempt. */
  lemma AdvancedAcked(s: State, target: TargetId, t: Instant, origin: RunOrigin, kind: AttemptKind,
                      capture: Option<CaptureId>, recaptured: bool, now: Instant, answered: nat)
    requires var (u, r) := Advanced(s, target, t, origin, capture, recaptured, now, answered);
      recaptured && capture.Some? ==> u.runs[r].capture == capture
    ensures Acknowledged(s, Advanced(s, target, t, origin, capture, recaptured, now, answered).0, target, t, origin,
                         kind, Noop, capture, recaptured, now)
  {
    AdvancedRun(s, target, t, origin, capture, recaptured, now, answered);
    forall o | o != t
      ensures RunOn(Advanced(s, target, t, origin, capture, recaptured, now, answered).0.runs, target, o)
              == RunOn(s.runs, target, o)
    {
      AdvancedSpares(s, target, t, origin, capture, recaptured, now, answered, o);
    }
  }

  /** And with the attempt recorded it is all of it. */
  lemma RecordAcked(s: State, u: State, r: nat, target: TargetId, t: Instant, origin: RunOrigin, kind: AttemptKind,
                    outcome: Outcome, capture: Option<CaptureId>, recaptured: bool, now: Instant)
    requires Acknowledged(s, u, target, t, origin, kind, Noop, capture, recaptured, now) && outcome != Noop
    requires r < |u.runs| && u.runs[r].target == target && u.runs[r].scheduledFor == t
    ensures Acknowledged(s, RecordAttempt(u, r, kind, outcome, capture, now), target, t, origin, kind, outcome,
                         capture, recaptured, now)
  {
  }

  /** The first half of `_ack`: ensure the run, and advance it onto a recaptured entry. */
  method Advance(store: MemoryStore.Store, ghost claims: set<Claim>, ghost cat: Catalog, ghost b: Bronze,
                 target: TargetId, t: Instant, origin: RunOrigin, capture: Option<CaptureId>, recaptured: bool,
                 now: Instant, answered: nat)
    returns (run: Option<nat>, left: nat)
    requires Inv(cat, System(b, store.Snapshot(), claims)) && Acknowledges(b, target, t, capture)
    modifies store
    ensures Inv(cat, System(b, store.Snapshot(), claims))
    ensures store.Snapshot() ==
      if answered == 0 then old(store.Snapshot())
      else Advanced(old(store.Snapshot()), target, t, origin, capture, recaptured, now, answered).0
    ensures answered >= 2 ==> run.Some?
    ensures run.Some? ==>
      answered >= 1 && answered - 2 <= left && OnEntry(store.runs, run.value, target, t, capture, recaptured)
    ensures run.Some? ==>
      run.value == Advanced(old(store.Snapshot()), target, t, origin, capture, recaptured, now, answered).1
  {
    if answered == 0 {
      return None, 0;
    }
    ghost var s := store.Snapshot();
    EnsureKeeps(cat, System(b, s, claims), target, t, origin, capture, now);
    var r := store.Ensure(target, t, if capture.Some? then Captured else Scheduled, origin, capture, now);
    left := answered - 1;
    if recaptured && capture.Some? && store.runs[r].capture != capture {
      if left == 0 {
        return None, 0;
      }
      RecaptureKeeps(cat, System(b, store.Snapshot(), claims), r, capture.value, now);
      store.Recapture(r, capture.value, now);
      left := left - 1;
    }
    assert (store.Snapshot(), r) == Advanced(s, target, t, origin, capture, recaptured, now, answered);
    return Some(r), left;
  }

  /** Run `r` is the instant's; it names a capture if one was acknowledged, and after a recapture
      that very one. */
  ghost predicate OnEntry(runs: seq<Run>, r: nat, target: TargetId, t: Instant, capture: Option<CaptureId>,
                          recaptured: bool)
  {
    && r < |runs| && runs[r].target == target && runs[r].scheduledFor == t
    && (capture.Some? ==> runs[r].capture.Some?) && (recaptured && capture.Some? ==> runs[r].capture == capture)
  }

  /** `_ack`.  The store answers the first `answered` calls and is down from then on: the ledger's
      invariant survives wherever that cuts; a full acknowledgement leaves the instant's run on a
      capture, after a recapture on that very entry, and records the attempt unless it was a no-op. */
  method Ack(store: MemoryStore.Store, ghost claims: set<Claim>, ghost cat: Catalog, ghost b: Bronze,
             target: TargetId, t: Instant, origin: RunOrigin, kind: AttemptKind, outcome: Outcome,
             capture: Option<CaptureId>, recaptured: bool, now: Instant, answered: nat)
    returns (updated: bool)
    requires Inv(cat, System(b, store.Snapshot(), claims)) && Acknowledges(b, target, t, capture)
    requires kind in {CaptureAttempt, BackfillAttempt}
    modifies store
    ensures Inv(cat, System(b, store.Snapshot(), claims))
    ensures answered == 0 ==> !updated && store.Snapshot() == old(store.Snapshot())
    ensures answered >= 3 ==> updated
    ensures updated ==> exists r: nat :: OnEntry(store.runs, r, target, t, capture, recaptured)
    ensures answered >= 1 ==>
      var (u, r) := Advanced(old(store.Snapshot()), target, t, origin, capture, recaptured, now, answered);
      store.Snapshot() == if updated && outcome != Noop then RecordAttempt(u, r, kind, outcome, capture, now) else u
    ensures !updated ==> CutOff(old(store.Snapshot()), store.Snapshot(), target, t, origin, kind, capture, recaptured,
                               now)
    ensures updated ==> Acknowledged(old(store.Snapshot()), store.Snapshot(), target, t, origin, kind, outcome, capture,
                                     recaptured, now)
  {
    ghost var s := store.Snapshot();
    var run, left := Advance(store, claims, cat, b, target, t, origin, capture, recaptured, now, answered);
    if run.None? {
      if answered == 1 {
        AdvancedAcked(s, target, t, origin, kind, capture, false, now, answered);
      }
      return false;
    }
    ghost var u := store.Snapshot();
    updated := Note(store, claims, cat, b, run.value, target, t, kind, outcome, capture, now, left);
    NotedAcks(s, u, store.Snapshot(), run.value, target, t, origin, kind, outcome, capture, recaptured, now, answered,
              updated);
  }

  lemma NotedAcks(s: State, u: State, v: State, r: nat, target: TargetId, t: Instant, origin: RunOrigin,
                  kind: AttemptKind, outcome: Outcome, capture: Option<CaptureId>, recaptured: bool, now: Instant,
                  answered: nat, noted: bool)
    requires (u, r) == Advanced(s, target, t, origin, capture, recaptured, now, answered)
    requires OnEntry(u.runs, r, target, t, capture, recaptured)
    requires v == if noted && outcome != Noop then RecordAttempt(u, r, kind, outcome, capture, now) else u
    ensures noted ==> exists k: nat :: OnEntry(v.runs, k, target, t, capture, recaptured)
    ensures noted ==> Acknowledged(s, v, target, t, origin, kind, outcome, capture, recaptured, now)
    ensures !noted ==> CutOff(s, v, target, t, origin, kind, capture, recaptured, now)
  {
    AdvancedAcked(s, target, t, origin, kind, capture, recaptured, now, answered);
    if noted && outcome != Noop {
      RecordAcked(s, u, r, target, t, origin, kind, outcome, capture, recaptured, now);
    }
    assert OnEntry(v.runs, r, target, t, capture, recaptured);
  }

  /** The second half: record the attempt, unless it was a no-op or the store is down. */
  method Note(store: MemoryStore.Store, ghost claims: set<Claim>, ghost cat: Catalog, ghost b: Bronze, run: nat,
              ghost target: TargetId, ghost t: Instant, kind: AttemptKind, outcome: Outcome,
              capture: Option<CaptureId>, now: Instant, left: nat)
    returns (noted: bool)
    requires Inv(cat, System(b, store.Snapshot(), claims)) && Acknowledges(b, target, t, capture)
    requires kind in {CaptureAttempt, BackfillAttempt} && run < |store.runs|
    requires store.runs[run].target == target && store.runs[run].scheduledFor == t
    modifies store
    ensures Inv(cat, System(b, store.Snapshot(), claims))
    ensures noted <==> outcome == Noop || left > 0
    ensures store.Snapshot() == if noted && outcome != Noop
                                then RecordAttempt(old(store.Snapshot()), run, kind, outcome, capture, now)
                                else old(store.Snapshot())
  {
    if outcome == Noop {
      return true;
    }
    if left == 0 {
      return false;
    }
    RecordKeeps(cat, System(b, store.Snapshot(), claims), run, kind, outcome, capture, now);
    store.Record(run, kind, outcome, capture, now);
    return true;
  }
}
