/** Reconcile: Bronze is the truth, the ledger is rebuilt or advanced from the capture log. */
module Reconcile {
  import opened Types
  import opened Ledger
  import opened CaptureLog
  import opened System
  import Invariant
  import MemoryStore

  // ---------------------------------------------------------------- newest valid entry per instant

  predicate Usable(decisions: set<Decision>, d: DerivationId, e: CaptureEntry) {
    !IsInvalidated(decisions, e.id, d)
  }

  /** The last usable entry of each instant of an ordered listing. */
  function NewestOf(es: seq<CaptureEntry>, decisions: set<Decision>, d: DerivationId): seq<CaptureEntry> {
    if es == [] then []
    else
      var before := NewestOf(es[..|es| - 1], decisions, d);
      var e := es[|es| - 1];
      if Usable(decisions, d, e) then Keep(before, e) + [e] else before
  }

  /** `e` is usable and no usable entry of its instant in `es` has a later attempt. */
  ghost predicate IsNewest(es: seq<CaptureEntry>, decisions: set<Decision>, d: DerivationId, e: CaptureEntry) {
    && e in es && Usable(decisions, d, e)
    && forall o :: o in es && Usable(decisions, d, o) && o.id.scheduledFor == e.id.scheduledFor ==>
         o.id.attempt <= e.id.attempt
  }

  ghost predicate Ascending(es: seq<CaptureEntry>) {
    forall i, j :: 0 <= i < j < |es| ==> es[i].id.scheduledFor < es[j].id.scheduledFor
  }

  ghost predicate Represented(r: seq<CaptureEntry>, o: CaptureEntry) {
    exists k :: 0 <= k < |r| && r[k].id.scheduledFor == o.id.scheduledFor
  }

  ghost predicate PicksNewest(es: seq<CaptureEntry>, decisions: set<Decision>, d: DerivationId, r: seq<CaptureEntry>) {
    && Ascending(r)
    && (forall k :: 0 <= k < |r| ==> IsNewest(es, decisions, d, r[k]))
    && (forall o {:trigger Represented(r, o)} :: o in es && Usable(decisions, d, o) ==> Represented(r, o))
  }

  lemma StillNewest(init: seq<CaptureEntry>, last: CaptureEntry, decisions: set<Decision>, d: DerivationId,
                    e: CaptureEntry)
    requires IsNewest(init, decisions, d, e)
    requires (e.id.scheduledFor != last.id.scheduledFor || !Usable(decisions, d, last))
    ensures IsNewest(init + [last], decisions, d, e)
  {
  }

  /** Entries already picked for the last one's instant give way to it. */
  function Keep(before: seq<CaptureEntry>, last: CaptureEntry): seq<CaptureEntry> {
    if before != [] && before[|before| - 1].id.scheduledFor == last.id.scheduledFor then before[..|before| - 1]
    else before
  }

  lemma PickNext(init: seq<CaptureEntry>, last: CaptureEntry, decisions: set<Decision>, d: DerivationId,
                 before: seq<CaptureEntry>)
    requires Usable(decisions, d, last) && PicksNewest(init, decisions, d, before)
    requires forall o :: o in init ==> Before(o, last)
    ensures PicksNewest(init + [last], decisions, d, Keep(before, last) + [last])
  {
    var r := Keep(before, last) + [last];
    forall k | 0 <= k < |r| ensures IsNewest(init + [last], decisions, d, r[k]) {
      PickIsNewest(init, last, decisions, d, before, k);
    }
    forall o | o in init + [last] && Usable(decisions, d, o) ensures Represented(r, o) {
      StillRepresented(init, last, decisions, d, before, o);
    }
  }

  lemma PickIsNewest(init: seq<CaptureEntry>, last: CaptureEntry, decisions: set<Decision>, d: DerivationId,
                     before: seq<CaptureEntry>, k: nat)
    requires Usable(decisions, d, last) && PicksNewest(init, decisions, d, before) && forall o :: o in init ==>
      Before(o, last)
    requires k <= |Keep(before, last)|
    ensures IsNewest(init + [last], decisions, d, (Keep(before, last) + [last])[k])
  {
  }

  lemma StillRepresented(init: seq<CaptureEntry>, last: CaptureEntry, decisions: set<Decision>, d: DerivationId,
                         before: seq<CaptureEntry>, o: CaptureEntry)
    requires PicksNewest(init, decisions, d, before) && o in init + [last] && Usable(decisions, d, o)
    requires forall k :: |Keep(before, last)| <= k < |before| ==> before[k].id.scheduledFor == last.id.scheduledFor
    ensures Represented(Keep(before, last) + [last], o)
  {
    var r := Keep(before, last) + [last];
    if o.id.scheduledFor == last.id.scheduledFor {
      assert r[|r| - 1].id.scheduledFor == o.id.scheduledFor;
    } else {
      assert o in init && Represented(before, o);
      var k :| 0 <= k < |before| && before[k].id.scheduledFor == o.id.scheduledFor;
      assert r[k] == before[k];
    }
  }

  lemma {:induction false} NewestOfPicks(es: seq<CaptureEntry>, decisions: set<Decision>, d: DerivationId)
    requires Sorted(es)
    ensures PicksNewest(es, decisions, d, NewestOf(es, decisions, d))
  {
    if es != [] {
      var init, last := es[..|es| - 1], es[|es| - 1];
      NewestOfPicks(init, decisions, d);
      var before := NewestOf(init, decisions, d);
      assert es == init + [last];
      if Usable(decisions, d, last) {
        PickNext(init, last, decisions, d, before);
      } else {
        forall k | 0 <= k < |before| ensures IsNewest(es, decisions, d, before[k]) {
          StillNewest(init, last, decisions, d, before[k]);
        }
      }
    }
  }

  /** The loop picks exactly the newest usable entry of every instant that has one. */
  lemma NewestOfIsNewest(es: seq<CaptureEntry>, decisions: set<Decision>, d: DerivationId, e: CaptureEntry)
    requires Sorted(es)
    ensures e in NewestOf(es, decisions, d) <==> IsNewest(es, decisions, d, e)
  {
    var r := NewestOf(es, decisions, d);
    NewestOfPicks(es, decisions, d);
    if IsNewest(es, decisions, d, e) {
      assert Represented(r, e);
      var k :| 0 <= k < |r| && r[k].id.scheduledFor == e.id.scheduledFor;
      assert IsNewest(es, decisions, d, r[k]);
    }
  }

  // ---------------------------------------------------------------- one entry

  /** The run lags behind entry `e`: a later attempt with another payload than the run names. */
  predicate Lags(log: map<CaptureId, CaptureEntry>, run: Run, e: CaptureEntry) {
    && run.capture.Some? && run.capture.value != e.id && run.capture.value.attempt < e.id.attempt
    && (run.capture.value in log ==> log[run.capture.value].payload != e.payload)
  }

  /** One turn of the loop: ensure the run, then advance it if it lags. */
  function MergeOne(s: State, log: map<CaptureId, CaptureEntry>, e: CaptureEntry, now: Instant): State {
    var (t, r) := EnsureRun(s, e.id.target, e.id.scheduledFor, Captured, Reconciled, Some(e.id), now);
    if Lags(log, t.runs[r], e) then MarkRecaptured(t, r, e.id, now) else t
  }

  function MergeAll(s: State, log: map<CaptureId, CaptureEntry>, es: seq<CaptureEntry>, now: Instant): State {
    if es == [] then s
    else MergeOne(MergeAll(s, log, es[..|es| - 1], now), log, es[|es| - 1], now)
  }

  predicate RunOf(run: Run, e: CaptureEntry) {
    run.target == e.id.target && run.scheduledFor == e.id.scheduledFor
  }

  ghost predicate Keyed(s: State) {
    forall i, j :: 0 <= i < j < |s.runs| ==>
      !(s.runs[i].target == s.runs[j].target && s.runs[i].scheduledFor == s.runs[j].scheduledFor)
  }

  /** Entry `e` needs nothing more: its run exists, names a capture and does not lag. */
  ghost predicate Settled(s: State, log: map<CaptureId, CaptureEntry>, e: CaptureEntry) {
    exists r :: 0 <= r < |s.runs| && RunOf(s.runs[r], e) && s.runs[r].capture.Some? && !Lags(log, s.runs[r], e)
  }

  /** How reconcile may change the ledger: runs only, and each run as `ensure_run` or a recapture
      onto a listed entry leaves it. */
  ghost predicate RunsOnly(s: State, t: State) {
    && t == s.(runs := t.runs) && |s.runs| <= |t.runs|
    && forall r :: 0 <= r < |s.runs| ==>
         t.runs[r].target == s.runs[r].target && t.runs[r].scheduledFor == s.runs[r].scheduledFor
  }

  /** No processed run is without a capture: what `ensure_run` relies on. */
  ghost predicate Named(s: State) {
    forall r :: 0 <= r < |s.runs| && s.runs[r].state == Processed ==> s.runs[r].capture.Some?
  }

  lemma MergeOneSettles(s: State, log: map<CaptureId, CaptureEntry>, e: CaptureEntry, now: Instant)
    requires Keyed(s) && Named(s)
    ensures Keyed(MergeOne(s, log, e, now)) && Named(MergeOne(s, log, e, now)) && RunsOnly(s, MergeOne(s, log, e, now))
    ensures Settled(MergeOne(s, log, e, now), log, e)
    ensures forall i :: 0 <= i < |s.runs| && !RunOf(s.runs[i], e) ==> MergeOne(s, log, e, now).runs[i] == s.runs[i]
  {
    var (t, r) := EnsureRun(s, e.id.target, e.id.scheduledFor, Captured, Reconciled, Some(e.id), now);
    var u := MergeOne(s, log, e, now);
    assert RunOf(u.runs[r], e) && u.runs[r].capture.Some? && !Lags(log, u.runs[r], e);
  }

  lemma MergeOneSettled(s: State, log: map<CaptureId, CaptureEntry>, e: CaptureEntry, now: Instant)
    requires Keyed(s) && Settled(s, log, e)
    ensures MergeOne(s, log, e, now) == s
  {
  }

  /** Afterwards every merged entry is settled, and runs of other instants are as they were. */
  lemma {:induction false} MergeAllSettles(s: State, log: map<CaptureId, CaptureEntry>, es: seq<CaptureEntry>,
                                           now: Instant)
    requires Keyed(s) && Named(s) && Ascending(es)
    ensures Keyed(MergeAll(s, log, es, now)) && Named(MergeAll(s, log, es, now))
    ensures RunsOnly(s, MergeAll(s, log, es, now))
    ensures forall e :: e in es ==> Settled(MergeAll(s, log, es, now), log, e)
    ensures forall i :: 0 <= i < |s.runs| && (forall e :: e in es ==> !RunOf(s.runs[i], e)) ==>
              MergeAll(s, log, es, now).runs[i] == s.runs[i]
  {
    if es != [] {
      var init, last := es[..|es| - 1], es[|es| - 1];
      MergeAllSettles(s, log, init, now);
      var mid := MergeAll(s, log, init, now);
      MergeOneSettles(mid, log, last, now);
      var t := MergeAll(s, log, es, now);
      forall e | e in es ensures Settled(t, log, e) {
        if e != last {
          assert e in init;
        }
      }
    }
  }

  /** Reconciling what is settled changes no run and bumps no fence. */
  lemma {:induction false} MergeAllSettled(s: State, log: map<CaptureId, CaptureEntry>, es: seq<CaptureEntry>,
                                           now: Instant)
    requires Keyed(s) && forall e :: e in es ==> Settled(s, log, e)
    ensures MergeAll(s, log, es, now) == s
  {
    if es != [] {
      MergeAllSettled(s, log, es[..|es| - 1], now);
      MergeOneSettled(s, log, es[|es| - 1], now);
    }
  }

  // ---------------------------------------------------------------- the whole of reconcile

  /** The target's invalidation decisions, mirrored from Bronze before anything else. */
  function Mirrored(s: State, b: Bronze, target: TargetId): State {
    s.(invalidations := s.invalidations + set dec | dec in b.decisions && dec.capture.target == target)
  }

  function ReconcileFrom(s: State, b: Bronze, target: TargetId, d: DerivationId, es: seq<CaptureEntry>, now: Instant)
    : State
  {
    var m := Mirrored(s, b, target);
    MergeAll(m, b.log, NewestOf(es, m.invalidations, d), now)
  }

  /** First loop: the listing is ordered, so the last usable entry of an instant wins. */
  method Latest(es: seq<CaptureEntry>, decisions: set<Decision>, d: DerivationId) returns (latest: seq<CaptureEntry>)
    ensures latest == NewestOf(es, decisions, d)
  {
    latest := [];
    for n := 0 to |es|
      invariant latest == NewestOf(es[..n], decisions, d)
    {
      assert es[..n + 1][..n] == es[..n];
      if !IsInvalidated(decisions, es[n].id, d) {
        if latest != [] && latest[|latest| - 1].id.scheduledFor == es[n].id.scheduledFor {
          latest := latest[..|latest| - 1];
        }
        latest := latest + [es[n]];
      }
    }
    assert es[..|es|] == es;
  }

  /** Second loop: ensure each run and advance it onto a later attempt with another payload. */
  method Merge(store: MemoryStore.Store, log: map<CaptureId, CaptureEntry>, latest: seq<CaptureEntry>, now: Instant)
    modifies store
    ensures store.Snapshot() == MergeAll(old(store.Snapshot()), log, latest, now)
  {
    for n := 0 to |latest|
      invariant store.Snapshot() == MergeAll(old(store.Snapshot()), log, latest[..n], now)
    {
      assert latest[..n + 1][..n] == latest[..n];
      var e := latest[n];
      var r := store.Ensure(e.id.target, e.id.scheduledFor, Captured, Reconciled, Some(e.id), now);
      var named := store.runs[r].capture;
      if named.Some? && named.value != e.id && e.id.attempt > named.value.attempt {
        if named.value !in log || log[named.value].payload != e.payload {
          store.Recapture(r, e.id, now);
        }
      }
    }
    assert latest[..|latest|] == latest;
  }

  /** `reconcile` over the listing `es` of the window. */
  method Run(store: MemoryStore.Store, b: Bronze, target: TargetId, d: DerivationId, es: seq<CaptureEntry>,
             now: Instant)
    modifies store
    ensures store.Snapshot() == ReconcileFrom(old(store.Snapshot()), b, target, d, es, now)
    ensures Sorted(es) && (forall e :: e in es ==> e.id.target == target) ==>
              BroughtUp(old(store.Snapshot()), b, target, d, es, now, store.Snapshot())
  {
    if Sorted(es) && forall e :: e in es ==> e.id.target == target {
      ReconcileRules(store.Snapshot(), b, target, d, es, now);
    }
    store.invalidations := store.invalidations + set dec | dec in b.decisions && dec.capture.target == target;
    var latest := Latest(es, store.invalidations, d);
    Merge(store, b.log, latest, now);
  }

  /** A second reconcile, over the same window or any part of it, changes nothing at all. */
  lemma ReconcileTwice(s: State, b: Bronze, target: TargetId, d: DerivationId, es: seq<CaptureEntry>, now: Instant,
                       part: seq<CaptureEntry>, later: Instant)
    requires Keyed(s) && Named(s) && Sorted(es) && Sorted(part)
    requires forall e :: e in part ==> e in es
    requires forall o, e :: o in part && e in es && e.id.scheduledFor == o.id.scheduledFor ==> e in part
    ensures var t := ReconcileFrom(s, b, target, d, es, now); ReconcileFrom(t, b, target, d, part, later) == t
  {
    var m := Mirrored(s, b, target);
    var t := ReconcileFrom(s, b, target, d, es, now);
    NewestOfPicks(es, m.invalidations, d);
    MergeAllSettles(m, b.log, NewestOf(es, m.invalidations, d), now);
    assert t.invalidations == m.invalidations;
    assert Mirrored(t, b, target).invalidations == t.invalidations;
    assert Mirrored(t, b, target) == t;
    forall e | e in NewestOf(part, m.invalidations, d) ensures Settled(t, b.log, e) {
      NewestOfIsNewest(part, m.invalidations, d, e);
      assert IsNewest(es, m.invalidations, d, e);
      NewestOfIsNewest(es, m.invalidations, d, e);
    }
    MergeAllSettled(t, b.log, NewestOf(part, m.invalidations, d), later);
  }

  // ---------------------------------------------------------------- what reconcile decides, instant by instant

  /** `e` is the newest listed entry of the instant that no decision rules out under `d`. */
  ghost predicate Picked(es: seq<CaptureEntry>, decisions: set<Decision>, d: DerivationId, t: Instant, e: CaptureEntry)
  {
    && Standing(es, decisions, d, t, e)
    && forall o :: Standing(es, decisions, d, t, o) ==> o.id.attempt <= e.id.attempt
  }

  ghost predicate Standing(es: seq<CaptureEntry>, decisions: set<Decision>, d: DerivationId, t: Instant,
                           e: CaptureEntry)
  {
    && e in es && e.id.scheduledFor == t
    && Decision(e.id, None) !in decisions && Decision(e.id, Some(d)) !in decisions
  }

  /** What becomes of an instant's run, once entry `e` is picked for it: a missing run is created on the
      entry and one without a capture is filled in; a run on an earlier attempt is a correction, and
      captured anew under a higher fence, if its payload differs, and a poll, left alone, if not. */
  ghost function Brought(log: map<CaptureId, CaptureEntry>, run: Option<Run>, e: CaptureEntry, now: Instant): Run {
    match run
    case None =>
      Types.Run.Run(e.id.target, e.id.scheduledFor, Captured, 0, Reconciled, None, None, Some(e.id), now, now)
    case Some(r) =>
      match r.capture
      case None =>
        if r.state == Processed then r else r.(state := Captured, capture := Some(e.id), updatedAt := now)
      case Some(c) =>
        if c.attempt < e.id.attempt && (c in log ==> log[c].payload != e.payload)
        then r.(state := Captured, capture := Some(e.id), fence := r.fence + 1, leaseOwner := None, leaseUntil := None,
                updatedAt := now)
        else r
  }

  lemma MergeOneRules(s: State, log: map<CaptureId, CaptureEntry>, e: CaptureEntry, now: Instant)
    ensures var u := MergeOne(s, log, e, now);
      && u == s.(runs := u.runs) && OthersKept(e.id.target, s.runs, u.runs)
      && RunOn(u.runs, e.id.target, e.id.scheduledFor)
         == Some(Brought(log, RunOn(s.runs, e.id.target, e.id.scheduledFor), e, now))
  {
    var u := MergeOne(s, log, e, now);
    var i := FindRun(s.runs, e.id.target, e.id.scheduledFor);
    FoundAt(u.runs, e.id.target, e.id.scheduledFor, if i.Some? then i.value else |s.runs|);
  }

  lemma MergeOneSpares(s: State, log: map<CaptureId, CaptureEntry>, e: CaptureEntry, now: Instant, t: Instant)
    requires t != e.id.scheduledFor
    ensures RunOn(MergeOne(s, log, e, now).runs, e.id.target, t) == RunOn(s.runs, e.id.target, t)
  {
    var u := MergeOne(s, log, e, now);
    var i := FindRun(s.runs, e.id.target, t);
    if i.Some? {
      FoundAt(u.runs, e.id.target, t, i.value);
    }
  }

  /** The instant's run as it was, or as the entry of it among `es` brought it. */
  ghost predicate MergedAt(s: State, log: map<CaptureId, CaptureEntry>, es: seq<CaptureEntry>, now: Instant,
                           target: TargetId, runs: seq<Run>, t: Instant)
  {
    && (forall e :: e in es && e.id.scheduledFor == t ==>
          RunOn(runs, target, t) == Some(Brought(log, RunOn(s.runs, target, t), e, now)))
    && ((forall e :: e in es ==> e.id.scheduledFor != t) ==> RunOn(runs, target, t) == RunOn(s.runs, target, t))
  }

  lemma {:induction false} MergeAllRules(s: State, log: map<CaptureId, CaptureEntry>, es: seq<CaptureEntry>,
                                         now: Instant, target: TargetId)
    requires Ascending(es) && forall e :: e in es ==> e.id.target == target
    ensures var u := MergeAll(s, log, es, now);
      && u == s.(runs := u.runs) && OthersKept(target, s.runs, u.runs)
      && forall t :: MergedAt(s, log, es, now, target, u.runs, t)
  {
    if es != [] {
      var init, last := es[..|es| - 1], es[|es| - 1];
      MergeAllRules(s, log, init, now, target);
      var mid, u := MergeAll(s, log, init, now), MergeAll(s, log, es, now);
      MergeOneRules(mid, log, last, now);
      forall t ensures MergedAt(s, log, es, now, target, u.runs, t) {
        assert MergedAt(s, log, init, now, target, mid.runs, t);
        assert forall e :: e in es <==> e in init || e == last;
        if t != last.id.scheduledFor {
          MergeOneSpares(mid, log, last, now, t);
        }
      }
    }
  }

  /** Reconcile mirrors the target's decisions, brings each instant's run up to the newest listed entry that
      stands, and changes nothing else. */
  ghost predicate BroughtUp(s: State, b: Bronze, target: TargetId, d: DerivationId, es: seq<CaptureEntry>, now: Instant,
                            u: State)
  {
    && u == s.(runs := u.runs, invalidations := u.invalidations) && OthersKept(target, s.runs, u.runs)
    && (forall dec :: dec in u.invalidations <==>
          dec in s.invalidations || (dec in b.decisions && dec.capture.target == target))
    && (forall t, e :: Picked(es, u.invalidations, d, t, e) ==>
          RunOn(u.runs, target, t) == Some(Brought(b.log, RunOn(s.runs, target, t), e, now)))
    && (forall t :: (forall e :: !Standing(es, u.invalidations, d, t, e)) ==>
          RunOn(u.runs, target, t) == RunOn(s.runs, target, t))
  }

  lemma ReconcileRules(s: State, b: Bronze, target: TargetId, d: DerivationId, es: seq<CaptureEntry>, now: Instant)
    requires Sorted(es) && forall e :: e in es ==> e.id.target == target
    ensures BroughtUp(s, b, target, d, es, now, ReconcileFrom(s, b, target, d, es, now))
  {
    var m := Mirrored(s, b, target);
    var picks := NewestOf(es, m.invalidations, d);
    var u := ReconcileFrom(s, b, target, d, es, now);
    NewestOfPicks(es, m.invalidations, d);
    forall e ensures e in picks <==> Picked(es, m.invalidations, d, e.id.scheduledFor, e) {
      NewestOfIsNewest(es, m.invalidations, d, e);
      PickedIsNewest(es, m.invalidations, d, e);
    }
    MergeAllRules(m, b.log, picks, now, target);
    forall t, e | Picked(es, u.invalidations, d, t, e)
      ensures RunOn(u.runs, target, t) == Some(Brought(b.log, RunOn(s.runs, target, t), e, now))
    {
      assert MergedAt(m, b.log, picks, now, target, u.runs, t);
    }
    forall t | forall e :: !Standing(es, u.invalidations, d, t, e)
      ensures RunOn(u.runs, target, t) == RunOn(s.runs, target, t)
    {
      assert MergedAt(m, b.log, picks, now, target, u.runs, t);
    }
  }

  lemma PickedIsNewest(es: seq<CaptureEntry>, decisions: set<Decision>, d: DerivationId, e: CaptureEntry)
    ensures Picked(es, decisions, d, e.id.scheduledFor, e) <==> IsNewest(es, decisions, d, e)
  {
    if Picked(es, decisions, d, e.id.scheduledFor, e) {
      forall o | o in es && Usable(decisions, d, o) && o.id.scheduledFor == e.id.scheduledFor
        ensures o.id.attempt <= e.id.attempt
      {
        assert Standing(es, decisions, d, e.id.scheduledFor, o);
      }
    }
  }

  // ---------------------------------------------------------------- reconcile as steps of the system

  /** Each turn is an `Ack` and perhaps a `Recapture`, so the system's invariant survives. */
  lemma MergeOneKeeps(cat: Catalog, sys: System, e: CaptureEntry, now: Instant)
    requires Inv(cat, sys) && Logged(sys.bronze, e)
    ensures var q := sys.(ledger := MergeOne(sys.ledger, sys.bronze.log, e, now)); Inv(cat, q) && Grows(sys, q)
  {
    var s := sys.ledger;
    var (t, r) := EnsureRun(s, e.id.target, e.id.scheduledFor, Captured, Reconciled, Some(e.id), now);
    var mid := sys.(ledger := t);
    Invariant.KeepsEnsure(cat, sys, e.id.target, e.id.scheduledFor, Captured, Reconciled, Some(e.id), now);
    if Lags(sys.bronze.log, t.runs[r], e) {
      var after := Recaptured(t.runs[r], e.id, now);
      assert Invariant.RunStep(t.runs[r], after) && RunOk(sys.bronze, after);
      Invariant.KeepsUpdate(cat, mid, r, after);
      Invariant.GrowsTransitive(sys, mid, sys.(ledger := MergeOne(s, sys.bronze.log, e, now)));
    }
  }

  lemma {:induction false} MergeAllKeeps(cat: Catalog, sys: System, es: seq<CaptureEntry>, now: Instant)
    requires Inv(cat, sys) && forall e :: e in es ==> Logged(sys.bronze, e)
    ensures var q := sys.(ledger := MergeAll(sys.ledger, sys.bronze.log, es, now)); Inv(cat, q) && Grows(sys, q)
  {
    if es == [] {
      Invariant.KeepsOutside(cat, sys, sys);
    } else {
      var init := es[..|es| - 1];
      MergeAllKeeps(cat, sys, init, now);
      var mid := sys.(ledger := MergeAll(sys.ledger, sys.bronze.log, init, now));
      MergeOneKeeps(cat, mid, es[|es| - 1], now);
      Invariant.GrowsTransitive(sys, mid, sys.(ledger := MergeAll(sys.ledger, sys.bronze.log, es, now)));
    }
  }

  lemma ReconcileKeeps(cat: Catalog, sys: System, target: TargetId, d: DerivationId, es: seq<CaptureEntry>,
                       now: Instant)
    requires Inv(cat, sys) && Sorted(es) && forall e :: e in es ==> Logged(sys.bronze, e)
    ensures var q := sys.(ledger := ReconcileFrom(sys.ledger, sys.bronze, target, d, es, now));
      Inv(cat, q) && Grows(sys, q)
  {
    var m := Mirrored(sys.ledger, sys.bronze, target);
    var mid := sys.(ledger := m);
    Invariant.KeepsOutside(cat, sys, mid);
    var newest := NewestOf(es, m.invalidations, d);
    NewestOfPicks(es, m.invalidations, d);
    forall e | e in newest ensures Logged(sys.bronze, e) {
      NewestOfIsNewest(es, m.invalidations, d, e);
    }
    MergeAllKeeps(cat, mid, newest, now);
    Invariant.GrowsTransitive(sys, mid, sys.(ledger := ReconcileFrom(sys.ledger, sys.bronze, target, d, es, now)));
  }

  /** The run of an instant names the payload of its newest attempt. */
  ghost predicate NamesNewest(s: State, b: Bronze, target: TargetId, t: Instant) {
    exists r, e :: 0 <= r < |s.runs| && s.runs[r].target == target && s.runs[r].scheduledFor == t
      && s.runs[r].capture.Some? && s.runs[r].capture.value in b.log
      && e in b.log.Values && NewestAttempt(b, target, t, e) && b.log[s.runs[r].capture.value].payload == e.payload
  }

  ghost predicate NewestAttempt(b: Bronze, target: TargetId, t: Instant, e: CaptureEntry) {
    && e.id.target == target && e.id.scheduledFor == t
    && forall c :: c in b.log && c.target == target && c.scheduledFor == t ==> c.attempt <= e.id.attempt
  }

  /** Outage independence: from any reachable ledger, whatever acknowledgements were lost, a full
      reconcile of a target without invalidations leaves every logged instant with a run that names
      the payload of its newest attempt. */
  lemma ReconcileNamesNewest(cat: Catalog, sys: System, target: TargetId, d: DerivationId, es: seq<CaptureEntry>,
                             now: Instant, c: CaptureId)
    requires Inv(cat, sys) && Listing(sys.bronze.log, target, None, None, es)
    requires forall dec :: dec in sys.bronze.decisions ==> dec.capture.target != target
    requires c in sys.bronze.log && c.target == target
    ensures NamesNewest(ReconcileFrom(sys.ledger, sys.bronze, target, d, es, now), sys.bronze, target, c.scheduledFor)
  {
    var b := sys.bronze;
    var m := Mirrored(sys.ledger, b, target);
    var t := ReconcileFrom(sys.ledger, b, target, d, es, now);
    assert forall e :: e in es ==> Usable(m.invalidations, d, e);
    NewestOfPicks(es, m.invalidations, d);
    var newest := NewestOf(es, m.invalidations, d);
    assert b.log[c] in es && Represented(newest, b.log[c]);
    var k :| 0 <= k < |newest| && newest[k].id.scheduledFor == c.scheduledFor;
    var e := newest[k];
    assert IsNewest(es, m.invalidations, d, e);
    ReconcileKeeps(cat, sys, target, d, es, now);
    SettledNames(cat, sys, m, t, es, d, e, now);
    var r :| 0 <= r < |t.runs| && RunOf(t.runs[r], e) && t.runs[r].capture.Some? && !Lags(b.log, t.runs[r], e);
    assert RunOk(b, t.runs[r]);
    SettledOnNewest(b, t.runs[r], e, target, es);
  }

  lemma SettledOnNewest(b: Bronze, run: Run, e: CaptureEntry, target: TargetId, es: seq<CaptureEntry>)
    requires Listing(b.log, target, None, None, es) && LogOk(b)
    requires e in es && forall o :: o in es && o.id.scheduledFor == e.id.scheduledFor ==> o.id.attempt <= e.id.attempt
    requires RunOk(b, run) && RunOf(run, e) && run.capture.Some? && !Lags(b.log, run, e)
    ensures e in b.log.Values && NewestAttempt(b, target, e.id.scheduledFor, e)
    ensures b.log[run.capture.value].payload == e.payload
  {
  }

  lemma SettledNames(cat: Catalog, sys: System, m: State, t: State, es: seq<CaptureEntry>, d: DerivationId,
                     e: CaptureEntry, now: Instant)
    requires Inv(cat, sys) && Sorted(es) && m == sys.ledger.(invalidations := m.invalidations)
    requires t == MergeAll(m, sys.bronze.log, NewestOf(es, m.invalidations, d), now)
    requires e in NewestOf(es, m.invalidations, d)
    ensures Settled(t, sys.bronze.log, e)
  {
    NewestOfPicks(es, m.invalidations, d);
    assert Named(m) by {
      forall r | 0 <= r < |m.runs| && m.runs[r].state == Processed ensures m.runs[r].capture.Some? {
        assert RunOk(sys.bronze, sys.ledger.runs[r]);
      }
    }
    MergeAllSettles(m, sys.bronze.log, NewestOf(es, m.invalidations, d), now);
  }
}
