/** The restore drill over all targets: rebuild each into a scratch store, then compare each. */
module RestoreDrill {
  import opened Types
  import opened Ledger
  import opened CaptureLog
  import opened System
  import opened Traces
  import opened Process
  import opened Rebuild
  import opened Drill
  import opened Values
  import opened Restore
  import MemoryStore
  import Reconcile
  import Silver

  datatype Rebuilt = Rebuilt(manifest: Manifest, snapshot: seq<CaptureEntry>, failed: nat)

  ghost predicate DistinctTargets(ms: seq<Manifest>) {
    forall i, j :: 0 <= i < j < |ms| ==> ms[i].target != ms[j].target
  }

  /** Every usable capture of the target maps under its derivation. */
  ghost predicate Readable(cat: Catalog, b: Bronze, m: Manifest) {
    forall c :: Usable(b, m, c) ==> Maps(cat, m.derivation, b.log[c])
  }

  /** Every instant with a usable capture has its run back. */
  ghost predicate AllRestored(cat: Catalog, b: Bronze, s: State, m: Manifest) {
    forall c :: Usable(b, m, c) ==> Restored(cat, s, b, m.target, m.derivation, c.scheduledFor)
  }

  /** The target is rebuilt in full, and a report failed exactly when a usable capture does not map. */
  ghost predicate RebuiltOk(cat: Catalog, b: Bronze, s: State, m: Manifest, r: Rebuilt) {
    && r.manifest == m && Listing(b.log, m.target, None, None, r.snapshot)
    && Complete(cat, b, s, m) && AllRestored(cat, b, s, m) && (r.failed == 0 <==> Readable(cat, b, m))
  }

  lemma RebuiltPersists(cat: Catalog, b: Bronze, s: State, u: State, m: Manifest, r: Rebuilt)
    requires RebuiltOk(cat, b, s, m, r) && s.silver.rows <= u.silver.rows && s.runs <= u.runs
    ensures RebuiltOk(cat, b, u, m, r)
  {
    forall c | Usable(b, m, c) ensures Covered(cat, u.silver, m.derivation, b.log[c]) {
      CoveredPersists(cat, s.silver, u.silver, m.derivation, b.log[c]);
    }
    forall c | Usable(b, m, c) ensures Restored(cat, u, b, m.target, m.derivation, c.scheduledFor) {
      assert Restored(cat, s, b, m.target, m.derivation, c.scheduledFor);
    }
  }

  /** Rebuilding one more target keeps the scratch store sound. */
  lemma StaysSound(cat: Catalog, b: Bronze, s: State, u: State, ms: seq<Manifest>, m: Manifest)
    requires Inv(cat, System(b, s, {})) && Inv(cat, System(b, u, {})) && Sound(b, s, ms) && m in ms
    requires Fair(s, u, m.target, m.derivation) && Agreed(u.invalidations, b, m.target) && s.runs <= u.runs
    ensures Sound(b, u, ms)
  {
    forall k | 0 <= k < |u.attempts| ensures SoundAttempt(b, u, ms, k) {
      assert FairAttempt(s, u, k, m.target, m.derivation);
      if k < |s.attempts| && u.attempts[k] == s.attempts[k] {
        assert SoundAttempt(b, s, ms, k);
      } else if u.attempts[k].outcome == Some(Ok) {
        CleanIsUsable(cat, b, u, m, k);
      }
    }
  }

  lemma CleanIsUsable(cat: Catalog, b: Bronze, u: State, m: Manifest, k: nat)
    requires Inv(cat, System(b, u, {})) && Clean(u, k, m.target, m.derivation) && Agreed(u.invalidations, b, m.target)
    ensures Usable(b, m, u.attempts[k].capture.value)
  {
    assert AttemptOk(b, u.runs[u.attempts[k].run], u.attempts[k]);
  }

  lemma StillFresh(s: State, u: State, target: TargetId, other: TargetId)
    requires AddsOnly(s, u, target) && Fresh(s, other) && target != other
    ensures Fresh(u, other)
  {
  }

  method Failures(outcomes: seq<Outcome>) returns (failed: nat)
    ensures failed == 0 <==> AllOk(outcomes)
    ensures failed == |set k: nat | k < |outcomes| && outcomes[k] != Ok && outcomes[k] != Noop|
  {
    failed := 0;
    for n := 0 to |outcomes|
      invariant failed == 0 <==> forall k :: 0 <= k < n ==> outcomes[k] in {Ok, Noop}
      invariant failed == |set k: nat | k < n && outcomes[k] != Ok && outcomes[k] != Noop|
    {
      ghost var before := set k: nat | k < n && outcomes[k] != Ok && outcomes[k] != Noop;
      assert (set k: nat | k < n + 1 && outcomes[k] != Ok && outcomes[k] != Noop)
          == before + if outcomes[n] != Ok && outcomes[n] != Noop then {n} else {};
      if outcomes[n] !in {Ok, Noop} {
        failed := failed + 1;
      }
    }
  }

  // ---------------------------------------------------------------- rebuild

  /** The first `n` targets are rebuilt, soundly, and the others are untouched. */
  ghost predicate Rebuilding(cat: Catalog, b: Bronze, s: State, ms: seq<Manifest>, n: nat, rebuilt: seq<Rebuilt>)
    requires n <= |ms|
  {
    && |rebuilt| == n && Sound(b, s, ms)
    && (forall k :: 0 <= k < n ==> RebuiltOk(cat, b, s, ms[k], rebuilt[k]))
    && (forall k :: n <= k < |ms| ==> Fresh(s, ms[k].target))
  }

  lemma NextRebuilt(cat: Catalog, b: Bronze, s: State, u: State, ms: seq<Manifest>, n: nat, rebuilt: seq<Rebuilt>,
                    r: Rebuilt)
    requires n < |ms| && DistinctTargets(ms) && Rebuilding(cat, b, s, ms, n, rebuilt)
    requires Inv(cat, System(b, s, {})) && Inv(cat, System(b, u, {}))
    requires s.silver.rows <= u.silver.rows && AddsOnly(s, u, ms[n].target)
    requires Fair(s, u, ms[n].target, ms[n].derivation) && Agreed(u.invalidations, b, ms[n].target)
    requires RebuiltOk(cat, b, u, ms[n], r)
    ensures Rebuilding(cat, b, u, ms, n + 1, rebuilt + [r])
  {
    StaysSound(cat, b, s, u, ms, ms[n]);
    forall k | 0 <= k < n ensures RebuiltOk(cat, b, u, ms[k], rebuilt[k]) {
      RebuiltPersists(cat, b, s, u, ms[k], rebuilt[k]);
    }
    forall k | n < k < |ms| ensures Fresh(u, ms[k].target) {
      StillFresh(s, u, ms[n].target, ms[k].target);
    }
  }

  /** Every target is rebuilt before any is compared: siblings share datasets. */
  method RebuildAll(cat: Catalog, b: Bronze, replica: MemoryLog, store: MemoryStore.Store, ms: seq<Manifest>,
                    owner: WorkerId, ttl: int, reach: nat)
    returns (rebuilt: seq<Rebuilt>)
    requires replica.Valid() && replica.entries == b.log && DistinctTargets(ms) && LogOk(b) && store.Snapshot() == EMPTY
    modifies store
    ensures Inv(cat, System(b, store.Snapshot(), {})) && Rebuilding(cat, b, store.Snapshot(), ms, |ms|, rebuilt)
  {
    rebuilt := [];
    for n := 0 to |ms|
      invariant Inv(cat, System(b, store.Snapshot(), {})) && Rebuilding(cat, b, store.Snapshot(), ms, n, rebuilt)
    {
      ghost var s := store.Snapshot();
      var r := RebuildTarget(cat, b, replica, store, ms[n], owner, ttl, reach);
      NextRebuilt(cat, b, s, store.Snapshot(), ms, n, rebuilt, r);
      rebuilt := rebuilt + [r];
    }
  }

  /** `_rebuild_target`: the replica's listing as it was before, and the rebuild. */
  method RebuildTarget(cat: Catalog, b: Bronze, replica: MemoryLog, store: MemoryStore.Store, m: Manifest,
                       owner: WorkerId, ttl: int, reach: nat)
    returns (r: Rebuilt)
    requires replica.Valid() && replica.entries == b.log
    requires Inv(cat, System(b, store.Snapshot(), {})) && Fresh(store.Snapshot(), m.target)
    modifies store
    ensures Inv(cat, System(b, store.Snapshot(), {})) && RebuiltOk(cat, b, store.Snapshot(), m, r)
    ensures old(store.rows) <= store.rows && AddsOnly(old(store.Snapshot()), store.Snapshot(), m.target)
    ensures Fair(old(store.Snapshot()), store.Snapshot(), m.target, m.derivation)
    ensures Agreed(store.invalidations, b, m.target)
  {
    var es := replica.List(m.target, None, None);
    var outcomes := Rebuild.Target(store, cat, b, replica, m.target, m.derivation, owner, ttl, reach);
    var failed := Failures(outcomes);
    r := Rebuilt(m, es, failed);
  }

  // ---------------------------------------------------------------- processed runs

  /** Every counted run of live whose capture existed when the replica's newest was fetched names a
      capture the replica has. */
  ghost predicate RunsReplicated(live: State, m: Manifest, es: seq<CaptureEntry>) {
    forall r: nat :: Counted(live, m.target, m.derivation, r) && Reached(live, Ids(es), Bound(es), r) ==>
      live.runs[r].capture.Some? && live.runs[r].capture.value in Ids(es)
  }

  function Ids(es: seq<CaptureEntry>): set<CaptureId> {
    set e | e in es :: e.id
  }

  function Instants(s: State, rs: set<nat>): set<Instant>
    requires forall r :: r in rs ==> r < |s.runs|
  {
    set r | r in rs :: s.runs[r].scheduledFor
  }

  lemma {:induction false} ImageSize(rs: set<nat>, f: nat -> Instant)
    requires forall a, b :: a in rs && b in rs && f(a) == f(b) ==> a == b
    ensures |set r | r in rs :: f(r)| == |rs|
  {
    if r :| r in rs {
      var rest := rs - {r};
      ImageSize(rest, f);
      assert (set o | o in rs :: f(o)) == (set o | o in rest :: f(o)) + {f(r)};
      assert rs == rest + {r};
    }
  }

  /** Runs of one target have different instants, so they are as many as their instants. */
  lemma InstantsOfRuns(s: State, target: TargetId, rs: set<nat>)
    requires Reconcile.Keyed(s) && forall r :: r in rs ==> r < |s.runs| && s.runs[r].target == target
    ensures |Instants(s, rs)| == |rs|
  {
    var f := (r: nat) => if r < |s.runs| then s.runs[r].scheduledFor else 0;
    forall a, b | a in rs && b in rs && f(a) == f(b) ensures a == b {
      assert !(a < b) && !(b < a);
    }
    ImageSize(rs, f);
    assert Instants(s, rs) == set r | r in rs :: f(r);
  }

  lemma Fewer(a: set<Instant>, b: set<Instant>)
    requires a <= b
    ensures |a| <= |b|
  {
    assert b == a + (b - a);
  }

  /** When every usable capture maps, no processed run of live is short in the rebuild. */
  lemma NoRunIsShort(cat: Catalog, live: System, b: Bronze, scratch: State, m: Manifest, es: seq<CaptureEntry>)
    requires Inv(cat, live) && Inv(cat, System(b, scratch, {})) && Listing(b.log, m.target, None, None, es)
    requires Replicated(live, b, m, es) && RunsReplicated(live.ledger, m, es)
    requires AllRestored(cat, b, scratch, m) && Readable(cat, b, m)
    ensures |RunsSeen(live.ledger, m.target, m.derivation, Ids(es), Bound(es), |live.ledger.runs|, true)|
            <= |ProcessedRuns(scratch, m.target)|
  {
    var s := live.ledger;
    var seen := RunsSeen(s, m.target, m.derivation, Ids(es), Bound(es), |s.runs|, true);
    var have := ProcessedRuns(scratch, m.target);
    InstantsOfRuns(s, m.target, seen);
    InstantsOfRuns(scratch, m.target, have);
    forall t | t in Instants(s, seen) ensures t in Instants(scratch, have) {
      var r :| r in seen && s.runs[r].scheduledFor == t;
      RunIsBack(cat, live, b, scratch, m, es, r);
    }
    Fewer(Instants(s, seen), Instants(scratch, have));
  }

  lemma RunIsBack(cat: Catalog, live: System, b: Bronze, scratch: State, m: Manifest, es: seq<CaptureEntry>, r: nat)
    requires Inv(cat, live) && Listing(b.log, m.target, None, None, es)
    requires Replicated(live, b, m, es) && RunsReplicated(live.ledger, m, es)
    requires AllRestored(cat, b, scratch, m) && Readable(cat, b, m)
    requires Counted(live.ledger, m.target, m.derivation, r) && Reached(live.ledger, Ids(es), Bound(es), r)
    ensures live.ledger.runs[r].scheduledFor in Instants(scratch, ProcessedRuns(scratch, m.target))
  {
    var c := live.ledger.runs[r].capture.value;
    assert RunOk(live.bronze, live.ledger.runs[r]);
    var e :| e in es && e.id == c;
    assert Usable(b, m, c);
    assert Restored(cat, scratch, b, m.target, m.derivation, c.scheduledFor);
    var k, o :| 0 <= k < |scratch.runs| && NewestUsable(b, m.target, m.derivation, c.scheduledFor, o)
                && RestoredBy(cat, scratch.runs[k], b, m.derivation, o);
    assert Usable(b, m, o.id);
    assert k in ProcessedRuns(scratch, m.target);
  }

  // ---------------------------------------------------------------- compare

  /** One target's comparison.  Nothing is missing and nothing diverges exactly when every version live
      expects is given by a usable capture of a drilled target; that holds for every reachable live
      whose captures are replicated and which runs the derivation; and then the verdict is ok exactly
      when every usable capture maps, if the processed runs are replicated too. */
  method CompareTarget(cat: Catalog, ghost tr: Trace, ghost n: nat, live: State, b: Bronze, scratch: State,
                       ghost ms: seq<Manifest>, rebuilt: Rebuilt)
    returns (report: DrillReport)
    requires Valid(cat, tr) && n < |tr.states| && live == tr.states[n].ledger && Silver.Unique(live.silver.rows)
    requires Inv(cat, System(b, scratch, {})) && Sound(b, scratch, ms) && forall m :: m in ms ==>
      Complete(cat, b, scratch, m)
    requires rebuilt.manifest in ms && RebuiltOk(cat, b, scratch, rebuilt.manifest, rebuilt)
    ensures Verdict(cat, tr.states[n], b, scratch, ms, rebuilt, report)
  {
    var m, es := rebuilt.manifest, rebuilt.snapshot;
    report := Compare(live, scratch, cat.feed(m.target), m.target, m.derivation, es, rebuilt.failed);
    VerdictHolds(cat, tr, n, b, scratch, ms, rebuilt, report);
  }

  ghost predicate Verdict(cat: Catalog, live: System, b: Bronze, scratch: State, ms: seq<Manifest>, rebuilt: Rebuilt,
                          report: DrillReport)
  {
    var m, es := rebuilt.manifest, rebuilt.snapshot;
    && (Determined(cat) ==>
          (report.split.missing == 0 && report.split.diverging == 0 <==>
           AllGiven(cat, live.ledger, b, ms, m.target, es)))
    && (Determined(cat) && Promised(cat, live, b, m, es) ==>
          && report.split.missing == 0 && report.split.diverging == 0
          && (RunsReplicated(live.ledger, m, es) ==> (report.ok <==> Readable(cat, b, m))))
    && (report.ok ==> Readable(cat, b, m) && Reproduced(live.ledger, scratch, cat.feed(m.target), m.target, es))
  }

  lemma VerdictHolds(cat: Catalog, tr: Trace, n: nat, b: Bronze, scratch: State, ms: seq<Manifest>, rebuilt: Rebuilt,
                     report: DrillReport)
    requires Valid(cat, tr) && n < |tr.states|
    requires Inv(cat, System(b, scratch, {})) && Sound(b, scratch, ms) && forall m :: m in ms ==>
      Complete(cat, b, scratch, m)
    requires rebuilt.manifest in ms && RebuiltOk(cat, b, scratch, rebuilt.manifest, rebuilt)
    requires var m, es, live := rebuilt.manifest, rebuilt.snapshot, tr.states[n].ledger;
             var reproduced := Reproduced(live, scratch, cat.feed(m.target), m.target, es);
      && (report.split.missing == 0 && report.split.diverging == 0 <==> reproduced)
      && (report.ok <==> rebuilt.failed == 0 && report.processed <= report.scratchProcessed && reproduced)
      && report.scratchProcessed == |ProcessedRuns(scratch, m.target)|
      && report.processed == |RunsSeen(live, m.target, m.derivation, Ids(es), Bound(es), |live.runs|, true)|
    ensures Verdict(cat, tr.states[n], b, scratch, ms, rebuilt, report)
  {
    var m, es, live := rebuilt.manifest, rebuilt.snapshot, tr.states[n];
    Reachable(cat, tr, n);
    if Determined(cat) {
      ReproducedIffGiven(cat, live.ledger, b, scratch, ms, m.target, es);
      if Promised(cat, live, b, m, es) {
        LiveIsGiven(cat, tr, n, b, ms, m, es);
        if RunsReplicated(live.ledger, m, es) && Readable(cat, b, m) {
          NoRunIsShort(cat, live, b, scratch, m, es);
        }
      }
    }
  }

  method CompareAll(cat: Catalog, ghost tr: Trace, ghost n: nat, live: State, b: Bronze, scratch: State,
                    ms: seq<Manifest>, rebuilt: seq<Rebuilt>)
    returns (reports: seq<DrillReport>)
    requires Valid(cat, tr) && n < |tr.states| && live == tr.states[n].ledger && Silver.Unique(live.silver.rows)
    requires Inv(cat, System(b, scratch, {})) && Rebuilding(cat, b, scratch, ms, |ms|, rebuilt)
    ensures |reports| == |rebuilt|
    ensures forall k :: 0 <= k < |rebuilt| ==> Verdict(cat, tr.states[n], b, scratch, ms, rebuilt[k], reports[k])
  {
    forall m | m in ms ensures Complete(cat, b, scratch, m) {
      var k :| 0 <= k < |ms| && ms[k] == m;
      assert RebuiltOk(cat, b, scratch, ms[k], rebuilt[k]);
    }
    reports := [];
    for k := 0 to |rebuilt|
      invariant |reports| == k
      invariant forall j :: 0 <= j < k ==> Verdict(cat, tr.states[n], b, scratch, ms, rebuilt[j], reports[j])
    {
      assert RebuiltOk(cat, b, scratch, ms[k], rebuilt[k]);
      var report := CompareTarget(cat, tr, n, live, b, scratch, ms, rebuilt[k]);
      reports := reports + [report];
    }
  }

  /** `restore_drill` from end to end, for any targets, any replica and any reachable live. */
  method Run(cat: Catalog, ghost tr: Trace, ghost n: nat, live: State, b: Bronze, replica: MemoryLog, ms: seq<Manifest>,
             owner: WorkerId, ttl: int, reach: nat)
    returns (scratch: State, rebuilt: seq<Rebuilt>, reports: seq<DrillReport>)
    requires Valid(cat, tr) && n < |tr.states| && live == tr.states[n].ledger
    requires replica.Valid() && replica.entries == b.log && LogOk(b) && DistinctTargets(ms)
    ensures |rebuilt| == |reports| == |ms|
    ensures forall k :: 0 <= k < |ms| ==> RebuiltOk(cat, b, scratch, ms[k], rebuilt[k])
    ensures forall k :: 0 <= k < |ms| ==> Verdict(cat, tr.states[n], b, scratch, ms, rebuilt[k], reports[k])
  {
    var store := new MemoryStore.Store();
    rebuilt := RebuildAll(cat, b, replica, store, ms, owner, ttl, reach);
    LiveIsUnique(cat, tr, n);
    scratch := store.Snapshot();
    reports := CompareAll(cat, tr, n, live, b, scratch, ms, rebuilt);
  }
}
