/** Rebuilding a target's ledger and Silver from Bronze alone, as the restore drill does it. */
module Rebuild {
  import opened Types
  import opened Ledger
  import opened CaptureLog
  import opened System
  import opened Process
  import Capture
  import MemoryStore
  import Reconcile
  import Silver

  // ---------------------------------------------------------------- the generations of one instant

  /** The usable entries of instant `t`, in listing order. */
  function Line(es: seq<CaptureEntry>, decisions: set<Decision>, d: DerivationId, t: Instant): (r: seq<CaptureEntry>)
    ensures forall e :: e in r <==> e in es && e.id.scheduledFor == t && Reconcile.Usable(decisions, d, e)
  {
    if es == [] then []
    else
      var before := Line(es[..|es| - 1], decisions, d, t);
      var e := es[|es| - 1];
      assert forall o :: o in es <==> o in es[..|es| - 1] || o == e;
      if e.id.scheduledFor == t && Reconcile.Usable(decisions, d, e) then before + [e] else before
  }

  /** Each entry whose payload differs from the one before it: consecutive, so a payload that
      returns after another counts again. */
  function Generations(es: seq<CaptureEntry>): (r: seq<CaptureEntry>)
    ensures forall e :: e in r ==> e in es
    ensures es != [] ==> r != [] && r[|r| - 1].payload == es[|es| - 1].payload
  {
    if es == [] then []
    else
      var before := Generations(es[..|es| - 1]);
      var e := es[|es| - 1];
      if before != [] && before[|before| - 1].payload == e.payload then before else before + [e]
  }

  ghost predicate HasPayload(es: seq<CaptureEntry>, p: Sha) {
    exists k :: 0 <= k < |es| && es[k].payload == p
  }

  /** Generations keep every payload, and neighbours differ. */
  lemma {:induction false} GenerationsKeepPayloads(es: seq<CaptureEntry>)
    ensures forall e :: e in es ==> HasPayload(Generations(es), e.payload)
    ensures forall k :: 0 < k < |Generations(es)| ==> Generations(es)[k - 1].payload != Generations(es)[k].payload
  {
    if es != [] {
      var init, last := es[..|es| - 1], es[|es| - 1];
      var before, r := Generations(init), Generations(es);
      GenerationsKeepPayloads(init);
      forall e | e in es ensures HasPayload(r, e.payload) {
        if e == last {
          assert r[|r| - 1].payload == last.payload;
        } else {
          assert e in init;
          var k :| 0 <= k < |before| && before[k].payload == e.payload;
          assert r[k] == before[k];
        }
      }
    }
  }

  /** The entries whose payload is not that of the entry just before. */
  ghost function Changes(es: seq<CaptureEntry>): seq<CaptureEntry> {
    if es == [] then []
    else if |es| == 1 || es[|es| - 2].payload != es[|es| - 1].payload then Changes(es[..|es| - 1]) + [es[|es| - 1]]
    else Changes(es[..|es| - 1])
  }

  /** Those are the generations: a payload that was there before counts again if another came between. */
  lemma {:induction false} GenerationsAreChanges(es: seq<CaptureEntry>)
    ensures Generations(es) == Changes(es)
  {
    if es != [] {
      GenerationsAreChanges(es[..|es| - 1]);
    }
  }

  /** The newest usable entry of an instant is the last of its line. */
  lemma {:induction false} NewestEndsLine(es: seq<CaptureEntry>, decisions: set<Decision>, d: DerivationId,
                                          e: CaptureEntry)
    requires Sorted(es) && Reconcile.IsNewest(es, decisions, d, e)
    ensures var line := Line(es, decisions, d, e.id.scheduledFor); line != [] && line[|line| - 1] == e
  {
    var init, last := es[..|es| - 1], es[|es| - 1];
    if last.id.scheduledFor == e.id.scheduledFor && Reconcile.Usable(decisions, d, last) {
      assert last in es;
    } else {
      assert e in init;
      forall o | o in init ensures o in es {
      }
      NewestEndsLine(init, decisions, d, e);
    }
  }

  // ---------------------------------------------------------------- one generation

  /** Run `r` of `u` was worked on since `s`, under `d`; every other run is as it was. */
  ghost predicate Reworked(s: State, u: State, r: nat, d: DerivationId) {
    && r < |s.runs| && |u.runs| == |s.runs| && u.invalidations == s.invalidations && s.silver.rows <= u.silver.rows
    && u.runs[r].target == s.runs[r].target && u.runs[r].scheduledFor == s.runs[r].scheduledFor
    && (forall i :: 0 <= i < |s.runs| && i != r ==> u.runs[i] == s.runs[i])
    && Fair(s, u, s.runs[r].target, d)
  }

  lemma ReworkedTransitive(s: State, t: State, u: State, r: nat, d: DerivationId)
    requires Reworked(s, t, r, d) && Reworked(t, u, r, d)
    ensures Reworked(s, u, r, d)
  {
    FairTransitive(s, t, u, s.runs[r].target, d);
  }

  /** Every entry of `es` maps under `d`. */
  ghost predicate AllMap(cat: Catalog, d: DerivationId, es: seq<CaptureEntry>) {
    forall e :: e in es ==> Maps(cat, d, e)
  }

  /** Recapture the run onto `e`, claim it and process it. */
  method ReplayEntry(store: MemoryStore.Store, ghost claims: set<Claim>, cat: Catalog, b: Bronze, run: nat,
                     e: CaptureEntry, d: DerivationId, owner: WorkerId, ttl: int)
    returns (outcome: Option<Outcome>)
    requires Inv(cat, System(b, store.Snapshot(), claims)) && Logged(b, e)
    requires run < |store.runs| && Reconcile.RunOf(store.runs[run], e) && Reconcile.Usable(store.invalidations, d, e)
    modifies store
    ensures Inv(cat, System(b, store.Snapshot(), claims))
    ensures Reworked(old(store.Snapshot()), store.Snapshot(), run, d) && store.runs[run].capture == Some(e.id)
    ensures outcome.Some? && Covered(cat, store.Snapshot().silver, d, e)
    ensures outcome.value in {Ok, Noop} <==> Maps(cat, d, e)
    ensures Maps(cat, d, e) ==> store.runs[run].state == Processed
  {
    var now: Instant := *;
    ghost var s := store.Snapshot();
    Capture.RecaptureKeeps(cat, System(b, store.Snapshot(), claims), run, e.id, now);
    store.Recapture(run, e.id, now);
    ghost var m := store.Snapshot();
    FairSame(s, m, s.runs[run].target, d);
    outcome := ClaimOne(store, claims, m, cat, b, run, d, owner, ttl);
    FairTransitive(s, m, store.Snapshot(), s.runs[run].target, d);
    assert RunCovered(cat, b, m, store.Snapshot(), d, run);
  }

  /** Every generation of one instant, oldest first. */
  method ReplayAll(store: MemoryStore.Store, ghost claims: set<Claim>, cat: Catalog, b: Bronze, run: nat,
                   es: seq<CaptureEntry>, d: DerivationId, owner: WorkerId, ttl: int)
    returns (outcomes: seq<Outcome>)
    requires Inv(cat, System(b, store.Snapshot(), claims)) && es != []
    requires run < |store.runs|
    requires forall e :: e in es ==>
      Logged(b, e) && Reconcile.RunOf(store.runs[run], e) && Reconcile.Usable(store.invalidations, d, e)
    modifies store
    ensures Inv(cat, System(b, store.Snapshot(), claims))
    ensures Reworked(old(store.Snapshot()), store.Snapshot(), run, d)
    ensures store.runs[run].capture == Some(es[|es| - 1].id)
    ensures forall e :: e in es ==> Covered(cat, store.Snapshot().silver, d, e)
    ensures AllOk(outcomes) <==> AllMap(cat, d, es)
    ensures Maps(cat, d, es[|es| - 1]) ==> store.runs[run].state == Processed
  {
    ghost var before := store.Snapshot();
    outcomes := [];
    for n := 0 to |es|
      invariant Inv(cat, System(b, store.Snapshot(), claims))
      invariant ReplayedTo(cat, before, store.Snapshot(), run, d, es, n, outcomes)
    {
      ghost var s := store.Snapshot();
      assert es[n] in es;
      if n > 0 {
        StillReplayable(before, s, run, d, es[n]);
      }
      var outcome := ReplayEntry(store, claims, cat, b, run, es[n], d, owner, ttl);
      ReplayedNext(cat, before, s, store.Snapshot(), run, d, es, n, outcomes, outcome.value);
      outcomes := outcomes + [outcome.value];
    }
    assert es[..|es|] == es;
  }

  lemma StillReplayable(s: State, u: State, r: nat, d: DerivationId, e: CaptureEntry)
    requires Reworked(s, u, r, d) && Reconcile.RunOf(s.runs[r], e) && Reconcile.Usable(s.invalidations, d, e)
    ensures Reconcile.RunOf(u.runs[r], e) && Reconcile.Usable(u.invalidations, d, e)
  {
  }

  /** The entries of `es`, in turn, were replayed on run `r`. */
  ghost predicate Replayed(cat: Catalog, s: State, u: State, r: nat, d: DerivationId, es: seq<CaptureEntry>,
                           outcomes: seq<Outcome>)
    requires es != []
  {
    && Reworked(s, u, r, d) && u.runs[r].capture == Some(es[|es| - 1].id)
    && AllCovered(cat, u.silver, d, es) && (AllOk(outcomes) <==> AllMap(cat, d, es))
    && (Maps(cat, d, es[|es| - 1]) ==> u.runs[r].state == Processed)
  }

  /** The first `n` of them were. */
  ghost predicate ReplayedTo(cat: Catalog, s: State, u: State, r: nat, d: DerivationId, es: seq<CaptureEntry>, n: nat,
                             outcomes: seq<Outcome>)
    requires n <= |es|
  {
    if n == 0 then u == s && outcomes == [] else Replayed(cat, s, u, r, d, es[..n], outcomes)
  }

  lemma ReplayedNext(cat: Catalog, s: State, t: State, u: State, r: nat, d: DerivationId, es: seq<CaptureEntry>, n: nat,
                     outcomes: seq<Outcome>, o: Outcome)
    requires n < |es| && ReplayedTo(cat, s, t, r, d, es, n, outcomes)
    requires Reworked(t, u, r, d) && u.runs[r].capture == Some(es[n].id) && Covered(cat, u.silver, d, es[n])
    requires (o in {Ok, Noop} <==> Maps(cat, d, es[n])) && (Maps(cat, d, es[n]) ==> u.runs[r].state == Processed)
    ensures ReplayedTo(cat, s, u, r, d, es, n + 1, outcomes + [o])
  {
    OneMoreOk(outcomes, o);
    assert es[..n + 1] == es[..n] + [es[n]];
    forall x ensures x in es[..n + 1] <==> x in es[..n] || x == es[n] {
    }
    if n > 0 {
      ReworkedTransitive(s, t, u, r, d);
      AllCoveredPersists(cat, t.silver, u.silver, d, es[..n]);
    }
  }

  // ---------------------------------------------------------------- one instant

  /** The versions of every entry of `es` are stored. */
  ghost predicate AllCovered(cat: Catalog, s: Silver.Store, d: DerivationId, es: seq<CaptureEntry>) {
    forall e :: e in es ==> Covered(cat, s, d, e)
  }

  lemma AllCoveredPersists(cat: Catalog, s: Silver.Store, t: Silver.Store, d: DerivationId, es: seq<CaptureEntry>)
    requires s.rows <= t.rows && AllCovered(cat, s, d, es)
    ensures AllCovered(cat, t, d, es)
  {
  }

  /** Run `r` names the payload that ends `line`, and is processed if that payload maps. */
  ghost predicate EndsOn(cat: Catalog, b: Bronze, s: State, d: DerivationId, r: nat, line: seq<CaptureEntry>) {
    && line != [] && r < |s.runs| && Reconcile.RunOf(s.runs[r], line[|line| - 1])
    && s.runs[r].capture.Some? && s.runs[r].capture.value in b.log
    && b.log[s.runs[r].capture.value].payload == line[|line| - 1].payload
    && (Maps(cat, d, line[|line| - 1]) ==> s.runs[r].state == Processed)
  }

  /** The instant of `line` has a run on the payload that ends the line, and that payload's
      versions are stored. */
  ghost predicate Based(cat: Catalog, b: Bronze, s: State, d: DerivationId, line: seq<CaptureEntry>) {
    line != [] ==> (exists r: nat :: EndsOn(cat, b, s, d, r, line)) && Covered(cat, s.silver, d, line[|line| - 1])
  }

  lemma BasedPersists(cat: Catalog, b: Bronze, s: State, u: State, d: DerivationId, r: nat, line: seq<CaptureEntry>)
    requires Based(cat, b, s, d, line) && Reworked(s, u, r, d)
    requires line != [] ==> s.runs[r].scheduledFor != line[|line| - 1].id.scheduledFor
    ensures Based(cat, b, u, d, line)
  {
    if line != [] {
      var k: nat :| EndsOn(cat, b, s, d, k, line);
      assert EndsOn(cat, b, u, d, k, line);
      CoveredPersists(cat, s.silver, u.silver, d, line[|line| - 1]);
    }
  }

  /** All entries belong to the run of `target` at `t`. */
  ghost predicate OneInstant(line: seq<CaptureEntry>, target: TargetId, t: Instant) {
    forall e :: e in line ==> e.id.target == target && e.id.scheduledFor == t
  }

  /** Covering the generations covers the line. */
  lemma GenerationsCover(cat: Catalog, s: Silver.Store, d: DerivationId, line: seq<CaptureEntry>, target: TargetId,
                         t: Instant)
    requires OneInstant(line, target, t) && AllCovered(cat, s, d, Generations(line))
    ensures AllCovered(cat, s, d, line) && (AllMap(cat, d, Generations(line)) <==> AllMap(cat, d, line))
  {
    GenerationsKeepPayloads(line);
    forall e | e in line ensures Covered(cat, s, d, e) && (AllMap(cat, d, Generations(line)) ==> Maps(cat, d, e)) {
      assert HasPayload(Generations(line), e.payload);
      var k :| 0 <= k < |Generations(line)| && Generations(line)[k].payload == e.payload;
      assert Generations(line)[k] in Generations(line);
    }
  }

  /** A line of a single generation is covered once its last entry is. */
  lemma OneGenerationCovers(cat: Catalog, s: Silver.Store, d: DerivationId, line: seq<CaptureEntry>, target: TargetId,
                            t: Instant)
    requires OneInstant(line, target, t) && line != [] && |Generations(line)| < 2
    requires Covered(cat, s, d, line[|line| - 1])
    ensures AllCovered(cat, s, d, line) && (Maps(cat, d, line[|line| - 1]) <==> AllMap(cat, d, line))
  {
  }

  method LineOf(es: seq<CaptureEntry>, decisions: set<Decision>, d: DerivationId, t: Instant)
    returns (line: seq<CaptureEntry>)
    ensures line == Line(es, decisions, d, t)
  {
    line := [];
    for n := 0 to |es|
      invariant line == Line(es[..n], decisions, d, t)
    {
      assert es[..n + 1][..n] == es[..n];
      if es[n].id.scheduledFor == t && !IsInvalidated(decisions, es[n].id, d) {
        line := line + [es[n]];
      }
    }
    assert es[..|es|] == es;
  }

  method Distinct(line: seq<CaptureEntry>) returns (distinct: seq<CaptureEntry>)
    ensures distinct == Generations(line)
  {
    distinct := [];
    for n := 0 to |line|
      invariant distinct == Generations(line[..n])
    {
      assert line[..n + 1][..n] == line[..n];
      if distinct == [] || line[n].payload != distinct[|distinct| - 1].payload {
        distinct := distinct + [line[n]];
      }
    }
    assert line[..|line|] == line;
  }

  /** One instant: nothing to do for a single generation, else each generation in turn. */
  method ReplayInstant(store: MemoryStore.Store, ghost claims: set<Claim>, cat: Catalog, b: Bronze, target: TargetId,
                       t: Instant, line: seq<CaptureEntry>, d: DerivationId, owner: WorkerId, ttl: int)
    returns (outcomes: seq<Outcome>, ghost run: nat)
    requires Inv(cat, System(b, store.Snapshot(), claims)) && line != [] && OneInstant(line, target, t)
    requires Based(cat, b, store.Snapshot(), d, line)
    requires forall e :: e in line ==> Logged(b, e) && Reconcile.Usable(store.invalidations, d, e)
    modifies store
    ensures Inv(cat, System(b, store.Snapshot(), claims))
    ensures Reworked(old(store.Snapshot()), store.Snapshot(), run, d) && store.runs[run].target == target
    ensures store.runs[run].scheduledFor == t
    ensures Based(cat, b, store.Snapshot(), d, line) && AllCovered(cat, store.Snapshot().silver, d, line)
    ensures AllOk(outcomes) && Maps(cat, d, line[|line| - 1]) <==> AllMap(cat, d, line)
  {
    outcomes := [];
    var distinct := Distinct(line);
    assert line[|line| - 1] in line;
    run :| EndsOn(cat, b, store.Snapshot(), d, run, line);
    FairSame(store.Snapshot(), store.Snapshot(), target, d);
    if |distinct| < 2 {
      OneGenerationCovers(cat, store.Snapshot().silver, d, line, target, t);
      return;
    }
    var found := store.Find(target, t);
    if found.None? {
      return;
    }
    run := found.value;
    outcomes := ReplayAll(store, claims, cat, b, found.value, distinct, d, owner, ttl);
    GenerationsCover(cat, store.Snapshot().silver, d, line, target, t);
    assert distinct[|distinct| - 1] in line;
    assert EndsOn(cat, b, store.Snapshot(), d, run, line);
  }

  // ---------------------------------------------------------------- the whole target

  /** The ledger has no run of the target yet. */
  ghost predicate Fresh(s: State, target: TargetId) {
    forall r :: 0 <= r < |s.runs| ==> s.runs[r].target != target
  }

  /** The runs of `s` are as they were in `u`, and new runs are of `target`. */
  ghost predicate AddsOnly(s: State, u: State, target: TargetId) {
    && s.runs <= u.runs
    && (forall r :: |s.runs| <= r < |u.runs| ==> u.runs[r].target == target)
  }

  function NewRun(e: CaptureEntry, now: Instant): Run {
    Run(e.id.target, e.id.scheduledFor, Captured, 0, Reconciled, None, None, Some(e.id), now, now)
  }

  function NewRuns(es: seq<CaptureEntry>, now: Instant): (r: seq<Run>)
    ensures |r| == |es| && forall k :: 0 <= k < |es| ==> r[k] == NewRun(es[k], now)
  {
    if es == [] then [] else NewRuns(es[..|es| - 1], now) + [NewRun(es[|es| - 1], now)]
  }

  lemma FreshMergeOne(s: State, log: map<CaptureId, CaptureEntry>, e: CaptureEntry, now: Instant)
    requires forall r :: 0 <= r < |s.runs| ==> !Reconcile.RunOf(s.runs[r], e)
    ensures Reconcile.MergeOne(s, log, e, now) == s.(runs := s.runs + [NewRun(e, now)])
  {
  }

  /** Reconciling into a ledger without the target creates one captured run per entry. */
  lemma {:induction false} FreshMerge(s: State, log: map<CaptureId, CaptureEntry>, es: seq<CaptureEntry>,
                                      now: Instant, target: TargetId)
    requires Fresh(s, target) && Reconcile.Ascending(es) && forall e :: e in es ==> e.id.target == target
    ensures Reconcile.MergeAll(s, log, es, now) == s.(runs := s.runs + NewRuns(es, now))
  {
    if es == [] {
      assert s.runs + [] == s.runs;
    } else {
      var init, last := es[..|es| - 1], es[|es| - 1];
      FreshMerge(s, log, init, now, target);
      FreshMergeOne(s.(runs := s.runs + NewRuns(init, now)), log, last, now);
      assert s.runs + NewRuns(init, now) + [NewRun(last, now)] == s.runs + NewRuns(es, now);
    }
  }

  /** Every line of the listing is based. */
  ghost predicate AllBased(cat: Catalog, b: Bronze, s: State, d: DerivationId, es: seq<CaptureEntry>,
                           decisions: set<Decision>)
  {
    forall t: Instant {:trigger Based(cat, b, s, d, Line(es, decisions, d, t))} ::
      Based(cat, b, s, d, Line(es, decisions, d, t))
  }

  lemma LineEndsNewest(es: seq<CaptureEntry>, decisions: set<Decision>, d: DerivationId, t: Instant)
    requires Sorted(es) && Line(es, decisions, d, t) != []
    ensures var line := Line(es, decisions, d, t); line[|line| - 1] in Reconcile.NewestOf(es, decisions, d)
  {
  }

  /** A full reconcile into a ledger without the target adds one run per newest entry. */
  lemma FreshReconcile(b: Bronze, s: State, target: TargetId, d: DerivationId, es: seq<CaptureEntry>, now: Instant)
    requires Fresh(s, target) && Listing(b.log, target, None, None, es)
    ensures var m := Reconcile.ReconcileFrom(s, b, target, d, es, now);
            var mirrored := Reconcile.Mirrored(s, b, target);
            var newest := Reconcile.NewestOf(es, mirrored.invalidations, d);
      m == mirrored.(runs := s.runs + NewRuns(newest, now)) && forall e :: e in newest ==> e.id.target == target
  {
    var mirrored := Reconcile.Mirrored(s, b, target);
    var newest := Reconcile.NewestOf(es, mirrored.invalidations, d);
    Reconcile.NewestOfPicks(es, mirrored.invalidations, d);
    forall e | e in newest ensures e.id.target == target {
      Reconcile.NewestOfIsNewest(es, mirrored.invalidations, d, e);
    }
    FreshMerge(mirrored, b.log, newest, now, target);
  }

  lemma FreshAdds(b: Bronze, s: State, target: TargetId, d: DerivationId, es: seq<CaptureEntry>, now: Instant)
    requires Fresh(s, target) && Listing(b.log, target, None, None, es)
    ensures AddsOnly(s, Reconcile.ReconcileFrom(s, b, target, d, es, now), target)
  {
    FreshReconcile(b, s, target, d, es, now);
    var newest := Reconcile.NewestOf(es, Reconcile.Mirrored(s, b, target).invalidations, d);
    forall k | 0 <= k < |newest| ensures NewRuns(newest, now)[k].target == target {
      assert newest[k] in newest;
    }
  }

  /** Each line then has a run on its last entry. */
  lemma FreshLine(b: Bronze, s: State, m: State, target: TargetId, d: DerivationId, es: seq<CaptureEntry>,
                  now: Instant, t: Instant)
    requires Fresh(s, target) && Listing(b.log, target, None, None, es)
    requires m == Reconcile.ReconcileFrom(s, b, target, d, es, now)
    requires m.invalidations == Reconcile.Mirrored(s, b, target).invalidations && Line(es, m.invalidations, d, t) != []
    ensures var line := Line(es, m.invalidations, d, t); RunFor(m.runs, line[|line| - 1], now)
  {
    FreshReconcile(b, s, target, d, es, now);
    LineEndsNewest(es, m.invalidations, d, t);
    var line := Line(es, m.invalidations, d, t);
    NewRunFor(s.runs, Reconcile.NewestOf(es, m.invalidations, d), now, line[|line| - 1]);
  }

  ghost predicate RunFor(runs: seq<Run>, e: CaptureEntry, now: Instant) {
    exists r :: 0 <= r < |runs| && runs[r] == NewRun(e, now)
  }

  lemma NewRunFor(runs: seq<Run>, newest: seq<CaptureEntry>, now: Instant, e: CaptureEntry)
    requires e in newest
    ensures RunFor(runs + NewRuns(newest, now), e, now)
  {
    var k :| 0 <= k < |newest| && newest[k] == e;
    assert (runs + NewRuns(newest, now))[|runs| + k] == NewRun(e, now);
  }

  /** Processing the runs that name the last entries bases every line. */
  lemma ProcessBases(cat: Catalog, b: Bronze, m: State, u: State, target: TargetId, d: DerivationId,
                     line: seq<CaptureEntry>, r: nat, now: Instant, later: Instant, outcomes: seq<Outcome>)
    requires Worked(m, u) && AllDone(cat, b, m, u, target, d, later, outcomes)
    requires line != [] && r < |m.runs| && m.runs[r] == NewRun(line[|line| - 1], now)
    requires line[|line| - 1].id.target == target
    requires Logged(b, line[|line| - 1]) && Reconcile.Usable(m.invalidations, d, line[|line| - 1])
    ensures Based(cat, b, u, d, line) && (AllOk(outcomes) ==> EndMaps(cat, d, line))
  {
    assert Process.Listed(m, target, r, later);
    assert RunDone(cat, b, m, u, d, r);
    assert EndsOn(cat, b, u, d, r, line);
  }

  /** The last entry of every line maps. */
  ghost predicate EndsMap(cat: Catalog, d: DerivationId, es: seq<CaptureEntry>, decisions: set<Decision>) {
    forall t: Instant {:trigger EndMaps(cat, d, Line(es, decisions, d, t))} ::
      EndMaps(cat, d, Line(es, decisions, d, t))
  }

  ghost predicate EndMaps(cat: Catalog, d: DerivationId, line: seq<CaptureEntry>) {
    line != [] ==> Maps(cat, d, line[|line| - 1])
  }

  /** The lines of the first `n` listed instants are covered. */
  ghost predicate LinesCovered(cat: Catalog, s: Silver.Store, d: DerivationId, es: seq<CaptureEntry>,
                               decisions: set<Decision>, n: nat)
    requires n <= |es|
  {
    forall k {:trigger AllCovered(cat, s, d, Line(es, decisions, d, es[k].id.scheduledFor))} ::
      0 <= k < n ==> AllCovered(cat, s, d, Line(es, decisions, d, es[k].id.scheduledFor))
  }

  ghost predicate LinesMap(cat: Catalog, d: DerivationId, es: seq<CaptureEntry>, decisions: set<Decision>, n: nat)
    requires n <= |es|
  {
    forall k {:trigger AllMap(cat, d, Line(es, decisions, d, es[k].id.scheduledFor))} ::
      0 <= k < n ==> AllMap(cat, d, Line(es, decisions, d, es[k].id.scheduledFor))
  }

  lemma LinesCoveredPersist(cat: Catalog, s: Silver.Store, t: Silver.Store, d: DerivationId, es: seq<CaptureEntry>,
                            decisions: set<Decision>, n: nat)
    requires n <= |es| && s.rows <= t.rows && LinesCovered(cat, s, d, es, decisions, n)
    ensures LinesCovered(cat, t, d, es, decisions, n)
  {
    forall k | 0 <= k < n ensures AllCovered(cat, t, d, Line(es, decisions, d, es[k].id.scheduledFor)) {
      AllCoveredPersists(cat, s, t, d, Line(es, decisions, d, es[k].id.scheduledFor));
    }
  }

  /** Every instant of the listing in turn. */
  method ReplayInstants(store: MemoryStore.Store, ghost claims: set<Claim>, cat: Catalog, b: Bronze, target: TargetId,
                        es: seq<CaptureEntry>, d: DerivationId, owner: WorkerId, ttl: int)
    returns (outcomes: seq<Outcome>)
    requires Inv(cat, System(b, store.Snapshot(), claims)) && Listing(b.log, target, None, None, es)
    requires AllBased(cat, b, store.Snapshot(), d, es, store.invalidations)
    modifies store
    ensures Inv(cat, System(b, store.Snapshot(), claims)) && store.invalidations == old(store.invalidations)
    ensures old(store.rows) <= store.rows && OthersSame(old(store.runs), store.runs, target)
    ensures Fair(old(store.Snapshot()), store.Snapshot(), target, d)
    ensures AllBased(cat, b, store.Snapshot(), d, es, store.invalidations)
    ensures LinesCovered(cat, store.Snapshot().silver, d, es, store.invalidations, |es|)
    ensures EndsMap(cat, d, es, store.invalidations) ==>
      (AllOk(outcomes) <==> LinesMap(cat, d, es, store.invalidations, |es|))
  {
    outcomes := [];
    ghost var s := store.Snapshot();
    FairSame(s, s, target, d);
    for n := 0 to |es|
      invariant Inv(cat, System(b, store.Snapshot(), claims))
      invariant Replaying(cat, b, s, store.Snapshot(), target, d, es, n, outcomes)
    {
      ghost var mid := store.Snapshot();
      // the listing is ordered: a new instant starts where the instant changes
      if n == 0 || es[n - 1].id.scheduledFor != es[n].id.scheduledFor {
        var more := ReplayListed(store, claims, cat, b, target, es, es[n].id.scheduledFor, d, owner, ttl);
        ReplaysOn(cat, b, s, mid, store.Snapshot(), target, d, es, n, outcomes, more);
        outcomes := outcomes + more;
      } else {
        NextLine(cat, mid.silver, d, es, mid.invalidations, n);
      }
    }
  }

  /** After the first `n` listed entries. */
  ghost predicate Replaying(cat: Catalog, b: Bronze, s: State, u: State, target: TargetId, d: DerivationId,
                            es: seq<CaptureEntry>, n: nat, outcomes: seq<Outcome>)
    requires n <= |es|
  {
    && u.invalidations == s.invalidations && s.silver.rows <= u.silver.rows
    && OthersSame(s.runs, u.runs, target) && Fair(s, u, target, d)
    && AllBased(cat, b, u, d, es, s.invalidations) && LinesCovered(cat, u.silver, d, es, s.invalidations, n)
    && (EndsMap(cat, d, es, s.invalidations) ==> (AllOk(outcomes) <==> LinesMap(cat, d, es, s.invalidations, n)))
  }

  lemma ReplaysOn(cat: Catalog, b: Bronze, s: State, t: State, u: State, target: TargetId, d: DerivationId,
                  es: seq<CaptureEntry>, n: nat, outcomes: seq<Outcome>, more: seq<Outcome>)
    requires n < |es| && Replaying(cat, b, s, t, target, d, es, n, outcomes)
    requires u.invalidations == t.invalidations && t.silver.rows <= u.silver.rows
    requires OthersSame(t.runs, u.runs, target) && Fair(t, u, target, d)
    requires AllBased(cat, b, u, d, es, s.invalidations)
    requires var line := Line(es, s.invalidations, d, es[n].id.scheduledFor);
      && AllCovered(cat, u.silver, d, line)
      && (EndsMap(cat, d, es, s.invalidations) ==> (AllOk(more) <==> AllMap(cat, d, line)))
    ensures Replaying(cat, b, s, u, target, d, es, n + 1, outcomes + more)
  {
    BothOk(outcomes, more);
    FairTransitive(s, t, u, target, d);
    LinesCoveredPersist(cat, t.silver, u.silver, d, es, s.invalidations, n);
    NextLine(cat, u.silver, d, es, s.invalidations, n);
  }

  /** One more listed instant: the one just done, or the same as before. */
  lemma NextLine(cat: Catalog, s: Silver.Store, d: DerivationId, es: seq<CaptureEntry>, decisions: set<Decision>,
                 n: nat)
    requires n < |es| && LinesCovered(cat, s, d, es, decisions, n)
    requires
      || (n > 0 && es[n - 1].id.scheduledFor == es[n].id.scheduledFor)
      || AllCovered(cat, s, d, Line(es, decisions, d, es[n].id.scheduledFor))
    ensures LinesCovered(cat, s, d, es, decisions, n + 1)
    ensures LinesMap(cat, d, es, decisions, n + 1) <==>
      LinesMap(cat, d, es, decisions, n) && AllMap(cat, d, Line(es, decisions, d, es[n].id.scheduledFor))
    ensures n > 0 && es[n - 1].id.scheduledFor == es[n].id.scheduledFor ==>
      (LinesMap(cat, d, es, decisions, n + 1) <==> LinesMap(cat, d, es, decisions, n))
  {
    if n > 0 {
      assert AllCovered(cat, s, d, Line(es, decisions, d, es[n - 1].id.scheduledFor));
      assert LinesMap(cat, d, es, decisions, n) ==> AllMap(cat, d, Line(es, decisions, d, es[n - 1].id.scheduledFor));
    }
  }

  /** One listed instant. */
  method ReplayListed(store: MemoryStore.Store, ghost claims: set<Claim>, cat: Catalog, b: Bronze, target: TargetId,
                      es: seq<CaptureEntry>, t: Instant, d: DerivationId, owner: WorkerId, ttl: int)
    returns (outcomes: seq<Outcome>)
    requires Inv(cat, System(b, store.Snapshot(), claims)) && Listing(b.log, target, None, None, es)
    requires AllBased(cat, b, store.Snapshot(), d, es, store.invalidations)
    modifies store
    ensures Inv(cat, System(b, store.Snapshot(), claims)) && store.invalidations == old(store.invalidations)
    ensures old(store.rows) <= store.rows && OthersSame(old(store.runs), store.runs, target)
    ensures Fair(old(store.Snapshot()), store.Snapshot(), target, d)
    ensures AllBased(cat, b, store.Snapshot(), d, es, store.invalidations)
    ensures AllCovered(cat, store.Snapshot().silver, d, Line(es, store.invalidations, d, t))
    ensures EndsMap(cat, d, es, store.invalidations) ==>
      (AllOk(outcomes) <==> AllMap(cat, d, Line(es, store.invalidations, d, t)))
  {
    outcomes := [];
    ghost var s := store.Snapshot();
    FairSame(s, s, target, d);
    var line := LineOf(es, store.invalidations, d, t);
    if line != [] {
      ghost var run;
      assert Based(cat, b, s, d, line) && (EndsMap(cat, d, es, s.invalidations) ==> EndMaps(cat, d, line));
      outcomes, run := ReplayInstant(store, claims, cat, b, target, t, line, d, owner, ttl);
      OtherInstants(cat, b, s, store.Snapshot(), d, es, s.invalidations, t, run);
    }
  }

  lemma OtherInstants(cat: Catalog, b: Bronze, s: State, u: State, d: DerivationId, es: seq<CaptureEntry>,
                      decisions: set<Decision>, t: Instant, run: nat)
    requires AllBased(cat, b, s, d, es, decisions) && Reworked(s, u, run, d) && s.runs[run].scheduledFor == t
    requires Based(cat, b, u, d, Line(es, decisions, d, t))
    ensures AllBased(cat, b, u, d, es, decisions)
  {
    forall o: Instant ensures Based(cat, b, u, d, Line(es, decisions, d, o)) {
      var line := Line(es, decisions, d, o);
      if o != t {
        assert line != [] ==> line[|line| - 1] in line;
        BasedPersists(cat, b, s, u, d, run, line);
      }
    }
  }

  /** `process` reconciles a window again, and finds nothing to do. */
  lemma PartIsClosed(cat: Catalog, sys: System, target: TargetId, d: DerivationId, es: seq<CaptureEntry>, now: Instant,
                     part: seq<CaptureEntry>, later: Instant, since: Instant)
    requires Inv(cat, sys) && Listing(sys.bronze.log, target, None, None, es)
    requires Listing(sys.bronze.log, target, Some(since), None, part)
    ensures var m := Reconcile.ReconcileFrom(sys.ledger, sys.bronze, target, d, es, now);
      Reconcile.ReconcileFrom(m, sys.bronze, target, d, part, later) == m
  {
    AllNamed(cat, sys);
    Reconcile.ReconcileTwice(sys.ledger, sys.bronze, target, d, es, now, part, later);
  }

  lemma FreshIsQuiet(s: State, m: State, b: Bronze, target: TargetId, d: DerivationId, es: seq<CaptureEntry>,
                     now: Instant)
    requires Fresh(s, target) && m == Reconcile.ReconcileFrom(s, b, target, d, es, now)
    ensures Quiet(m, target)
  {
    var mirrored := Reconcile.Mirrored(s, b, target);
    assert Quiet(mirrored, target);
    MergeStaysQuiet(mirrored, b.log, Reconcile.NewestOf(es, mirrored.invalidations, d), now, target);
  }

  /** `e` is the newest entry of the target at `t` that no decision rules out under `d`. */
  ghost predicate NewestUsable(b: Bronze, target: TargetId, d: DerivationId, t: Instant, e: CaptureEntry) {
    && e.id in b.log && b.log[e.id] == e && e.id.target == target && e.id.scheduledFor == t
    && Reconcile.Usable(b.decisions, d, e)
    && forall c :: c in b.log && c.target == target && c.scheduledFor == t && !IsInvalidated(b.decisions, c, d) ==>
         c.attempt <= e.id.attempt
  }

  /** The instant has a run on the payload of its newest usable entry, processed if that maps. */
  ghost predicate Restored(cat: Catalog, s: State, b: Bronze, target: TargetId, d: DerivationId, t: Instant) {
    exists r, e :: 0 <= r < |s.runs| && NewestUsable(b, target, d, t, e) && RestoredBy(cat, s.runs[r], b, d, e)
  }

  ghost predicate RestoredBy(cat: Catalog, run: Run, b: Bronze, d: DerivationId, e: CaptureEntry) {
    && Reconcile.RunOf(run, e) && run.capture.Some? && run.capture.value in b.log
    && b.log[run.capture.value].payload == e.payload && (Maps(cat, d, e) ==> run.state == Processed)
  }

  /** The ledger's decisions about the target are Bronze's. */
  ghost predicate Agreed(decisions: set<Decision>, b: Bronze, target: TargetId) {
    decisions <= b.decisions && forall dec :: dec in b.decisions && dec.capture.target == target ==> dec in decisions
  }

  lemma EntryCovered(cat: Catalog, b: Bronze, s: State, target: TargetId, d: DerivationId, es: seq<CaptureEntry>,
                     c: CaptureId)
    requires LogOk(b) && Listing(b.log, target, None, None, es) && Agreed(s.invalidations, b, target)
    requires LinesCovered(cat, s.silver, d, es, s.invalidations, |es|)
    requires c in b.log && c.target == target && !IsInvalidated(b.decisions, c, d)
    ensures Covered(cat, s.silver, d, b.log[c]) && b.log[c] in Line(es, s.invalidations, d, c.scheduledFor)
    ensures LinesMap(cat, d, es, s.invalidations, |es|) ==> Maps(cat, d, b.log[c])
  {
    assert b.log[c] in es;
    var k :| 0 <= k < |es| && es[k] == b.log[c];
    assert AllCovered(cat, s.silver, d, Line(es, s.invalidations, d, es[k].id.scheduledFor));
    assert LinesMap(cat, d, es, s.invalidations, |es|) ==>
        AllMap(cat, d, Line(es, s.invalidations, d, es[k].id.scheduledFor));
  }

  lemma InstantRestored(cat: Catalog, b: Bronze, s: State, target: TargetId, d: DerivationId, es: seq<CaptureEntry>,
                        t: Instant)
    requires LogOk(b) && Listing(b.log, target, None, None, es) && Agreed(s.invalidations, b, target)
    requires Based(cat, b, s, d, Line(es, s.invalidations, d, t)) && Line(es, s.invalidations, d, t) != []
    ensures Restored(cat, s, b, target, d, t)
  {
    var line := Line(es, s.invalidations, d, t);
    var last := line[|line| - 1];
    assert last in line;
    var r: nat :| EndsOn(cat, b, s, d, r, line);
    LineEndsNewest(es, s.invalidations, d, t);
    Reconcile.NewestOfIsNewest(es, s.invalidations, d, last);
    NewestInLog(b, s.invalidations, target, d, es, last);
  }

  lemma NewestInLog(b: Bronze, decisions: set<Decision>, target: TargetId, d: DerivationId, es: seq<CaptureEntry>,
                    e: CaptureEntry)
    requires LogOk(b) && Listing(b.log, target, None, None, es) && Agreed(decisions, b, target)
    requires Reconcile.IsNewest(es, decisions, d, e)
    ensures NewestUsable(b, target, d, e.id.scheduledFor, e)
  {
  }

  /** The first half of `_rebuild`: reconcile the whole replica, then `process`. */
  method ReconcileAndProcess(store: MemoryStore.Store, cat: Catalog, b: Bronze, replica: MemoryLog, target: TargetId,
                             d: DerivationId, owner: WorkerId, ttl: int, reach: nat, es: seq<CaptureEntry>)
    returns (outcomes: seq<Outcome>)
    requires replica.Valid() && replica.entries == b.log && Listing(b.log, target, None, None, es)
    requires Inv(cat, System(b, store.Snapshot(), {})) && Fresh(store.Snapshot(), target)
    modifies store
    ensures Inv(cat, System(b, store.Snapshot(), {}))
    ensures Agreed(store.invalidations, b, target) && old(store.rows) <= store.rows
    ensures AddsOnly(old(store.Snapshot()), store.Snapshot(), target)
    ensures AllBased(cat, b, store.Snapshot(), d, es, store.invalidations)
    ensures AllOk(outcomes) <==> EndsMap(cat, d, es, store.invalidations)
    ensures Fair(old(store.Snapshot()), store.Snapshot(), target, d)
  {
    var now: Instant, later: Instant := *, *;
    ghost var s := store.Snapshot();
    Reconcile.Run(store, b, target, d, es, now);
    ghost var m := store.Snapshot();
    var part := replica.List(target, Some(later - reach), None);
    AfterReconcile(cat, b, s, target, d, es, now, part, later, later - reach);
    outcomes := Process.Run(store, {}, cat, b, target, d, owner, ttl, None, part, later);
    AfterProcess(cat, b, s, m, store.Snapshot(), target, d, es, now, later, outcomes);
  }

  lemma AfterReconcile(cat: Catalog, b: Bronze, s: State, target: TargetId, d: DerivationId, es: seq<CaptureEntry>,
                       now: Instant, part: seq<CaptureEntry>, later: Instant, since: Instant)
    requires Inv(cat, System(b, s, {})) && Fresh(s, target)
    requires Listing(b.log, target, None, None, es) && Listing(b.log, target, Some(since), None, part)
    ensures var m := Reconcile.ReconcileFrom(s, b, target, d, es, now);
      && Inv(cat, System(b, m, {})) && Quiet(m, target)
      && Reconcile.ReconcileFrom(m, b, target, d, part, later) == m
      && Agreed(m.invalidations, b, target) && m.silver == s.silver
  {
    Reconcile.ReconcileKeeps(cat, System(b, s, {}), target, d, es, now);
    PartIsClosed(cat, System(b, s, {}), target, d, es, now, part, later, since);
    FreshIsQuiet(s, Reconcile.ReconcileFrom(s, b, target, d, es, now), b, target, d, es, now);
    AllNamed(cat, System(b, s, {}));
    MirrorAgrees(cat, b, s, Reconcile.ReconcileFrom(s, b, target, d, es, now), target, d, es, now);
  }

  lemma AllNamed(cat: Catalog, sys: System)
    requires Inv(cat, sys)
    ensures Reconcile.Keyed(sys.ledger) && Reconcile.Named(sys.ledger)
  {
    forall r | 0 <= r < |sys.ledger.runs| && sys.ledger.runs[r].state == Processed
      ensures sys.ledger.runs[r].capture.Some?
    {
      assert RunOk(sys.bronze, sys.ledger.runs[r]);
    }
  }

  lemma AfterProcess(cat: Catalog, b: Bronze, s: State, m: State, u: State, target: TargetId, d: DerivationId,
                     es: seq<CaptureEntry>, now: Instant, later: Instant, outcomes: seq<Outcome>)
    requires Fresh(s, target) && Listing(b.log, target, None, None, es)
    requires m == Reconcile.ReconcileFrom(s, b, target, d, es, now)
    requires Worked(m, u) && AllDone(cat, b, m, u, target, d, later, outcomes)
    requires Fair(m, u, target, d) && OthersSame(m.runs, u.runs, target)
    ensures AddsOnly(s, u, target) && Fair(s, u, target, d)
    ensures AllBased(cat, b, u, d, es, u.invalidations) && (AllOk(outcomes) <==> EndsMap(cat, d, es, u.invalidations))
  {
    FreshReconcile(b, s, target, d, es, now);
    FreshAdds(b, s, target, d, es, now);
    FairSame(s, m, target, d);
    FairTransitive(s, m, u, target, d);
    LinesBased(cat, b, s, m, u, target, d, es, now, later, outcomes);
  }

  /** `_rebuild`: reconcile the whole replica, process, then replay every instant that has more
      than one generation.  From a scratch ledger without the target, every capture of the replica
      that is not invalidated has all its versions stored afterwards, every instant with such a
      capture has a run on the payload of its newest one, processed if that maps, and no report is
      a failure exactly when every such capture maps. */
  method Target(store: MemoryStore.Store, cat: Catalog, b: Bronze, replica: MemoryLog, target: TargetId,
                d: DerivationId, owner: WorkerId, ttl: int, reach: nat)
    returns (outcomes: seq<Outcome>)
    requires replica.Valid() && replica.entries == b.log
    requires Inv(cat, System(b, store.Snapshot(), {})) && Fresh(store.Snapshot(), target)
    modifies store
    ensures Inv(cat, System(b, store.Snapshot(), {})) && old(store.rows) <= store.rows
    ensures AddsOnly(old(store.Snapshot()), store.Snapshot(), target)
    ensures forall c :: c in b.log && c.target == target && !IsInvalidated(b.decisions, c, d) ==>
      && Covered(cat, store.Snapshot().silver, d, b.log[c])
      && Restored(cat, store.Snapshot(), b, target, d, c.scheduledFor)
    ensures AllOk(outcomes) <==>
      forall c :: c in b.log && c.target == target && !IsInvalidated(b.decisions, c, d) ==> Maps(cat, d, b.log[c])
    ensures Fair(old(store.Snapshot()), store.Snapshot(), target, d) && Agreed(store.invalidations, b, target)
  {
    var es := replica.List(target, None, None);
    ghost var s := store.Snapshot();
    outcomes := ReconcileAndProcess(store, cat, b, replica, target, d, owner, ttl, reach, es);
    ghost var m := store.Snapshot();
    var more := ReplayInstants(store, {}, cat, b, target, es, d, owner, ttl);
    BothOk(outcomes, more);
    outcomes := outcomes + more;
    FairTransitive(s, m, store.Snapshot(), target, d);
    AllEntriesMap(cat, b, store.Snapshot(), target, d, es);
    forall c | c in b.log && c.target == target && !IsInvalidated(b.decisions, c, d)
      ensures Covered(cat, store.Snapshot().silver, d, b.log[c])
      ensures Restored(cat, store.Snapshot(), b, target, d, c.scheduledFor)
    {
      EntryCovered(cat, b, store.Snapshot(), target, d, es, c);
      InstantRestored(cat, b, store.Snapshot(), target, d, es, c.scheduledFor);
    }
  }

  /** All lines map, and then their last entries do, exactly when every usable capture maps. */
  lemma AllEntriesMap(cat: Catalog, b: Bronze, s: State, target: TargetId, d: DerivationId, es: seq<CaptureEntry>)
    requires LogOk(b) && Listing(b.log, target, None, None, es) && Agreed(s.invalidations, b, target)
    requires LinesCovered(cat, s.silver, d, es, s.invalidations, |es|)
    ensures EndsMap(cat, d, es, s.invalidations) && LinesMap(cat, d, es, s.invalidations, |es|) <==>
      forall c :: c in b.log && c.target == target && !IsInvalidated(b.decisions, c, d) ==> Maps(cat, d, b.log[c])
  {
    if LinesMap(cat, d, es, s.invalidations, |es|) {
      forall c | c in b.log && c.target == target && !IsInvalidated(b.decisions, c, d) ensures Maps(cat, d, b.log[c]) {
        EntryCovered(cat, b, s, target, d, es, c);
      }
    }
    if forall c :: c in b.log && c.target == target && !IsInvalidated(b.decisions, c, d) ==> Maps(cat, d, b.log[c]) {
      forall t: Instant
        ensures AllMap(cat, d, Line(es, s.invalidations, d, t)) && EndMaps(cat, d, Line(es, s.invalidations, d, t))
      {
        LineMaps(cat, b, s, target, d, es, t);
      }
    }
  }

  lemma LineMaps(cat: Catalog, b: Bronze, s: State, target: TargetId, d: DerivationId, es: seq<CaptureEntry>,
                 t: Instant)
    requires LogOk(b) && Listing(b.log, target, None, None, es) && Agreed(s.invalidations, b, target)
    requires forall c :: c in b.log && c.target == target && !IsInvalidated(b.decisions, c, d) ==>
      Maps(cat, d, b.log[c])
    ensures AllMap(cat, d, Line(es, s.invalidations, d, t)) && EndMaps(cat, d, Line(es, s.invalidations, d, t))
  {
    var line := Line(es, s.invalidations, d, t);
    forall e | e in line ensures Maps(cat, d, e) {
      assert e in es && e.id in b.log && b.log[e.id] == e;
    }
    if line != [] {
      assert line[|line| - 1] in line;
    }
  }

  lemma MirrorAgrees(cat: Catalog, b: Bronze, s: State, m: State, target: TargetId, d: DerivationId,
                     es: seq<CaptureEntry>, now: Instant)
    requires s.invalidations <= b.decisions && Reconcile.Keyed(s) && Reconcile.Named(s) && Sorted(es)
    requires m == Reconcile.ReconcileFrom(s, b, target, d, es, now)
    ensures Agreed(m.invalidations, b, target) && m.silver == s.silver
    ensures m.invalidations == Reconcile.Mirrored(s, b, target).invalidations
  {
    var mirrored := Reconcile.Mirrored(s, b, target);
    Reconcile.NewestOfPicks(es, mirrored.invalidations, d);
    Reconcile.MergeAllSettles(mirrored, b.log, Reconcile.NewestOf(es, mirrored.invalidations, d), now);
  }

  lemma LineBased(cat: Catalog, b: Bronze, s: State, m: State, u: State, target: TargetId, d: DerivationId,
                  es: seq<CaptureEntry>, now: Instant, t: Instant, later: Instant, outcomes: seq<Outcome>)
    requires Fresh(s, target) && Listing(b.log, target, None, None, es)
    requires m == Reconcile.ReconcileFrom(s, b, target, d, es, now)
    requires m.invalidations == Reconcile.Mirrored(s, b, target).invalidations
    requires Worked(m, u) && AllDone(cat, b, m, u, target, d, later, outcomes)
    ensures Based(cat, b, u, d, Line(es, m.invalidations, d, t))
    ensures AllOk(outcomes) ==> EndMaps(cat, d, Line(es, m.invalidations, d, t))
  {
    var line := Line(es, m.invalidations, d, t);
    if line != [] {
      FreshLine(b, s, m, target, d, es, now, t);
      var r :| 0 <= r < |m.runs| && m.runs[r] == NewRun(line[|line| - 1], now);
      assert line[|line| - 1] in line;
      ProcessBases(cat, b, m, u, target, d, line, r, now, later, outcomes);
    }
  }

  /** So every line is based, and no report is a failure exactly when the last entries map. */
  lemma LinesBased(cat: Catalog, b: Bronze, s: State, m: State, u: State, target: TargetId, d: DerivationId,
                   es: seq<CaptureEntry>, now: Instant, later: Instant, outcomes: seq<Outcome>)
    requires Fresh(s, target) && Listing(b.log, target, None, None, es)
    requires m == Reconcile.ReconcileFrom(s, b, target, d, es, now)
    requires m.invalidations == Reconcile.Mirrored(s, b, target).invalidations
    requires Worked(m, u) && AllDone(cat, b, m, u, target, d, later, outcomes)
    ensures AllBased(cat, b, u, d, es, m.invalidations)
    ensures AllOk(outcomes) <==> EndsMap(cat, d, es, m.invalidations)
  {
    forall t: Instant
      ensures Based(cat, b, u, d, Line(es, m.invalidations, d, t))
      ensures AllOk(outcomes) ==> EndMaps(cat, d, Line(es, m.invalidations, d, t))
    {
      LineBased(cat, b, s, m, u, target, d, es, now, t, later, outcomes);
    }
    if EndsMap(cat, d, es, m.invalidations) {
      forall r: nat | Process.Listed(m, target, r, later) ensures RunMapped(cat, b, m, d, r) {
        ListedMap(cat, b, s, m, target, d, es, now, later, r);
      }
    }
  }

  /** When the last entry of every line maps, so does every newest entry. */
  lemma NewestMaps(cat: Catalog, es: seq<CaptureEntry>, decisions: set<Decision>, d: DerivationId, e: CaptureEntry)
    requires Sorted(es) && e in Reconcile.NewestOf(es, decisions, d) && EndsMap(cat, d, es, decisions)
    ensures Maps(cat, d, e)
  {
    Reconcile.NewestOfIsNewest(es, decisions, d, e);
    NewestEndsLine(es, decisions, d, e);
    var line := Line(es, decisions, d, e.id.scheduledFor);
    assert EndMaps(cat, d, line);
  }

  /** When the last entry of every line maps, so does the capture of every listed run. */
  lemma ListedMap(cat: Catalog, b: Bronze, s: State, m: State, target: TargetId, d: DerivationId, es: seq<CaptureEntry>,
                  now: Instant, later: Instant, r: nat)
    requires Fresh(s, target) && Listing(b.log, target, None, None, es)
    requires m == Reconcile.ReconcileFrom(s, b, target, d, es, now)
    requires EndsMap(cat, d, es, m.invalidations) && Process.Listed(m, target, r, later)
    ensures RunMapped(cat, b, m, d, r)
  {
    FreshReconcile(b, s, target, d, es, now);
    var newest := Reconcile.NewestOf(es, m.invalidations, d);
    var e := newest[r - |s.runs|];
    assert m.runs[r] == NewRun(e, now);
    assert e in newest;
    Reconcile.NewestOfIsNewest(es, m.invalidations, d, e);
    NewestMaps(cat, es, m.invalidations, d, e);
  }
}
