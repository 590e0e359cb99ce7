/** Restore completeness: a replica that holds live's captures reproduces what live holds. */
module Restore {
  import opened Types
  import opened Ledger
  import opened CaptureLog
  import opened System
  import opened Traces
  import opened Process
  import opened Rebuild
  import opened Drill
  import opened Values
  import Silver

  /** A target to drill, under the derivation its manifest has now. */
  datatype Manifest = Manifest(target: TargetId, derivation: DerivationId)

  predicate Usable(b: Bronze, m: Manifest, c: CaptureId) {
    c in b.log && c.target == m.target && !IsInvalidated(b.decisions, c, m.derivation)
  }

  // ---------------------------------------------------------------- what the rebuilt group holds

  /** Every usable capture of the target has its versions in the rebuild. */
  ghost predicate Complete(cat: Catalog, b: Bronze, scratch: State, m: Manifest) {
    forall c :: Usable(b, m, c) ==> Covered(cat, scratch.silver, m.derivation, b.log[c])
  }

  /** Attempt `k`, if it ended ok, read a usable capture of one of the manifests, under its derivation. */
  ghost predicate SoundAttempt(b: Bronze, s: State, ms: seq<Manifest>, k: nat)
    requires k < |s.attempts|
  {
    s.attempts[k].outcome == Some(Ok) ==>
      && s.attempts[k].run < |s.runs| && s.attempts[k].capture.Some?
      && exists m :: m in ms && s.runs[s.attempts[k].run].target == m.target
           && s.attempts[k].derivation == Some(m.derivation) && Usable(b, m, s.attempts[k].capture.value)
  }

  /** The rebuild stands on usable captures of the drilled targets only. */
  ghost predicate Sound(b: Bronze, s: State, ms: seq<Manifest>) {
    forall k :: 0 <= k < |s.attempts| ==> SoundAttempt(b, s, ms, k)
  }

  /** Measurement `x` of capture `c`, usable for `m`, has fingerprint `fp` in the group of `feed`. */
  ghost predicate GivenBy(cat: Catalog, b: Bronze, m: Manifest, c: CaptureId, x: Measurement, feed: Feed,
                          fp: Fingerprint)
  {
    && Usable(b, m, c) && cat.feed(m.target) == feed
    && Gives(cat, m.target, m.derivation, b.log[c].payload, c.scheduledFor, x)
    && fp == Fingerprint(Pair(IdentityOf(feed.dataset, x), b.log[c].payload), x.value)
  }

  /** Some usable capture of a drilled target maps to the version and value `fp`. */
  ghost predicate Given(cat: Catalog, b: Bronze, ms: seq<Manifest>, feed: Feed, fp: Fingerprint) {
    exists m, c, x :: m in ms && GivenBy(cat, b, m, c, x, feed, fp)
  }

  /** The rebuilt group holds exactly what the usable captures of the drilled targets give. */
  lemma GroupIsGiven(cat: Catalog, b: Bronze, scratch: State, ms: seq<Manifest>, feed: Feed, fp: Fingerprint)
    requires Inv(cat, System(b, scratch, {})) && Determined(cat) && Sound(b, scratch, ms)
    requires forall m :: m in ms ==> Complete(cat, b, scratch, m)
    ensures fp in GroupPrints(scratch, feed) <==> Given(cat, b, ms, feed, fp)
  {
    if fp in GroupPrints(scratch, feed) {
      var i: nat :| i < |scratch.silver.rows| && InGroup(scratch, feed, i)
        && FingerprintOf(scratch.silver.rows[i].observation) == fp;
      RowIsGiven(cat, b, scratch, ms, feed, i);
    }
    if Given(cat, b, ms, feed, fp) {
      var m, c, x :| m in ms && GivenBy(cat, b, m, c, x, feed, fp);
      GivenIsStored(cat, b, scratch, m, c, x, feed, fp);
    }
  }

  lemma RowIsGiven(cat: Catalog, b: Bronze, scratch: State, ms: seq<Manifest>, feed: Feed, i: nat)
    requires Inv(cat, System(b, scratch, {})) && Sound(b, scratch, ms) && InGroup(scratch, feed, i)
    ensures Given(cat, b, ms, feed, FingerprintOf(scratch.silver.rows[i].observation))
  {
    var row := scratch.silver.rows[i];
    var d := row.observation.derivation;
    assert MappedBy(cat, b, scratch, row.attempt, d, row.observation);
    var x := Traced(cat, b, scratch, row.attempt, d, row.observation);
    assert SoundAttempt(b, scratch, ms, row.attempt);
    var a := scratch.attempts[row.attempt];
    var m :| m in ms && scratch.runs[a.run].target == m.target && a.derivation == Some(m.derivation)
      && Usable(b, m, a.capture.value);
    assert GivenBy(cat, b, m, a.capture.value, x, feed, FingerprintOf(row.observation));
  }

  lemma GivenIsStored(cat: Catalog, b: Bronze, scratch: State, m: Manifest, c: CaptureId, x: Measurement, feed: Feed,
                      fp: Fingerprint)
    requires SilverOk(cat, b, scratch) && Determined(cat) && LogOk(b) && Complete(cat, b, scratch, m)
    requires GivenBy(cat, b, m, c, x, feed, fp)
    ensures fp in GroupPrints(scratch, feed)
  {
    var d, p := m.derivation, b.log[c].payload;
    assert Covered(cat, scratch.silver, d, b.log[c]) && b.log[c].id == c;
    var v := Version(fp.pair.identity, p, d);
    assert Silver.Stored(scratch.silver, v);
    var j :| 0 <= j < |scratch.silver.rows| && VersionOf(scratch.silver.rows[j].observation) == v;
    var found := scratch.silver.rows[j];
    assert MappedBy(cat, b, scratch, found.attempt, d, found.observation);
    var n := Traced(cat, b, scratch, found.attempt, d, found.observation);
    assert InGroup(scratch, feed, j);
  }

  /** The exact condition: nothing is missing and nothing diverges if and only if every version live
      expects is given by a usable capture of a drilled target. */
  lemma ReproducedIffGiven(cat: Catalog, live: State, b: Bronze, scratch: State, ms: seq<Manifest>, target: TargetId,
                           es: seq<CaptureEntry>)
    requires Inv(cat, System(b, scratch, {})) && Determined(cat) && Sound(b, scratch, ms)
    requires forall m :: m in ms ==> Complete(cat, b, scratch, m)
    requires Silver.Unique(live.silver.rows)
    ensures Reproduced(live, scratch, cat.feed(target), target, es) <==> AllGiven(cat, live, b, ms, target, es)
  {
    var feed := cat.feed(target);
    var os := LiveRows(live, feed, target, es);
    ComparedVersions(live, feed, target, Bound(es), |live.silver.rows|);
    ExpectedIsReproduced(live.derivations, os, GroupPrints(scratch, feed));
    forall fp ensures fp in GroupPrints(scratch, feed) <==> Given(cat, b, ms, feed, fp) {
      GroupIsGiven(cat, b, scratch, ms, feed, fp);
    }
  }

  /** Every version live expects is given by a usable capture of a drilled target. */
  ghost predicate AllGiven(cat: Catalog, live: State, b: Bronze, ms: seq<Manifest>, target: TargetId,
                           es: seq<CaptureEntry>)
  {
    var os := LiveRows(live, cat.feed(target), target, es);
    forall fp :: fp in Fingerprints(os, Leaders(live.derivations, os)) ==> Given(cat, b, ms, cat.feed(target), fp)
  }

  // ---------------------------------------------------------------- what live expects

  /** Of live's captures of the target, the replica holds at least those fetched up to its own newest
      one; and live's ledger knows each shared capture that the replica's decisions rule out.  A
      capture newer than the replica may be missing from it: that is lag, not loss. */
  ghost predicate Replicated(live: System, b: Bronze, m: Manifest, es: seq<CaptureEntry>) {
    forall c :: c in live.bronze.log && c.target == m.target ==>
      && (Bound(es).None? || live.bronze.log[c].fetchedAt <= Bound(es).value ==> c in b.log)
      && (c in b.log ==>
            && b.log[c] == live.bronze.log[c]
            && (IsInvalidated(b.decisions, c, m.derivation) ==>
                  IsInvalidated(live.ledger.invalidations, c, m.derivation)))
  }

  /** Live row `i`, compared and under the drill's derivation, is given by the capture it came from. */
  lemma RowReproduced(cat: Catalog, live: System, b: Bronze, ms: seq<Manifest>, m: Manifest, es: seq<CaptureEntry>,
                      i: nat)
    requires Inv(cat, live) && LogOk(b) && m in ms && Replicated(live, b, m, es)
    requires Compared(live.ledger, cat.feed(m.target), m.target, Bound(es), i)
    requires live.ledger.silver.rows[i].observation.derivation == m.derivation
    ensures Given(cat, b, ms, cat.feed(m.target), FingerprintOf(live.ledger.silver.rows[i].observation))
  {
    var s := live.ledger;
    var row := s.silver.rows[i];
    assert MappedBy(cat, live.bronze, s, row.attempt, m.derivation, row.observation);
    var x := Traced(cat, live.bronze, s, row.attempt, m.derivation, row.observation);
    var c := s.attempts[row.attempt].capture.value;
    assert live.bronze.log[c].fetchedAt == row.observation.fetchedAt;
    assert GivenBy(cat, b, m, c, x, cat.feed(m.target), FingerprintOf(row.observation));
  }

  /** Live runs the drill's derivation: of every compared pair the newest version is under `d`. */
  ghost predicate LedBy(live: State, feed: Feed, target: TargetId, es: seq<CaptureEntry>, d: DerivationId) {
    var os := LiveRows(live, feed, target, es);
    forall i :: 0 <= i < |os| && Leads(live.derivations, os, |os|, i) ==> os[i].derivation == d
  }

  /** The target is replicated up to the replica's newest capture, and live runs its derivation. */
  ghost predicate Promised(cat: Catalog, live: System, b: Bronze, m: Manifest, es: seq<CaptureEntry>) {
    Replicated(live, b, m, es) && LedBy(live.ledger, cat.feed(m.target), m.target, es, m.derivation)
  }

  /** Then everything live expects is given, whatever interleaving of capture, process, recapture,
      replay and invalidation produced live. */
  lemma LiveIsGiven(cat: Catalog, tr: Trace, n: nat, b: Bronze, ms: seq<Manifest>, m: Manifest, es: seq<CaptureEntry>)
    requires Valid(cat, tr) && n < |tr.states| && LogOk(b) && m in ms && Promised(cat, tr.states[n], b, m, es)
    ensures AllGiven(cat, tr.states[n].ledger, b, ms, m.target, es)
  {
    Reachable(cat, tr, n);
    var live, feed := tr.states[n], cat.feed(m.target);
    var s := live.ledger;
    var os := LiveRows(s, feed, m.target, es);
    forall fp | fp in Fingerprints(os, Leaders(s.derivations, os)) ensures Given(cat, b, ms, feed, fp) {
      var k :| k in Leaders(s.derivations, os) && FingerprintOf(os[k]) == fp;
      assert os[k] in os;
      var j :| 0 <= j < |s.silver.rows| && Compared(s, feed, m.target, Bound(es), j)
        && s.silver.rows[j].observation == os[k];
      RowReproduced(cat, live, b, ms, m, es, j);
    }
  }

  /** Restore completeness: a complete rebuild from such a replica reproduces every version live
      expects, value for value. */
  lemma LiveIsReproduced(cat: Catalog, tr: Trace, n: nat, b: Bronze, scratch: State, ms: seq<Manifest>, m: Manifest,
                         es: seq<CaptureEntry>)
    requires Valid(cat, tr) && n < |tr.states| && m in ms && Promised(cat, tr.states[n], b, m, es)
    requires Inv(cat, System(b, scratch, {})) && Determined(cat) && Sound(b, scratch, ms)
    requires forall m :: m in ms ==> Complete(cat, b, scratch, m)
    ensures Reproduced(tr.states[n].ledger, scratch, cat.feed(m.target), m.target, es)
  {
    LiveIsGiven(cat, tr, n, b, ms, m, es);
    LiveIsUnique(cat, tr, n);
    ReproducedIffGiven(cat, tr.states[n].ledger, b, scratch, ms, m.target, es);
  }

  lemma LiveIsUnique(cat: Catalog, tr: Trace, n: nat)
    requires Valid(cat, tr) && n < |tr.states|
    ensures Silver.Unique(tr.states[n].ledger.silver.rows)
  {
    Reachable(cat, tr, n);
  }
}
