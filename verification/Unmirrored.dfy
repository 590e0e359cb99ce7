/** A decision that live has not mirrored yet reads as missing versions: the input that shows why the
    drill needs live to know what the replica's decisions rule out. */
module Unmirrored {
  import opened Types
  import opened Ledger
  import opened CaptureLog
  import opened System
  import opened Traces
  import opened Drill
  import opened Values
  import opened Restore
  import Silver

  /** A rebuild of targets without a usable capture holds nothing in the group. */
  lemma NothingUsableNothingRebuilt(cat: Catalog, b: Bronze, scratch: State, ms: seq<Manifest>, feed: Feed)
    requires Inv(cat, System(b, scratch, {})) && Sound(b, scratch, ms)
    requires forall m, c :: m in ms && c in b.log ==> !Usable(b, m, c)
    ensures GroupPrints(scratch, feed) == {} && GroupPairs(scratch, feed) == {}
  {
    forall i: nat | i < |scratch.silver.rows| ensures !InGroup(scratch, feed, i) {
      if InGroup(scratch, feed, i) {
        RowIsGiven(cat, b, scratch, ms, feed, i);
      }
    }
  }

  /** So every version expected of them is counted as missing, and none as diverging. */
  lemma AllMissing(cat: Catalog, b: Bronze, scratch: State, ms: seq<Manifest>, feed: Feed, expected: set<Fingerprint>)
    requires Inv(cat, System(b, scratch, {})) && Sound(b, scratch, ms)
    requires forall m, c :: m in ms && c in b.log ==> !Usable(b, m, c)
    ensures OfPair(expected - GroupPrints(scratch, feed), GroupPairs(scratch, feed), false) == expected
    ensures OfPair(expected - GroupPrints(scratch, feed), GroupPairs(scratch, feed), true) == {}
  {
    NothingUsableNothingRebuilt(cat, b, scratch, ms, feed);
  }

  /** A catalog of one feed whose every document holds the one measurement `x`. */
  function OneValue(feed: Feed, x: Measurement): Catalog {
    Catalog(_ => feed, (_, _, _, _) => Mapped([x]))
  }

  /** The ledger once entry `e` was captured and processed into `o`. */
  ghost predicate ProcessedOnce(s: State, e: CaptureEntry, d: DerivationId, o: Observation) {
    && |s.runs| == 1 && s.runs[0].target == e.id.target
    && |s.attempts| == 1 && s.attempts[0].run == 0 && s.attempts[0].capture == Some(e.id)
    && s.silver.rows == [StoredObservation(0, o)] && d in s.derivations && s.invalidations == {}
  }

  /** That row is all live expects of the target. */
  lemma OneExpected(s: State, e: CaptureEntry, d: DerivationId, o: Observation, feed: Feed)
    requires ProcessedOnce(s, e, d, o) && o.identity.dataset == feed.dataset && o.transport == feed.transport
    requires o.fetchedAt == e.fetchedAt
    ensures var os := LiveRows(s, feed, e.id.target, [e]);
      os == [o] && Fingerprints(os, Leaders(s.derivations, os)) == {FingerprintOf(o)}
  {
    var bound := Bound([e]);
    assert e in [e] && bound == Some(e.fetchedAt);
    assert Compared(s, feed, e.id.target, bound, 0);
    assert ComparedRows(s, feed, e.id.target, bound, 0) == [];
    var os := LiveRows(s, feed, e.id.target, [e]);
    assert os == [o];
    assert Leads(s.derivations, os, 1, 0);
    assert Leaders(s.derivations, os) == {0};
  }

  /** Capture, acknowledge and claim. */
  lemma ClaimIt(cat: Catalog, e: CaptureEntry, w: WorkerId) returns (tr: Trace, c: Claim)
    ensures Valid(cat, tr) && |tr.actions| == 3 && tr.states[3].claims == {c}
    ensures tr.states[3].bronze == Bronze(map[e.id := e], {e.payload}, {})
    ensures c.runId == 0 && c.attemptId == 0 && c.attempt.capture == Some(e.id)
    ensures c.run.target == e.id.target && c.run.scheduledFor == e.id.scheduledFor
    ensures var s := tr.states[3].ledger;
      && |s.runs| == 1 && s.runs[0] == c.run && c.fence == s.runs[0].fence && s.attempts == [c.attempt]
      && c.attempt.run == 0
      && s.silver == Silver.Store([], []) && s.derivations == map[] && s.invalidations == {}
  {
    tr := Trace([System(Bronze(map[], {}, {}), EMPTY, {})], []);
    tr := Then(cat, tr, LogCapture(e));
    tr := Then(cat, tr, Ack(e, ByScheduler, 1));
    var run := Run(e.id.target, e.id.scheduledFor, Captured, 0, ByScheduler, None, None, Some(e.id), 1, 1);
    assert tr.states[2].ledger == EMPTY.(runs := [run]);
    c := TakeClaim(tr.states[2].ledger, 0, w, 10, 2).1;
    tr := Then(cat, tr, Take(0, w, 10, 2));
  }

  /** Live processed a capture that was ruled out in Bronze afterwards, and has not mirrored that.  Every
      capture is replicated and live runs the derivation; still the version live expects is not
      given by the replica, and `AllMissing` says that every sound rebuild counts it as missing. */
  lemma DecisionReadsAsMissing(feed: Feed, e: CaptureEntry, x: Measurement, d: DerivationId, w: WorkerId)
    returns (tr: Trace, o: Observation)
    ensures var cat, m := OneValue(feed, x), Manifest(e.id.target, d);
      && Valid(cat, tr) && |tr.states| == 6
      && var live := tr.states[5]; var b, s := live.bronze, live.ledger; var os := LiveRows(s, feed, m.target, [e]);
         && b.log == map[e.id := e] && Listing(b.log, m.target, None, None, [e]) && LogOk(b)
         && LedBy(s, feed, m.target, [e], d)
         && Fingerprints(os, Leaders(s.derivations, os)) == {FingerprintOf(o)}
         && !AllGiven(cat, s, b, [m], m.target, [e])
         && (forall c :: c in b.log ==> !Usable(b, m, c))
  {
    var cat, m := OneValue(feed, x), Manifest(e.id.target, d);
    var c: Claim;
    tr, c := ClaimIt(cat, e, w);
    o := Envelope(feed, d, e, 3, x);
    tr := FinishIt(cat, tr, e, c, d, x, o);
    tr := Then(cat, tr, Decide(Decision(e.id, None)));
    var s := tr.states[5].ledger;
    OneExpected(s, e, d, o, feed);
    var os := LiveRows(s, feed, m.target, [e]);
    assert FingerprintOf(o) in Fingerprints(os, Leaders(s.derivations, os));
    assert !Given(cat, tr.states[5].bronze, [m], feed, FingerprintOf(o));
  }

  lemma FinishIt(cat: Catalog, before: Trace, e: CaptureEntry, c: Claim, d: DerivationId, x: Measurement,
                 o: Observation)
    returns (tr: Trace)
    requires Valid(cat, before) && |before.actions| == 3 && before.states[3].claims == {c}
    requires before.states[3].bronze == Bronze(map[e.id := e], {e.payload}, {})
    requires c.runId == 0 && c.attemptId == 0 && c.attempt.capture == Some(e.id)
    requires c.run.target == e.id.target && c.run.scheduledFor == e.id.scheduledFor
    requires var s := before.states[3].ledger;
      && |s.runs| == 1 && s.runs[0] == c.run && c.fence == s.runs[0].fence && s.attempts == [c.attempt]
      && c.attempt.run == 0
      && s.silver == Silver.Store([], []) && s.derivations == map[] && s.invalidations == {}
    requires cat.mapping(e.id.target, d, e.payload, e.id.scheduledFor) == Mapped([x])
    requires o == Envelope(cat.feed(e.id.target), d, e, 3, x)
    ensures Valid(cat, tr) && |tr.actions| == 4 && tr.states[4].bronze == before.states[3].bronze
    ensures ProcessedOnce(tr.states[4].ledger, e, d, o)
  {
    var w := WorkFor(cat, before.states[3].bronze, c, d, false, 3);
    assert w.observations == [o];
    assert Silver.StoreAll(Silver.Store([], []), 0, [o][..0]) == Silver.Store([], []);
    assert Silver.StoreAll(Silver.Store([], []), 0, [o]).rows == [StoredObservation(0, o)];
    tr := Then(cat, before, Finish(c, d, false, 3, 4));
  }
}
