/** What a version determines: values, transports, and documents without contradictions. */
module Values {
  import opened Types
  import opened Ledger
  import opened System
  import opened Traces
  import opened ViewLaws
  import Mapping
  import Served
  import View

  /** Measurement `m` is one that payload `p`, read for `target` at `t`, maps to under `d`. */
  ghost predicate Gives(cat: Catalog, target: TargetId, d: DerivationId, p: Sha, t: Instant, m: Measurement) {
    cat.mapping(target, d, p, t).Mapped? && m in cat.mapping(target, d, p, t).measurements
  }

  /** A stored value is determined by its version: one derivation reads one payload in one way,
      whichever target and instant it is read for, and belongs to one transport. */
  ghost predicate Determined(cat: Catalog) {
    forall a, b, d, p, t, u, m, n ::
      Gives(cat, a, d, p, t, m) && Gives(cat, b, d, p, u, n)
      && IdentityOf(cat.feed(a).dataset, m) == IdentityOf(cat.feed(b).dataset, n) ==>
      m.value == n.value && cat.feed(a).transport == cat.feed(b).transport
  }

  /** A stored observation, traced back to the measurement it was made of. */
  lemma Traced(cat: Catalog, b: Bronze, s: State, k: nat, d: DerivationId, o: Observation) returns (m: Measurement)
    requires MappedBy(cat, b, s, k, d, o)
    ensures var run, e := s.runs[s.attempts[k].run], b.log[s.attempts[k].capture.value];
      && Gives(cat, run.target, d, e.payload, run.scheduledFor, m)
      && o.identity == IdentityOf(cat.feed(run.target).dataset, m) && o.transport == cat.feed(run.target).transport
      && o.value == m.value && o.payload == e.payload && o.derivation == d && o.fetchedAt == e.fetchedAt
  {
    var run, e := s.runs[s.attempts[k].run], b.log[s.attempts[k].capture.value];
    m := Measured(cat, run.target, run.scheduledFor, d, e, o.processedAt, o);
  }

  /** An observation of a capture, traced back to its measurement. */
  lemma Measured(cat: Catalog, target: TargetId, t: Instant, d: DerivationId, e: CaptureEntry, at: Instant,
                 o: Observation)
    returns (m: Measurement)
    requires Observe(cat, target, t, d, e, at).Some? && o in Observe(cat, target, t, d, e, at).value
    ensures Gives(cat, target, d, e.payload, t, m) && o == Envelope(cat.feed(target), d, e, at, m)
  {
    var os := Observe(cat, target, t, d, e, at).value;
    var ms := cat.mapping(target, d, e.payload, t).measurements;
    var i :| 0 <= i < |os| && os[i] == o;
    assert os[i] == Envelope(cat.feed(target), d, e, at, ms[i]);
    m := ms[i];
  }

  // ---------------------------------------------------------------- documents

  /** Every document gives at most one measurement per identity. */
  ghost predicate Documents(cat: Catalog) {
    forall target, d, p, t :: cat.mapping(target, d, p, t).Mapped? ==>
      Mapping.DistinctIdentities(Identified(cat.feed(target).dataset, cat.mapping(target, d, p, t).measurements))
  }

  function Identified(dataset: DatasetId, ms: seq<Measurement>): (r: seq<Identity>)
    ensures |r| == |ms| && forall i :: 0 <= i < |ms| ==> r[i] == IdentityOf(dataset, ms[i])
  {
    seq(|ms|, i requires 0 <= i < |ms| => IdentityOf(dataset, ms[i]))
  }

  /** The catalog maps documents with `map_records`: what it gives has the identities of what the
      loop returns for some records. */
  ghost predicate MapsRecords(cat: Catalog) {
    forall target, d, p, t :: cat.mapping(target, d, p, t).Mapped? ==>
      Returned(Identified(cat.feed(target).dataset, cat.mapping(target, d, p, t).measurements))
  }

  ghost predicate Returned(ids: seq<Identity>) {
    exists one: Mapping.MapOne, rs: seq<Mapping.Record>, os: seq<Observation> ::
      Mapping.Outcome(one, rs, Some(os)) && Mapping.IdentitySeq(os) == ids
  }

  /** So its documents are without contradictions. */
  lemma RecordsMakeDocuments(cat: Catalog)
    requires MapsRecords(cat)
    ensures Documents(cat)
  {
    forall target, d, p, t | cat.mapping(target, d, p, t).Mapped?
      ensures var ms := cat.mapping(target, d, p, t).measurements;
        Mapping.DistinctIdentities(Identified(cat.feed(target).dataset, ms))
    {
      var ids := Identified(cat.feed(target).dataset, cat.mapping(target, d, p, t).measurements);
      assert Returned(ids);
    }
  }

  lemma WorkIsDocument(cat: Catalog, b: Bronze, c: Claim, d: DerivationId, refused: bool, at: Instant)
    requires Documents(cat)
    ensures OneDocument(WorkFor(cat, b, c, d, refused, at))
  {
    var w := WorkFor(cat, b, c, d, refused, at);
    if w.state == Processed {
      var e := b.log[CaptureOf(c).value];
      var ms := cat.mapping(c.run.target, d, e.payload, c.run.scheduledFor).measurements;
      var ids := Identified(cat.feed(c.run.target).dataset, ms);
      assert Mapping.DistinctIdentities(ids);
      forall i, j | 0 <= i < j < |w.observations| ensures w.observations[i].identity != w.observations[j].identity {
        assert w.observations[i] == Envelope(cat.feed(c.run.target), d, e, at, ms[i]);
        assert w.observations[j] == Envelope(cat.feed(c.run.target), d, e, at, ms[j]);
      }
    }
  }

  /** A stored row of the version of `o` came from `o`'s transport. */
  lemma TransportsAgree(cat: Catalog, sys: System, e: CaptureEntry, target: TargetId, t: Instant, d: DerivationId,
                        at: Instant, o: Observation)
    requires Inv(cat, sys) && Determined(cat)
    requires Observe(cat, target, t, d, e, at).Some? && o in Observe(cat, target, t, d, e, at).value
    ensures TransportAgrees(sys.ledger, o)
  {
    var s := sys.ledger;
    var m := Measured(cat, target, t, d, e, at, o);
    forall j | 0 <= j < |s.silver.rows| && VersionOf(s.silver.rows[j].observation) == VersionOf(o)
      ensures s.silver.rows[j].observation.transport == o.transport
    {
      var row := s.silver.rows[j];
      assert MappedBy(cat, sys.bronze, s, row.attempt, row.observation.derivation, row.observation);
      var n := Traced(cat, sys.bronze, s, row.attempt, row.observation.derivation, row.observation);
    }
  }

  /** In every run of the system, over a catalog that maps with `map_records` and determines its
      values, each commit a worker makes is one to which the laws of the view apply. */
  lemma CommitsObeyViewLaws(cat: Catalog, tr: Trace, n: nat, c: Claim, d: DerivationId, refused: bool, at: Instant)
    requires Valid(cat, tr) && n < |tr.states| && c in tr.states[n].claims
    requires Documents(cat) && Determined(cat)
    ensures var s, w := tr.states[n].ledger, WorkFor(cat, tr.states[n].bronze, c, d, refused, at);
      && View.Readable(s) && CanAccept(s, c, w)
      && forall k :: 0 <= k < |w.observations| ==> TransportAgrees(s, w.observations[k])
  {
    var sys := tr.states[n];
    var s, w := sys.ledger, WorkFor(cat, sys.bronze, c, d, refused, at);
    Reachable(cat, tr, n);
    Served.ReachableIsReadable(cat, sys);
    assert ClaimOk(s, c);
    WorkIsDocument(cat, sys.bronze, c, d, refused, at);
    forall k | 0 <= k < |w.observations| ensures TransportAgrees(s, w.observations[k]) {
      TransportsAgree(cat, sys, sys.bronze.log[CaptureOf(c).value], c.run.target, c.run.scheduledFor, d, at,
                      w.observations[k]);
    }
  }
}
