/** What the current view of a running system can show. */
module Served {
  import opened Types
  import opened Ledger
  import opened System
  import opened Traces
  import opened View

  /** In a reachable state every view can be read. */
  lemma ReachableIsReadable(cat: Catalog, sys: System)
    requires Inv(cat, sys)
    ensures Readable(sys.ledger)
  {
  }

  /** A logged capture that is not invalidated for `d`, of the run that attempt `k` processed, maps
      to observation `o` under `d`. */
  ghost predicate Supports(cat: Catalog, sys: System, k: nat, d: DerivationId, o: Observation) {
    && MappedBy(cat, sys.bronze, sys.ledger, k, d, o)
    && !IsInvalidated(sys.ledger.invalidations, sys.ledger.attempts[k].capture.value, d)
  }

  /** No view a reader ever gets shows a row supported only by invalidated captures: some finished
      attempt processed a logged, standing capture that maps to that version and supplies the
      instant the row is ordered by. */
  lemma CurrentIsSupported(cat: Catalog, tr: Trace, n: nat, reg: Registry, q: Query, i: nat)
    requires Valid(cat, tr) && n < |tr.states|
    requires Readable(tr.states[n].ledger) && IsCurrent(reg, tr.states[n].ledger, q, i)
    ensures exists k: nat, o: Observation ::
      && Supports(cat, tr.states[n], k, o.derivation, o)
      && VersionOf(o) == VersionOf(tr.states[n].ledger.silver.rows[i].observation)
      && OrderingInstant(o) == Newest(tr.states[n].ledger, i)
  {
    Reachable(cat, tr, n);
    var sys := tr.states[n];
    var s := sys.ledger;
    var row := s.silver.rows[i].observation;
    var f :| f in s.silver.occurrences[i] && s.silver.occurrences[i][f].instant == Newest(s, i)
             && StandsAt(s, i, f);
    assert OccurrenceOk(cat, sys.bronze, s, i, f);
    var o :| VersionOf(o) == VersionOf(row) && o.fetchedAt == f
      && OrderingInstant(o) == s.silver.occurrences[i][f].instant
      && MappedBy(cat, sys.bronze, s, s.silver.occurrences[i][f].attempt, o.derivation, o);
    assert Supports(cat, sys, s.silver.occurrences[i][f].attempt, o.derivation, o);
  }
}
