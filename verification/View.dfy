/** The current view: which stored version of each observation identity is shown. */
module View {
  import opened Types
  import opened Ledger

  /** The transport that owns a metric of a dataset, where the registry names one. */
  datatype Registry = Registry(owners: map<(DatasetId, Metric), Transport>)

  datatype Query = Query(
    dataset: DatasetId,
    start: Option<Instant>,
    end: Option<Instant>,
    metric: Option<Metric>,
    transport: Option<Transport>)

  // ---------------------------------------------------------------- rank

  datatype Rank = Rank(owner: nat, newest: Instant, version: Semver, registered: Instant, derivation: DerivationId)

  function OwnerRank(reg: Registry, o: Observation): nat {
    var key := (o.identity.dataset, o.identity.metric);
    if key !in reg.owners || o.transport == reg.owners[key] then 1 else 0
  }

  predicate VersionBelow(a: Semver, b: Semver) {
    || a.major < b.major
    || (a.major == b.major && a.minor < b.minor)
    || (a.major == b.major && a.minor == b.minor && a.patch < b.patch)
  }

  /** Tuple order: owner, newest occurrence, contract version, registration, derivation id. */
  predicate Below(a: Rank, b: Rank) {
    || a.owner < b.owner
    || (a.owner == b.owner && a.newest < b.newest)
    || (a.owner == b.owner && a.newest == b.newest && VersionBelow(a.version, b.version))
    || (a.owner == b.owner && a.newest == b.newest && a.version == b.version && a.registered < b.registered)
    || (a.owner == b.owner && a.newest == b.newest && a.version == b.version && a.registered == b.registered
        && a.derivation < b.derivation)
  }

  // ---------------------------------------------------------------- valid occurrences

  /** What a view reads without failing: occurrences name attempts, derivations are registered. */
  ghost predicate Readable(s: State) {
    && |s.silver.rows| == |s.silver.occurrences|
    && (forall i, f :: 0 <= i < |s.silver.rows| && f in s.silver.occurrences[i] ==>
          s.silver.occurrences[i][f].attempt < |s.attempts|)
    && (forall i :: 0 <= i < |s.silver.rows| ==> s.silver.rows[i].observation.derivation in s.derivations)
  }

  /** The capture behind an occurrence of a row under `d` has not been invalidated. */
  predicate Stands(attempts: seq<RunAttempt>, decisions: set<Decision>, d: DerivationId, occ: Occurrence)
    requires occ.attempt < |attempts|
  {
    var c := attempts[occ.attempt].capture;
    c.None? || !IsInvalidated(decisions, c.value, d)
  }

  /** The occurrence of row `i` at `f` stands. */
  predicate StandsAt(s: State, i: nat, f: Instant)
    requires Readable(s) && i < |s.silver.rows| && f in s.silver.occurrences[i]
  {
    Stands(s.attempts, s.invalidations, s.silver.rows[i].observation.derivation, s.silver.occurrences[i][f])
  }

  /** Ordering instants of the row's occurrences that no invalidated capture produced. */
  function ValidInstants(s: State, i: nat): set<Instant>
    requires Readable(s) && i < |s.silver.rows|
  {
    set f | f in s.silver.occurrences[i] && StandsAt(s, i, f)
          :: s.silver.occurrences[i][f].instant
  }

  /** Some occurrence of the row still stands: otherwise the version is current nowhere. */
  predicate Alive(s: State, i: nat)
    requires Readable(s) && i < |s.silver.rows|
  {
    exists f :: f in s.silver.occurrences[i]
                && StandsAt(s, i, f)
  }

  lemma {:induction false} HasMax(s: set<int>) returns (m: int)
    requires exists x :: x in s
    ensures m in s && forall x :: x in s ==> x <= m
  {
    var first :| first in s;
    var rest := s - {first};
    m := first;
    if exists x :: x in rest {
      var n := HasMax(rest);
      m := if first < n then n else first;
    }
    forall x | x in s ensures x <= m {
      if x != first {
        assert x in rest;
      }
    }
  }

  function Max(s: set<int>): (m: int)
    requires exists x :: x in s
    ensures m in s && forall x :: x in s ==> x <= m
  {
    assert exists m :: m in s && forall x :: x in s ==> x <= m by { var m := HasMax(s); }
    var m :| m in s && forall x :: x in s ==> x <= m;
    m
  }

  /** The instant a version is ordered by: its newest occurrence that still stands. */
  function Newest(s: State, i: nat): (m: Instant)
    requires Readable(s) && i < |s.silver.rows| && Alive(s, i)
    ensures m in ValidInstants(s, i) && forall x :: x in ValidInstants(s, i) ==> x <= m
  {
    assert exists x :: x in ValidInstants(s, i) by {
      var f :| f in s.silver.occurrences[i]
               && StandsAt(s, i, f);
      assert s.silver.occurrences[i][f].instant in ValidInstants(s, i);
    }
    Max(ValidInstants(s, i))
  }

  function RankOf(reg: Registry, s: State, i: nat): Rank
    requires Readable(s) && i < |s.silver.rows| && Alive(s, i)
  {
    var o := s.silver.rows[i].observation;
    Rank(OwnerRank(reg, o), Newest(s, i), o.contractVersion, s.derivations[o.derivation], o.derivation)
  }

  // ---------------------------------------------------------------- selection

  /** Rows the query's loop considers: dataset, time window and transport, and still valid. */
  predicate Candidate(s: State, q: Query, i: nat)
    requires Readable(s)
  {
    && i < |s.silver.rows|
    && var o := s.silver.rows[i].observation;
       && o.identity.dataset == q.dataset
       && (q.start.Some? ==> q.start.value <= o.identity.start)
       && (q.end.Some? ==> o.identity.start < q.end.value)
       && (q.transport.Some? ==> o.transport == q.transport.value)
       && Alive(s, i)
  }

  predicate SameIdentity(s: State, i: nat, j: nat)
    requires i < |s.silver.rows| && j < |s.silver.rows|
  {
    s.silver.rows[i].observation.identity == s.silver.rows[j].observation.identity
  }

  /** Row `i` is preferred to row `j`: higher rank, and among equals the first stored. */
  predicate Preferred(reg: Registry, s: State, i: nat, j: nat)
    requires Readable(s) && i < |s.silver.rows| && j < |s.silver.rows|
    requires Alive(s, i) && Alive(s, j)
  {
    Below(RankOf(reg, s, j), RankOf(reg, s, i)) || (RankOf(reg, s, j) == RankOf(reg, s, i) && i <= j)
  }

  /** Row `i` is the best candidate of its identity among the first `n` rows. */
  ghost predicate BestOf(reg: Registry, s: State, q: Query, n: nat, i: nat)
    requires Readable(s) && n <= |s.silver.rows|
  {
    && i < n && Candidate(s, q, i)
    && forall j :: 0 <= j < n && Candidate(s, q, j) && SameIdentity(s, i, j) ==> Preferred(reg, s, i, j)
  }

  /** The specification: maximal rank per identity, first stored on a tie, metric filter last. */
  ghost predicate IsCurrent(reg: Registry, s: State, q: Query, i: nat)
    requires Readable(s)
  {
    && BestOf(reg, s, q, |s.silver.rows|, i)
    && (q.metric.Some? ==> s.silver.rows[i].observation.identity.metric == q.metric.value)
  }

  lemma PreferredIsOrder(reg: Registry, s: State, i: nat, j: nat, k: nat)
    requires Readable(s) && i < |s.silver.rows| && j < |s.silver.rows| && k < |s.silver.rows|
    requires Alive(s, i) && Alive(s, j) && Alive(s, k)
    ensures Preferred(reg, s, i, j) || Preferred(reg, s, j, i)
    ensures Preferred(reg, s, i, j) && Preferred(reg, s, j, i) ==> i == j
    ensures Preferred(reg, s, i, j) && Preferred(reg, s, j, k) ==> Preferred(reg, s, i, k)
  {
  }

  /** One more candidate: the better of it and the best so far is best. */
  lemma BestStep(reg: Registry, s: State, q: Query, n: nat, b: nat) returns (i: nat)
    requires Readable(s) && n < |s.silver.rows| && BestOf(reg, s, q, n, b)
    ensures BestOf(reg, s, q, n + 1, i) && SameIdentity(s, i, b)
  {
    i := b;
    if Candidate(s, q, n) && SameIdentity(s, n, b) && !Preferred(reg, s, b, n) {
      i := n;
      forall j | 0 <= j < n + 1 && Candidate(s, q, j) && SameIdentity(s, i, j) ensures Preferred(reg, s, i, j) {
        PreferredIsOrder(reg, s, i, b, j);
      }
    }
  }

  /** Every identity with a candidate has a best one. */
  lemma {:induction false} BestExists(reg: Registry, s: State, q: Query, n: nat, c: nat) returns (i: nat)
    requires Readable(s) && c < n <= |s.silver.rows| && Candidate(s, q, c)
    ensures BestOf(reg, s, q, n, i) && SameIdentity(s, i, c)
    decreases n
  {
    if d :| 0 <= d < n - 1 && Candidate(s, q, d) && SameIdentity(s, d, c) {
      var b := BestExists(reg, s, q, n - 1, d);
      i := BestStep(reg, s, q, n - 1, b);
    } else {
      i := c;
      assert Preferred(reg, s, c, c);
    }
  }

  /** Exactly one current row per identity that has a candidate of the asked metric. */
  lemma ExactlyOneCurrent(reg: Registry, s: State, q: Query, c: nat)
    requires Readable(s) && Candidate(s, q, c)
    requires q.metric.Some? ==> s.silver.rows[c].observation.identity.metric == q.metric.value
    ensures exists i: nat :: i < |s.silver.rows| && SameIdentity(s, i, c) && IsCurrent(reg, s, q, i)
    ensures forall i, j :: IsCurrent(reg, s, q, i) && IsCurrent(reg, s, q, j) && SameIdentity(s, i, j) ==> i == j
  {
    var i := BestExists(reg, s, q, |s.silver.rows|, c);
    assert IsCurrent(reg, s, q, i);
    forall i: nat, j: nat | IsCurrent(reg, s, q, i) && IsCurrent(reg, s, q, j) && SameIdentity(s, i, j) ensures i == j {
      PreferredIsOrder(reg, s, i, j, i);
    }
  }

  /** Time and metric filters commute with selection: filtering the rows first shows exactly what
      filtering the unrestricted view afterwards shows. */
  lemma FiltersCommute(reg: Registry, s: State, q: Query, i: nat)
    requires Readable(s) && i < |s.silver.rows|
    ensures var o := s.silver.rows[i].observation;
      IsCurrent(reg, s, q, i) <==>
        && IsCurrent(reg, s, Query(q.dataset, None, None, None, q.transport), i)
        && (q.start.Some? ==> q.start.value <= o.identity.start)
        && (q.end.Some? ==> o.identity.start < q.end.value)
        && (q.metric.Some? ==> o.identity.metric == q.metric.value)
  {
  }

  /** The canonical row is also the current row of its own transport's view, and no transport's
      current row outranks it. */
  lemma CanonicalIsTransportCurrent(reg: Registry, s: State, q: Query, i: nat)
    requires Readable(s) && q.transport.None? && IsCurrent(reg, s, q, i)
    ensures IsCurrent(reg, s, q.(transport := Some(s.silver.rows[i].observation.transport)), i)
    ensures forall tr: Transport, j: nat :: IsCurrent(reg, s, q.(transport := Some(tr)), j) && SameIdentity(s, i, j) ==>
              Preferred(reg, s, i, j)
  {
  }

  /** The transport may speak for the metric: it owns it, or nobody does. */
  predicate Speaks(reg: Registry, o: Observation) {
    var key := (o.identity.dataset, o.identity.metric);
    key in reg.owners ==> reg.owners[key] == o.transport
  }

  /** What makes a row current, criterion by criterion: a transport that speaks for the metric
      comes first, then the newest standing occurrence, then the contract version, then the
      registration of the derivation, then its id, and at last the row stored first. */
  lemma CurrentByRank(reg: Registry, s: State, q: Query, i: nat, j: nat)
    requires Readable(s) && IsCurrent(reg, s, q, i) && Candidate(s, q, j) && SameIdentity(s, i, j)
    ensures var a, b := s.silver.rows[i].observation, s.silver.rows[j].observation;
      && (Speaks(reg, b) ==> Speaks(reg, a))
      && (Speaks(reg, a) == Speaks(reg, b) ==>
            && Newest(s, j) <= Newest(s, i)
            && (Newest(s, j) == Newest(s, i) ==>
                  && !VersionBelow(a.contractVersion, b.contractVersion)
                  && (a.contractVersion == b.contractVersion ==>
                        && s.derivations[b.derivation] <= s.derivations[a.derivation]
                        && (s.derivations[b.derivation] == s.derivations[a.derivation] ==>
                              b.derivation <= a.derivation && (b.derivation == a.derivation ==> i <= j)))))
  {
    assert Preferred(reg, s, i, j);
  }

  // ---------------------------------------------------------------- the view, in the stored rows' own terms

  /** The occurrence of row `i` at `f` was not produced by a capture that some decision rules out. */
  ghost predicate Counts(s: State, i: nat, f: Instant)
    requires i < |s.silver.rows| == |s.silver.occurrences|
  {
    && f in s.silver.occurrences[i]
    && s.silver.occurrences[i][f].attempt < |s.attempts|
    && var c := s.attempts[s.silver.occurrences[i][f].attempt].capture;
       c.Some? ==>
         && Decision(c.value, None) !in s.invalidations
         && Decision(c.value, Some(s.silver.rows[i].observation.derivation)) !in s.invalidations
  }

  /** Row `i` is of the dataset, the window, the metric and the transport asked for, and some occurrence of
      it counts. */
  ghost predicate Asked(s: State, q: Query, i: nat)
    requires |s.silver.rows| == |s.silver.occurrences|
  {
    && i < |s.silver.rows|
    && var o := s.silver.rows[i].observation;
       && o.identity.dataset == q.dataset
       && (q.start.Some? ==> q.start.value <= o.identity.start)
       && (q.end.Some? ==> o.identity.start < q.end.value)
       && (q.metric.Some? ==> o.identity.metric == q.metric.value)
       && (q.transport.Some? ==> o.transport == q.transport.value)
       && exists f :: Counts(s, i, f)
  }

  /** The newest ordering instant among the occurrences of row `i` that count. */
  ghost predicate OrderedBy(s: State, i: nat, m: Instant)
    requires i < |s.silver.rows| == |s.silver.occurrences|
  {
    && (exists f :: Counts(s, i, f) && s.silver.occurrences[i][f].instant == m)
    && forall f :: Counts(s, i, f) ==> s.silver.occurrences[i][f].instant <= m
  }

  /** Row `i`, ordered by `m`, goes before row `j`, ordered by `n`: the owner of the metric comes first, then
      the newer occurrence, the higher contract version, the later registration of the derivation, its
      greater id, and at last the row stored first. */
  ghost predicate GoesBefore(reg: Registry, s: State, i: nat, m: Instant, j: nat, n: Instant)
    requires i < |s.silver.rows| && j < |s.silver.rows|
    requires s.silver.rows[i].observation.derivation in s.derivations
    requires s.silver.rows[j].observation.derivation in s.derivations
  {
    var a, b := s.silver.rows[i].observation, s.silver.rows[j].observation;
    var v, w := a.contractVersion, b.contractVersion;
    if Speaks(reg, a) != Speaks(reg, b) then Speaks(reg, a)
    else if m != n then n < m
    else if v.major != w.major then w.major < v.major
    else if v.minor != w.minor then w.minor < v.minor
    else if v.patch != w.patch then w.patch < v.patch
    else if s.derivations[a.derivation] != s.derivations[b.derivation] then
      s.derivations[b.derivation] < s.derivations[a.derivation]
    else if a.derivation != b.derivation then b.derivation < a.derivation
    else i <= j
  }

  lemma CountsIsStanding(s: State, i: nat)
    requires Readable(s) && i < |s.silver.rows|
    ensures forall f :: Counts(s, i, f) <==> f in s.silver.occurrences[i] && StandsAt(s, i, f)
    ensures Alive(s, i) <==> exists f :: Counts(s, i, f)
  {
    if f :| Counts(s, i, f) {
      assert StandsAt(s, i, f);
    }
    if f :| f in s.silver.occurrences[i] && StandsAt(s, i, f) {
      assert Counts(s, i, f);
    }
  }

  lemma OrderedByNewest(s: State, i: nat)
    requires Readable(s) && i < |s.silver.rows| && Alive(s, i)
    ensures OrderedBy(s, i, Newest(s, i))
  {
    CountsIsStanding(s, i);
    var m := Newest(s, i);
    var f :| f in s.silver.occurrences[i] && StandsAt(s, i, f) && s.silver.occurrences[i][f].instant == m;
    assert Counts(s, i, f);
    forall g | Counts(s, i, g) ensures s.silver.occurrences[i][g].instant <= m {
      assert s.silver.occurrences[i][g].instant in ValidInstants(s, i);
    }
  }

  lemma GoesBeforeIsPreferred(reg: Registry, s: State, i: nat, j: nat)
    requires Readable(s) && i < |s.silver.rows| && j < |s.silver.rows| && Alive(s, i) && Alive(s, j)
    ensures Preferred(reg, s, i, j) <==> GoesBefore(reg, s, i, Newest(s, i), j, Newest(s, j))
  {
  }

  /** No row of its identity that was asked for goes before row `i`. */
  ghost predicate ComesFirst(reg: Registry, s: State, q: Query, i: nat)
    requires Readable(s) && i < |s.silver.rows|
  {
    forall j: nat, m, n :: Asked(s, q, j) && SameIdentity(s, i, j) && OrderedBy(s, i, m) && OrderedBy(s, j, n) ==>
      GoesBefore(reg, s, i, m, j, n)
  }

  lemma AskedIsCandidate(s: State, q: Query, i: nat)
    requires Readable(s)
    ensures Asked(s, q, i) <==>
      Candidate(s, q, i) && (q.metric.Some? ==> s.silver.rows[i].observation.identity.metric == q.metric.value)
  {
    if i < |s.silver.rows| {
      CountsIsStanding(s, i);
    }
  }

  /** What the view shows: a row that was asked for and comes first among those of its identity. */
  lemma CurrentMeans(reg: Registry, s: State, q: Query, i: nat)
    requires Readable(s)
    ensures IsCurrent(reg, s, q, i) <==> Asked(s, q, i) && ComesFirst(reg, s, q, i)
  {
    forall j: nat ensures Asked(s, q, j) <==>
      Candidate(s, q, j) && (q.metric.Some? ==> s.silver.rows[j].observation.identity.metric == q.metric.value)
    {
      AskedIsCandidate(s, q, j);
    }
    if Asked(s, q, i) {
      forall j: nat | Asked(s, q, j) && SameIdentity(s, i, j)
        ensures Preferred(reg, s, i, j) <==>
          forall m, n :: OrderedBy(s, i, m) && OrderedBy(s, j, n) ==> GoesBefore(reg, s, i, m, j, n)
      {
        OrderedByNewest(s, i);
        OrderedByNewest(s, j);
        GoesBeforeIsPreferred(reg, s, i, j);
      }
    }
  }
}
