/** What commits and invalidations do to the current view. */
module ViewLaws {
  import opened Types
  import opened Ledger
  import opened View
  import Silver

  // ---------------------------------------------------------------- one commit, one identity

  /** As `map_records` returns them: one observation per identity, all under one derivation. */
  ghost predicate OneDocument(w: Work) {
    && w.derivation.Some?
    && (forall i :: 0 <= i < |w.observations| ==> w.observations[i].derivation == w.derivation.value)
    && (forall i, j :: 0 <= i < j < |w.observations| ==> w.observations[i].identity != w.observations[j].identity)
  }

  ghost predicate CanAccept(s: State, c: Claim, w: Work) {
    c.runId < |s.runs| && c.attemptId < |s.attempts| && Silver.Valid(s.silver) && Readable(s) && OneDocument(w)
  }

  lemma AcceptIsReadable(s: State, c: Claim, w: Work, now: Instant)
    requires CanAccept(s, c, w)
    ensures Readable(Accept(s, c, w, now))
  {
    var t := Accept(s, c, w, now);
    Silver.StoreAllKeeps(s.silver, c.attemptId, w.observations);
    Silver.StoreAllOrigin(s.silver, c.attemptId, w.observations);
    forall i, f | 0 <= i < |t.silver.rows| && f in t.silver.occurrences[i]
      ensures t.silver.occurrences[i][f].attempt < |t.attempts|
    {
      assert Silver.Sourced(s.silver, t.silver, c.attemptId, w.observations, i, f);
    }
  }

  /** Row `i` of `t` holds `o`'s version, and among the rows of `o`'s identity only its occurrence
      at `o`'s fetch instant can be new. */
  ghost predicate Touches(s: Silver.Store, t: Silver.Store, attempt: nat, o: Observation, i: nat)
    requires |s.rows| == |s.occurrences| && |t.rows| == |t.occurrences|
  {
    && i < |t.rows| && VersionOf(t.rows[i].observation) == VersionOf(o) && o.fetchedAt in t.occurrences[i]
    && s.rows <= t.rows
    && (i >= |s.rows| ==> t.rows[i].observation == o)
    && (forall j :: 0 <= j < |t.rows| && t.rows[j].observation.identity == o.identity && j != i ==>
          j < |s.rows| && t.occurrences[j] == s.occurrences[j])
    && (forall f :: f in t.occurrences[i] ==>
          || (i < |s.rows| && f in s.occurrences[i] && t.occurrences[i][f] == s.occurrences[i][f])
          || (!(i < |s.rows| && f in s.occurrences[i]) && f == o.fetchedAt
              && t.occurrences[i][f] == Occurrence(OrderingInstant(o), attempt)))
    && (i < |s.rows| ==> forall f :: f in s.occurrences[i] ==> f in t.occurrences[i])
  }

  lemma CommitTouches(s: Silver.Store, attempt: nat, os: seq<Observation>, k: nat) returns (i: nat)
    requires Silver.Valid(s) && k < |os|
    requires forall i, j :: 0 <= i < j < |os| ==> os[i].identity != os[j].identity
    ensures Touches(s, Silver.StoreAll(s, attempt, os), attempt, os[k], i)
  {
    var t, o := Silver.StoreAll(s, attempt, os), os[k];
    Silver.StoreAllKeeps(s, attempt, os);
    Silver.StoreAllOrigin(s, attempt, os);
    assert Silver.Recorded(t, VersionOf(o), o.fetchedAt);
    i :| 0 <= i < |t.rows| && VersionOf(t.rows[i].observation) == VersionOf(o) && o.fetchedAt in t.occurrences[i];
    forall j, f | 0 <= j < |t.rows| && f in t.occurrences[j] && t.rows[j].observation.identity == o.identity
      ensures (j < |s.rows| && f in s.occurrences[j]) || Silver.PutBy(t, attempt, o, j, f)
    {
      OnlyMine(s, t, attempt, os, k, j, f);
    }
    forall j | 0 <= j < |t.rows| && t.rows[j].observation.identity == o.identity && j != i
      ensures j < |s.rows| && t.occurrences[j] == s.occurrences[j]
    {
      OtherVersionUntouched(s, t, attempt, o, i, j);
    }
  }

  lemma OnlyMine(s: Silver.Store, t: Silver.Store, attempt: nat, os: seq<Observation>, k: nat, j: nat, f: Instant)
    requires |s.rows| == |s.occurrences| && |t.rows| == |t.occurrences| && k < |os| && j < |t.rows|
    requires forall i, j :: 0 <= i < j < |os| ==> os[i].identity != os[j].identity
    requires f in t.occurrences[j] && t.rows[j].observation.identity == os[k].identity
    requires Silver.Sourced(s, t, attempt, os, j, f)
    ensures (j < |s.rows| && f in s.occurrences[j]) || Silver.PutBy(t, attempt, os[k], j, f)
  {
  }

  lemma OtherVersionUntouched(s: Silver.Store, t: Silver.Store, attempt: nat, o: Observation, i: nat, j: nat)
    requires |s.rows| == |s.occurrences| && Silver.Valid(t) && Silver.Extends(s, t)
    requires i < |t.rows| && j < |t.rows| && i != j && VersionOf(t.rows[i].observation) == VersionOf(o)
    requires forall f :: f in t.occurrences[j] ==>
      (j < |s.rows| && f in s.occurrences[j]) || Silver.PutBy(t, attempt, o, j, f)
    ensures j < |s.rows| && t.occurrences[j] == s.occurrences[j]
  {
    assert VersionOf(t.rows[j].observation) != VersionOf(t.rows[i].observation);
    forall f | f in t.occurrences[j]
      ensures j < |s.rows| && f in s.occurrences[j] && t.occurrences[j][f] == s.occurrences[j][f]
    {
    }
    assert Silver.Seen(t.occurrences[j]);
    forall f | f in s.occurrences[j] ensures f in t.occurrences[j] {
    }
    assert t.occurrences[j].Keys == s.occurrences[j].Keys;
  }

  // ---------------------------------------------------------------- ranks before and after

  /** Whether an occurrence stands depends only on what its attempt names and on the decisions. */
  ghost predicate SameStanding(s: State, t: State) {
    && |s.attempts| <= |t.attempts| && t.invalidations == s.invalidations
    && (forall k :: 0 <= k < |s.attempts| ==> t.attempts[k].capture == s.attempts[k].capture)
    && (forall d :: d in s.derivations ==> d in t.derivations && t.derivations[d] == s.derivations[d])
  }

  /** A row whose occurrences did not change is as alive, and ranks, as before. */
  lemma UntouchedRow(reg: Registry, s: State, t: State, j: nat)
    requires Readable(s) && Readable(t) && SameStanding(s, t)
    requires j < |s.silver.rows| && j < |t.silver.rows| && t.silver.rows[j] == s.silver.rows[j]
    requires t.silver.occurrences[j] == s.silver.occurrences[j]
    ensures Alive(t, j) == Alive(s, j) && ValidInstants(t, j) == ValidInstants(s, j)
    ensures Alive(s, j) ==> Newest(t, j) == Newest(s, j) && RankOf(reg, t, j) == RankOf(reg, s, j)
  {
  }

  /** A commit leaves every other row of the identity as it ranked, and moves the touched row's
      newest instant exactly by its own occurrence, if that is new and stands. */
  lemma TouchedRow(reg: Registry, s: State, t: State, attempt: nat, o: Observation, i: nat)
    requires Readable(s) && Readable(t) && SameStanding(s, t) && attempt < |s.attempts|
    requires Touches(s.silver, t.silver, attempt, o, i)
    ensures i < |s.silver.rows| ==> ValidInstants(s, i) <= ValidInstants(t, i)
    ensures forall x :: x in ValidInstants(t, i) ==>
      (i < |s.silver.rows| && x in ValidInstants(s, i)) || x == OrderingInstant(o)
    ensures Stands(s.attempts, s.invalidations, o.derivation, Occurrence(OrderingInstant(o), attempt))
            && !(i < |s.silver.rows| && o.fetchedAt in s.silver.occurrences[i]) ==>
            Alive(t, i) && OrderingInstant(o) in ValidInstants(t, i)
    ensures i < |s.silver.rows| && Alive(s, i) ==> Alive(t, i)
    ensures Alive(t, i) && !(i < |s.silver.rows| && Alive(s, i)) ==> Newest(t, i) == OrderingInstant(o)
  {
  }

  // ---------------------------------------------------------------- return and late replay

  function Canonical(o: Observation): Query {
    Query(o.identity.dataset, None, None, None, None)
  }

  function OwnTransport(o: Observation): Query {
    Query(o.identity.dataset, None, None, None, Some(o.transport))
  }

  /** The version's row, if stored, came from `o`'s transport. */
  ghost predicate TransportAgrees(s: State, o: Observation) {
    forall j :: 0 <= j < |s.silver.rows| && VersionOf(s.silver.rows[j].observation) == VersionOf(o) ==>
      s.silver.rows[j].observation.transport == o.transport
  }

  /** `o` is ordered after everything valid of its identity in its transport. */
  ghost predicate NewestOfAll(s: State, o: Observation)
    requires Readable(s)
  {
    forall j :: 0 <= j < |s.silver.rows| && Candidate(s, OwnTransport(o), j) ==>
      s.silver.rows[j].observation.identity == o.identity ==> Newest(s, j) < OrderingInstant(o)
  }

  lemma NewestWins(reg: Registry, s: State, t: State, attempt: nat, o: Observation, i: nat)
    requires Readable(s) && Readable(t) && SameStanding(s, t) && attempt < |s.attempts|
    requires Touches(s.silver, t.silver, attempt, o, i) && NewestOfAll(s, o)
    requires t.silver.rows[i].observation.transport == o.transport && Alive(t, i) && Newest(t, i) == OrderingInstant(o)
    ensures IsCurrent(reg, t, OwnTransport(o), i)
  {
    forall j | 0 <= j < |t.silver.rows| && Candidate(t, OwnTransport(o), j) && SameIdentity(t, i, j)
      ensures Preferred(reg, t, i, j)
    {
      if j != i {
        UntouchedRow(reg, s, t, j);
        assert Candidate(s, OwnTransport(o), j);
      }
    }
  }

  /** Return (A, B, A): a capture that stands, fetched at an instant new to its version and ordered
      after everything valid of the identity in its transport, becomes that transport's current
      row, whether its payload is new or was seen before. */
  lemma ReturnBecomesCurrent(reg: Registry, s: State, c: Claim, w: Work, now: Instant, k: nat) returns (i: nat)
    requires CanAccept(s, c, w) && k < |w.observations| && TransportAgrees(s, w.observations[k])
    requires Stands(s.attempts, s.invalidations, w.observations[k].derivation, Occurrence(0, c.attemptId))
    requires forall j :: 0 <= j < |s.silver.rows|
                         && VersionOf(s.silver.rows[j].observation) == VersionOf(w.observations[k]) ==>
               w.observations[k].fetchedAt !in s.silver.occurrences[j]
    requires NewestOfAll(s, w.observations[k])
    ensures var t := Accept(s, c, w, now);
      && Readable(t) && i < |t.silver.rows| && VersionOf(t.silver.rows[i].observation) == VersionOf(w.observations[k])
      && IsCurrent(reg, t, OwnTransport(w.observations[k]), i)
  {
    var t, o := Accept(s, c, w, now), w.observations[k];
    AcceptIsReadable(s, c, w, now);
    i := CommitTouches(s.silver, c.attemptId, w.observations, k);
    TouchedRow(reg, s, t, c.attemptId, o, i);
    assert i < |s.silver.rows| ==> s.silver.rows[i] == t.silver.rows[i];
    if i < |s.silver.rows| && Alive(s, i) {
      assert Candidate(s, OwnTransport(o), i);
    }
    assert Newest(t, i) == OrderingInstant(o);
    NewestWins(reg, s, t, c.attemptId, o, i);
  }

  /** Row `j` counts for the view in `t` exactly as it did in `s`. */
  ghost predicate SameRow(reg: Registry, s: State, t: State, j: nat)
    requires Readable(s) && Readable(t) && j < |t.silver.rows|
  {
    if j < |s.silver.rows| then
      && t.silver.rows[j] == s.silver.rows[j] && Alive(t, j) == Alive(s, j)
      && (Alive(s, j) ==> RankOf(reg, t, j) == RankOf(reg, s, j))
    else !Alive(t, j)
  }

  /** Row `i`, if it counts at all, is strictly below the candidate `m`. */
  ghost predicate Dominated(reg: Registry, s: State, i: nat, m: nat)
    requires Readable(s) && m < |s.silver.rows| && Alive(s, m)
  {
    i < |s.silver.rows| && Alive(s, i) ==> Below(RankOf(reg, s, i), RankOf(reg, s, m))
  }

  /** Only row `i` of `m`'s identity moved from `s` to `t`, and it was and stays below `m`. */
  ghost predicate Sheltered(reg: Registry, s: State, t: State, i: nat, m: nat) {
    && Readable(s) && Readable(t) && s.silver.rows <= t.silver.rows && i < |t.silver.rows|
    && m < |s.silver.rows| && Alive(s, m) && SameRow(reg, s, t, m)
    && (forall l :: 0 <= l < |t.silver.rows| && SameIdentity(t, l, m) && l != i ==> SameRow(reg, s, t, l))
    && (SameRow(reg, s, t, i) || (i != m && Dominated(reg, s, i, m) && Dominated(reg, t, i, m)))
  }

  lemma CurrentWas(reg: Registry, s: State, t: State, q: Query, i: nat, m: nat, j: nat)
    requires Sheltered(reg, s, t, i, m) && Candidate(s, q, m)
    requires IsCurrent(reg, t, q, j) && SameIdentity(t, j, m)
    ensures j < |s.silver.rows| && IsCurrent(reg, s, q, j)
  {
    assert Candidate(t, q, m) && Preferred(reg, t, j, m);
    assert SameRow(reg, s, t, j);
    forall l | 0 <= l < |s.silver.rows| && Candidate(s, q, l) && SameIdentity(s, j, l) ensures Preferred(reg, s, j, l) {
      if SameRow(reg, s, t, l) {
        assert Candidate(t, q, l) && SameIdentity(t, j, l);
      } else {
        PreferredIsOrder(reg, s, j, m, l);
      }
    }
  }

  lemma CurrentStays(reg: Registry, s: State, t: State, q: Query, i: nat, m: nat, j: nat)
    requires Sheltered(reg, s, t, i, m) && Candidate(s, q, m)
    requires IsCurrent(reg, s, q, j) && SameIdentity(s, j, m)
    ensures IsCurrent(reg, t, q, j)
  {
    assert Preferred(reg, s, j, m);
    assert SameRow(reg, s, t, j);
    forall l | 0 <= l < |t.silver.rows| && Candidate(t, q, l) && SameIdentity(t, j, l) ensures Preferred(reg, t, j, l) {
      if SameRow(reg, s, t, l) {
        assert Candidate(s, q, l) && SameIdentity(s, j, l);
      } else {
        PreferredIsOrder(reg, t, j, m, l);
      }
    }
  }

  /** Then every view that considers `m` shows the same row of the identity. */
  lemma ShelteredViewIsSame(reg: Registry, s: State, t: State, q: Query, i: nat, m: nat, j: nat)
    requires Sheltered(reg, s, t, i, m) && Candidate(s, q, m)
    requires j < |t.silver.rows| && SameIdentity(t, j, m)
    ensures IsCurrent(reg, t, q, j) <==> j < |s.silver.rows| && IsCurrent(reg, s, q, j)
  {
    if IsCurrent(reg, t, q, j) {
      CurrentWas(reg, s, t, q, i, m, j);
    } else if j < |s.silver.rows| && IsCurrent(reg, s, q, j) {
      CurrentStays(reg, s, t, q, i, m, j);
    }
  }

  lemma LateRowIsDominated(reg: Registry, s: State, t: State, attempt: nat, o: Observation, i: nat, m: nat)
    requires Readable(s) && Readable(t) && SameStanding(s, t) && attempt < |s.attempts|
    requires Touches(s.silver, t.silver, attempt, o, i)
    requires t.silver.rows[i].observation.transport == o.transport
    requires m < |s.silver.rows| && Candidate(s, OwnTransport(o), m)
    requires s.silver.rows[m].observation.identity == o.identity
    requires i < |s.silver.rows| && Alive(s, i) ==> Preferred(reg, s, m, i)
    requires OrderingInstant(o) < Newest(s, m)
    ensures SameRow(reg, s, t, m)
    ensures SameRow(reg, s, t, i) || (i != m && Dominated(reg, s, i, m) && Dominated(reg, t, i, m))
  {
    TouchedRow(reg, s, t, attempt, o, i);
    if i == m || (i < |s.silver.rows| && Alive(s, i) && OrderingInstant(o) <= Newest(s, i)) {
      assert t.silver.rows[i] == s.silver.rows[i];
      assert Newest(t, i) == Newest(s, i);
    } else {
      assert i < |s.silver.rows| ==> t.silver.rows[i] == s.silver.rows[i];
      assert Alive(t, i) ==> Newest(t, i) < Newest(s, m);
    }
    if i != m {
      UntouchedRow(reg, s, t, m);
    }
  }

  /** Late replay: a capture ordered strictly before the newest instant of its transport's current
      row changes neither that transport's view nor the canonical view of the identity, whatever
      its derivation. */
  lemma LateReplayChangesNothing(reg: Registry, s: State, c: Claim, w: Work, now: Instant, k: nat, m: nat, j: nat)
    requires CanAccept(s, c, w) && k < |w.observations| && TransportAgrees(s, w.observations[k])
    requires IsCurrent(reg, s, OwnTransport(w.observations[k]), m)
    requires s.silver.rows[m].observation.identity == w.observations[k].identity
    requires OrderingInstant(w.observations[k]) < Newest(s, m)
    requires j < |Accept(s, c, w, now).silver.rows|
    requires Accept(s, c, w, now).silver.rows[j].observation.identity == w.observations[k].identity
    ensures var t := Accept(s, c, w, now);
      && Readable(t)
      && (IsCurrent(reg, t, OwnTransport(w.observations[k]), j) <==>
            j < |s.silver.rows| && IsCurrent(reg, s, OwnTransport(w.observations[k]), j))
      && (IsCurrent(reg, t, Canonical(w.observations[k]), j) <==>
            j < |s.silver.rows| && IsCurrent(reg, s, Canonical(w.observations[k]), j))
  {
    var t, o := Accept(s, c, w, now), w.observations[k];
    AcceptIsReadable(s, c, w, now);
    var i := CommitTouches(s.silver, c.attemptId, w.observations, k);
    forall l | 0 <= l < |t.silver.rows| && SameIdentity(t, l, m) && l != i ensures SameRow(reg, s, t, l) {
      UntouchedRow(reg, s, t, l);
    }
    LateRowIsDominated(reg, s, t, c.attemptId, o, i, m);
    assert Candidate(s, Canonical(o), m);
    assert Sheltered(reg, s, t, i, m);
    ShelteredViewIsSame(reg, s, t, OwnTransport(o), i, m, j);
    ShelteredViewIsSame(reg, s, t, Canonical(o), i, m, j);
  }

  // ---------------------------------------------------------------- invalidation

  /** All rows count alike in `s` and `t`; `t` may hold more rows, none of them alive. */
  lemma SameRowsSameView(reg: Registry, s: State, t: State, q: Query, i: nat)
    requires Readable(s) && Readable(t) && s.silver.rows <= t.silver.rows
    requires forall j :: 0 <= j < |t.silver.rows| ==> SameRow(reg, s, t, j)
    ensures IsCurrent(reg, t, q, i) <==> IsCurrent(reg, s, q, i)
  {
    forall j | 0 <= j < |t.silver.rows| ensures Candidate(t, q, j) <==> Candidate(s, q, j) {
      assert SameRow(reg, s, t, j);
    }
    if i < |s.silver.rows| && Candidate(s, q, i) {
      assert SameRow(reg, s, t, i);
      forall j | 0 <= j < |s.silver.rows| && Candidate(s, q, j)
        ensures Preferred(reg, t, i, j) == Preferred(reg, s, i, j)
      {
        assert SameRow(reg, s, t, j);
      }
    }
  }

  /** Decision `d` concerns this occurrence of a row under derivation `under`. */
  predicate Concerns(attempts: seq<RunAttempt>, d: Decision, under: DerivationId, occ: Occurrence)
    requires occ.attempt < |attempts|
  {
    attempts[occ.attempt].capture == Some(d.capture) && (d.derivation.None? || d.derivation.value == under)
  }

  /** The ledger with the occurrences that `d` concerns deleted instead of overruled. */
  function Erase(s: State, d: Decision): State
    requires Readable(s)
  {
    s.(silver := s.silver.(occurrences := seq(|s.silver.rows|, i requires 0 <= i < |s.silver.rows| =>
      map f | f in s.silver.occurrences[i]
              && !Concerns(s.attempts, d, s.silver.rows[i].observation.derivation, s.silver.occurrences[i][f])
            :: s.silver.occurrences[i][f])))
  }

  lemma EraseRow(reg: Registry, s: State, d: Decision, j: nat)
    requires Readable(s) && j < |s.silver.rows|
    ensures Readable(Erase(s, d)) && Readable(AddInvalidation(s, d))
    ensures SameRow(reg, Erase(s, d), AddInvalidation(s, d), j)
  {
    var e, a, under := Erase(s, d), AddInvalidation(s, d), s.silver.rows[j].observation.derivation;
    forall f | f in s.silver.occurrences[j]
      ensures Stands(a.attempts, a.invalidations, under, s.silver.occurrences[j][f]) <==>
              f in e.silver.occurrences[j] && Stands(e.attempts, e.invalidations, under, e.silver.occurrences[j][f])
    {
    }
    assert ValidInstants(e, j) == ValidInstants(a, j);
  }

  /** Invalidation is conservative: after a decision every view shows exactly what it would show
      had the occurrences the decision concerns never been recorded. */
  lemma InvalidationErases(reg: Registry, s: State, d: Decision, q: Query, i: nat)
    requires Readable(s)
    ensures Readable(Erase(s, d)) && Readable(AddInvalidation(s, d))
    ensures IsCurrent(reg, AddInvalidation(s, d), q, i) <==> IsCurrent(reg, Erase(s, d), q, i)
  {
    forall j | 0 <= j < |s.silver.rows| ensures SameRow(reg, Erase(s, d), AddInvalidation(s, d), j) {
      EraseRow(reg, s, d, j);
    }
    SameRowsSameView(reg, Erase(s, d), AddInvalidation(s, d), q, i);
  }

  /** What `_refuse_invalidated` commits under derivation `d`. */
  function Refusal(d: DerivationId): Work {
    Work(Failed, Quarantined, Some(d), [], [QualityEvent(Invalidated, None)])
  }

  /** `q` has more occurrences than `p`, but those `p` lacks do not stand. */
  lemma VoidRow(reg: Registry, p: State, q: State, j: nat)
    requires Readable(p) && Readable(q) && SameStanding(p, q) && Silver.Extends(p.silver, q.silver)
    requires j < |q.silver.rows|
    requires forall f :: f in q.silver.occurrences[j] && !(j < |p.silver.rows| && f in p.silver.occurrences[j]) ==>
               !Stands(q.attempts, q.invalidations, q.silver.rows[j].observation.derivation, q.silver.occurrences[j][f])
    ensures SameRow(reg, p, q, j)
  {
    var under := q.silver.rows[j].observation.derivation;
    if j < |p.silver.rows| {
      assert q.silver.rows[j] == p.silver.rows[j];
      forall f | f in p.silver.occurrences[j]
        ensures f in q.silver.occurrences[j] && q.silver.occurrences[j][f] == p.silver.occurrences[j][f]
        ensures Stands(q.attempts, q.invalidations, under, q.silver.occurrences[j][f]) ==
                Stands(p.attempts, p.invalidations, under, p.silver.occurrences[j][f])
      {
      }
      assert ValidInstants(p, j) == ValidInstants(q, j);
    }
  }

  /** The two orders of processing and deciding, for the commit `w` of the claimed capture. */
  ghost predicate Orders(s: State, c: Claim, w: Work, d: Decision, first: Instant, later: Instant, before: State,
                         after: State)
  {
    && CanAccept(s, c, w) && s.attempts[c.attemptId].capture == Some(d.capture)
    && (d.derivation.None? || d.derivation == w.derivation)
    && after == AddInvalidation(Accept(s, c, w, first), d)
    && before == Accept(AddInvalidation(s, d), c, Refusal(w.derivation.value), later)
  }

  lemma OrdersReadable(s: State, c: Claim, w: Work, d: Decision, first: Instant, later: Instant, before: State,
                       after: State)
    requires Orders(s, c, w, d, first, later, before, after)
    ensures before.silver == s.silver && Readable(before) && Readable(after)
    ensures Silver.Extends(before.silver, after.silver)
    ensures |before.attempts| == |after.attempts| && before.invalidations == after.invalidations
    ensures forall k :: 0 <= k < |before.attempts| ==> after.attempts[k].capture == before.attempts[k].capture
  {
    Silver.StoreAllKeeps(s.silver, c.attemptId, w.observations);
    AcceptIsReadable(s, c, w, first);
  }

  lemma OrdersRow(reg: Registry, s: State, c: Claim, w: Work, d: Decision, first: Instant, later: Instant,
                  before: State, after: State, j: nat)
    requires Orders(s, c, w, d, first, later, before, after) && j < |after.silver.rows|
    ensures Readable(before) && Readable(after) && SameRow(reg, before, after, j)
  {
    OrdersReadable(s, c, w, d, first, later, before, after);
    Silver.StoreAllOrigin(s.silver, c.attemptId, w.observations);
    forall f | f in after.silver.occurrences[j] && !(j < |s.silver.rows| && f in s.silver.occurrences[j])
      ensures var d := after.silver.rows[j].observation.derivation;
        !Stands(after.attempts, after.invalidations, d, after.silver.occurrences[j][f])
    {
      assert Silver.Sourced(s.silver, after.silver, c.attemptId, w.observations, j, f);
    }
    var common := before.(derivations := s.derivations);
    VoidRow(reg, common, after, j);
    if j < |s.silver.rows| {
      UntouchedRow(reg, common, before, j);
    }
  }

  /** Deciding before processing (the capture is refused) or after it (its rows are stored) gives
      the same current rows in every view. */
  lemma DecideBeforeOrAfter(reg: Registry, s: State, c: Claim, w: Work, d: Decision, first: Instant, later: Instant,
                            before: State, after: State, q: Query, i: nat)
    requires Orders(s, c, w, d, first, later, before, after)
    ensures Readable(before) && Readable(after)
    ensures IsCurrent(reg, after, q, i) <==> IsCurrent(reg, before, q, i)
    ensures IsCurrent(reg, after, q, i) ==> after.silver.rows[i] == before.silver.rows[i]
  {
    OrdersReadable(s, c, w, d, first, later, before, after);
    forall j | 0 <= j < |after.silver.rows| ensures SameRow(reg, before, after, j) {
      OrdersRow(reg, s, c, w, d, first, later, before, after, j);
    }
    SameRowsSameView(reg, before, after, q, i);
  }

  // ---------------------------------------------------------------- retries

  /** Re-committing a capture's observations, under any claim and at any time, inserts nothing,
      counts nothing and leaves every view unchanged. */
  lemma RetryKeepsViews(reg: Registry, s: State, c: Claim, w: Work, now: Instant,
                        again: Claim, w2: Work, later: Instant, q: Query, i: nat)
    requires CanAccept(s, c, w) && OneDocument(w2) && again.runId < |s.runs| && again.attemptId < |s.attempts|
    requires |w2.observations| == |w.observations|
    requires forall k :: 0 <= k < |w.observations| ==>
               && VersionOf(w2.observations[k]) == VersionOf(w.observations[k])
               && w2.observations[k].fetchedAt == w.observations[k].fetchedAt
    ensures var t := Accept(s, c, w, now);
      && Silver.Valid(t.silver) && Current(t, again) ==>
      && Commit(t, again, w2, later).1 == CommitResult(0, false, 0)
      && Commit(t, again, w2, later).0.silver == t.silver
      && Readable(t) && Readable(Commit(t, again, w2, later).0)
      && (IsCurrent(reg, Commit(t, again, w2, later).0, q, i) <==> IsCurrent(reg, t, q, i))
  {
    var t := Accept(s, c, w, now);
    Silver.StoreAllKeeps(s.silver, c.attemptId, w.observations);
    Silver.RetryIsNoop(s.silver, c.attemptId, w.observations, again.attemptId, w2.observations);
    AcceptIsReadable(s, c, w, now);
    var u := Accept(t, again, w2, later);
    assert Readable(u);
    forall j | 0 <= j < |u.silver.rows| ensures SameRow(reg, t, u, j) {
      UntouchedRow(reg, t, u, j);
    }
    SameRowsSameView(reg, t, u, q, i);
  }
}
