/** Silver's append-only core: version rows and their occurrences.

A row id is its position, so rows are stored in id order, as the source's counter keeps them.
*/
module Silver {
  import opened Types

  datatype Store = Store(rows: seq<StoredObservation>, occurrences: seq<map<Instant, Occurrence>>)

  /** The position of the row holding version `v`. */
  function Find(rows: seq<StoredObservation>, v: Version): (r: Option<nat>)
    ensures r.Some? ==> r.value < |rows| && VersionOf(rows[r.value].observation) == v
    ensures r.None? ==> forall i :: 0 <= i < |rows| ==> VersionOf(rows[i].observation) != v
  {
    if rows == [] then None
    else if VersionOf(rows[|rows| - 1].observation) == v then Some(|rows| - 1)
    else Find(rows[..|rows| - 1], v)
  }

  ghost predicate Unique(rows: seq<StoredObservation>) {
    forall i, j :: 0 <= i < j < |rows| ==> VersionOf(rows[i].observation) != VersionOf(rows[j].observation)
  }

  ghost predicate Seen(occurrences: map<Instant, Occurrence>) {
    exists f :: f in occurrences
  }

  ghost predicate Valid(s: Store) {
    && |s.rows| == |s.occurrences|
    && Unique(s.rows)
    && forall i :: 0 <= i < |s.rows| ==> Seen(s.occurrences[i])
  }

  /** One observation of a commit: a row for a new version, and one occurrence per fetch instant. */
  function StoreOne(s: Store, attempt: nat, o: Observation): (r: Store)
    requires |s.rows| == |s.occurrences|
    ensures |r.rows| == |r.occurrences|
  {
    var occ := Occurrence(OrderingInstant(o), attempt);
    match Find(s.rows, VersionOf(o))
    case None =>
      Store(s.rows + [StoredObservation(attempt, o)], s.occurrences + [map[o.fetchedAt := occ]])
    case Some(i) =>
      if o.fetchedAt in s.occurrences[i] then s
      else s.(occurrences := s.occurrences[i := s.occurrences[i][o.fetchedAt := occ]])
  }

  function StoreAll(s: Store, attempt: nat, os: seq<Observation>): (r: Store)
    requires |s.rows| == |s.occurrences|
    ensures |r.rows| == |r.occurrences|
  {
    if os == [] then s
    else StoreOne(StoreAll(s, attempt, os[..|os| - 1]), attempt, os[|os| - 1])
  }

  /** New occurrences of versions that were already stored when their observation came. */
  function Returned(s: Store, attempt: nat, os: seq<Observation>): nat
    requires |s.rows| == |s.occurrences|
  {
    if os == [] then 0
    else
      var before := StoreAll(s, attempt, os[..|os| - 1]);
      var o := os[|os| - 1];
      Returned(s, attempt, os[..|os| - 1]) +
      match Find(before.rows, VersionOf(o))
      case None => 0
      case Some(i) => if o.fetchedAt in before.occurrences[i] then 0 else 1
  }

  /** `t` keeps every row and every occurrence of `s`. */
  ghost predicate Extends(s: Store, t: Store)
    requires |s.rows| == |s.occurrences| && |t.rows| == |t.occurrences|
  {
    && s.rows <= t.rows
    && forall i, f :: 0 <= i < |s.rows| && f in s.occurrences[i] ==>
         f in t.occurrences[i] && t.occurrences[i][f] == s.occurrences[i][f]
  }

  /** Version `v` is stored and has an occurrence for fetch instant `f`. */
  ghost predicate Recorded(s: Store, v: Version, f: Instant)
    requires |s.rows| == |s.occurrences|
  {
    exists i :: 0 <= i < |s.rows| && VersionOf(s.rows[i].observation) == v && f in s.occurrences[i]
  }

  ghost predicate Stored(s: Store, v: Version) {
    exists i :: 0 <= i < |s.rows| && VersionOf(s.rows[i].observation) == v
  }

  lemma StoreOneKeeps(s: Store, attempt: nat, o: Observation)
    requires Valid(s)
    ensures Valid(StoreOne(s, attempt, o))
    ensures Extends(s, StoreOne(s, attempt, o))
    ensures Recorded(StoreOne(s, attempt, o), VersionOf(o), o.fetchedAt)
  {
    var t := StoreOne(s, attempt, o);
    match Find(s.rows, VersionOf(o))
    case None =>
      assert VersionOf(t.rows[|s.rows|].observation) == VersionOf(o) && o.fetchedAt in t.occurrences[|s.rows|];
      assert forall j :: 0 <= j < |s.rows| ==> t.occurrences[j] == s.occurrences[j];
    case Some(i) =>
      assert VersionOf(t.rows[i].observation) == VersionOf(o) && o.fetchedAt in t.occurrences[i];
  }

  /** Silver is append-only: a commit keeps all rows and occurrences, keeps version identities
      unique and every row with an occurrence, and records every observation it was given. */
  lemma {:induction false} StoreAllKeeps(s: Store, attempt: nat, os: seq<Observation>)
    requires Valid(s)
    ensures Valid(StoreAll(s, attempt, os))
    ensures Extends(s, StoreAll(s, attempt, os))
    ensures forall k :: 0 <= k < |os| ==> Recorded(StoreAll(s, attempt, os), VersionOf(os[k]), os[k].fetchedAt)
  {
    if os != [] {
      var init, last := os[..|os| - 1], os[|os| - 1];
      StoreAllKeeps(s, attempt, init);
      var mid := StoreAll(s, attempt, init);
      StoreOneKeeps(mid, attempt, last);
      forall k | 0 <= k < |os|
        ensures Recorded(StoreAll(s, attempt, os), VersionOf(os[k]), os[k].fetchedAt)
      {
        if k < |init| {
          assert os[k] == init[k];
        }
      }
    }
  }

  lemma StoreOneIdempotent(s: Store, attempt: nat, o: Observation)
    requires Valid(s) && Recorded(s, VersionOf(o), o.fetchedAt)
    ensures StoreOne(s, attempt, o) == s
    ensures Find(s.rows, VersionOf(o)).Some? && o.fetchedAt in s.occurrences[Find(s.rows, VersionOf(o)).value]
  {
  }

  /** Storing what is already recorded, whoever attempts it and whenever it was processed,
      changes nothing and counts nothing. */
  lemma {:induction false} StoreAllIdempotent(s: Store, attempt: nat, os: seq<Observation>)
    requires Valid(s)
    requires forall o :: o in os ==> Recorded(s, VersionOf(o), o.fetchedAt)
    ensures StoreAll(s, attempt, os) == s
    ensures Returned(s, attempt, os) == 0
  {
    if os != [] {
      StoreAllIdempotent(s, attempt, os[..|os| - 1]);
      StoreOneIdempotent(s, attempt, os[|os| - 1]);
    }
  }

  /** Re-committing the observations of a capture is a no-op: same versions and fetch instants,
      any attempt, any processing time. */
  lemma RetryIsNoop(s: Store, first: nat, os: seq<Observation>, second: nat, again: seq<Observation>)
    requires Valid(s)
    requires |again| == |os|
    requires forall k :: 0 <= k < |os| ==>
      VersionOf(again[k]) == VersionOf(os[k]) && again[k].fetchedAt == os[k].fetchedAt
    ensures StoreAll(StoreAll(s, first, os), second, again) == StoreAll(s, first, os)
    ensures Returned(StoreAll(s, first, os), second, again) == 0
  {
    StoreAllKeeps(s, first, os);
    StoreAllIdempotent(StoreAll(s, first, os), second, again);
  }

  /** The occurrence of row `i` at `f` was in `s`, or one of `os` put it there. */
  ghost predicate Sourced(s: Store, t: Store, attempt: nat, os: seq<Observation>, i: nat, f: Instant)
    requires |s.rows| == |s.occurrences| && |t.rows| == |t.occurrences|
    requires i < |t.rows| && f in t.occurrences[i]
  {
    || (i < |s.rows| && f in s.occurrences[i])
    || exists o :: o in os && PutBy(t, attempt, o, i, f)
  }

  ghost predicate PutBy(t: Store, attempt: nat, o: Observation, i: nat, f: Instant)
    requires i < |t.rows| == |t.occurrences| && f in t.occurrences[i]
  {
    && VersionOf(o) == VersionOf(t.rows[i].observation)
    && o.fetchedAt == f
    && t.occurrences[i][f] == Occurrence(OrderingInstant(o), attempt)
  }

  /** Every row and occurrence of `t` was in `s` or comes from `os` under `attempt`. */
  ghost predicate AllSourced(s: Store, t: Store, attempt: nat, os: seq<Observation>)
    requires |s.rows| == |s.occurrences| && |t.rows| == |t.occurrences|
  {
    && |s.rows| <= |t.rows|
    && (forall i :: |s.rows| <= i < |t.rows| ==> t.rows[i].attempt == attempt && t.rows[i].observation in os)
    && (forall i, f :: 0 <= i < |t.rows| && f in t.occurrences[i] ==> Sourced(s, t, attempt, os, i, f))
  }

  lemma SourcedStep(s: Store, mid: Store, attempt: nat, init: seq<Observation>, last: Observation)
    requires Valid(s) && Valid(mid) && AllSourced(s, mid, attempt, init)
    ensures AllSourced(s, StoreOne(mid, attempt, last), attempt, init + [last])
  {
    var t, os := StoreOne(mid, attempt, last), init + [last];
    StoreOneKeeps(mid, attempt, last);
    assert last == os[|init|];
    forall i, f | 0 <= i < |t.rows| && f in t.occurrences[i]
      ensures Sourced(s, t, attempt, os, i, f)
    {
      if i < |mid.rows| && f in mid.occurrences[i] {
        assert Sourced(s, mid, attempt, init, i, f);
        if !(i < |s.rows| && f in s.occurrences[i]) {
          var o :| o in init && PutBy(mid, attempt, o, i, f);
          assert o in os && PutBy(t, attempt, o, i, f);
        }
      } else {
        assert last in os && PutBy(t, attempt, last, i, f);
      }
    }
  }

  /** Where the rows and occurrences of a commit come from: the old store, or one of the
      observations, under this attempt. */
  lemma {:induction false} StoreAllOrigin(s: Store, attempt: nat, os: seq<Observation>)
    requires Valid(s)
    ensures AllSourced(s, StoreAll(s, attempt, os), attempt, os)
  {
    if os != [] {
      var init, last := os[..|os| - 1], os[|os| - 1];
      assert os == init + [last];
      StoreAllOrigin(s, attempt, init);
      StoreAllKeeps(s, attempt, init);
      SourcedStep(s, StoreAll(s, attempt, init), attempt, init, last);
    }
  }

  /** A commit that inserted nothing and returned nothing left the store as it was. */
  lemma {:induction false} NothingCounted(s: Store, attempt: nat, os: seq<Observation>)
    requires Valid(s) && |StoreAll(s, attempt, os).rows| == |s.rows| && Returned(s, attempt, os) == 0
    ensures StoreAll(s, attempt, os) == s
  {
    if os != [] {
      var init := os[..|os| - 1];
      StoreAllKeeps(s, attempt, init);
      NothingCounted(s, attempt, init);
    }
  }

  /** And a commit that left Silver as it was inserted nothing and returned nothing. */
  lemma {:induction false} UnchangedCountsNothing(s: Store, attempt: nat, os: seq<Observation>)
    requires Valid(s) && StoreAll(s, attempt, os) == s
    ensures Returned(s, attempt, os) == 0
  {
    if os != [] {
      var init, last := os[..|os| - 1], os[|os| - 1];
      var mid := StoreAll(s, attempt, init);
      StoreAllKeeps(s, attempt, init);
      StoreOneKeeps(mid, attempt, last);
      assert mid.rows == s.rows;
      forall i | 0 <= i < |s.rows| ensures mid.occurrences[i] == s.occurrences[i] {
        assert forall f :: f in mid.occurrences[i] <==> f in s.occurrences[i];
      }
      assert mid.occurrences == s.occurrences;
      UnchangedCountsNothing(s, attempt, init);
    }
  }
}
