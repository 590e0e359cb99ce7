/** Mapping a document's records: one observation per identity, or quarantine. */
module Mapping {
  import opened Types

  type Record(==, !new)

  /** One record's observations, one per metric; nothing when the record itself is quarantined. */
  type MapOne = Record -> Option<seq<Observation>>

  /** Some record of `rs` maps to observation `o`. */
  ghost predicate Emits(one: MapOne, rs: seq<Record>, o: Observation) {
    exists r :: r in rs && one(r).Some? && o in one(r).value
  }

  ghost predicate Refused(one: MapOne, rs: seq<Record>) {
    exists r :: r in rs && one(r).None?
  }

  /** Two records, or two metrics of one, disagree about the value of an identity. */
  ghost predicate Conflicts(one: MapOne, rs: seq<Record>) {
    exists o, p :: Emits(one, rs, o) && Emits(one, rs, p) && o.identity == p.identity && o.value != p.value
  }

  function IdentitySeq(os: seq<Observation>): (r: seq<Identity>)
    ensures |r| == |os| && forall i :: 0 <= i < |os| ==> r[i] == os[i].identity
  {
    seq(|os|, i requires 0 <= i < |os| => os[i].identity)
  }

  ghost predicate DistinctIdentities(ids: seq<Identity>) {
    forall i, j :: 0 <= i < j < |ids| ==> ids[i] != ids[j]
  }

  ghost predicate OnePerIdentity(os: seq<Observation>) {
    forall i, j :: 0 <= i < j < |os| ==> os[i].identity != os[j].identity
  }

  ghost predicate Agrees(os: seq<Observation>, p: Observation) {
    exists o :: o in os && o.identity == p.identity && o.value == p.value
  }

  /** All that the records emit, in order. */
  ghost function Emission(one: MapOne, rs: seq<Record>): seq<Observation> {
    if rs == [] then []
    else
      var last := one(rs[|rs| - 1]);
      Emission(one, rs[..|rs| - 1]) + if last.Some? then last.value else []
  }

  /** The first observation of each identity, in the order they were emitted. */
  ghost function Firsts(emitted: seq<Observation>): seq<Observation> {
    if emitted == [] then []
    else
      var init, last := emitted[..|emitted| - 1], emitted[|emitted| - 1];
      if exists p :: p in init && p.identity == last.identity then Firsts(init) else Firsts(init) + [last]
  }

  /** `os` has one observation per identity, of the emitted ones, and agrees with every emitted one. */
  ghost predicate Covers(one: MapOne, rs: seq<Record>, os: seq<Observation>) {
    && OnePerIdentity(os)
    && (forall o :: o in os ==> Emits(one, rs, o))
    && (forall p :: Emits(one, rs, p) ==> Agrees(os, p))
  }

  /** What `map_records` returns: quarantine exactly when a record is refused or two disagree. */
  ghost predicate Outcome(one: MapOne, rs: seq<Record>, r: Option<seq<Observation>>) {
    && (r.None? <==> Refused(one, rs) || Conflicts(one, rs))
    && (r.Some? ==> Covers(one, rs, r.value))
  }

  // ---------------------------------------------------------------- the loop

  /** `seen` holds exactly the observations of `out`, by identity. */
  ghost predicate Indexed(seen: map<Identity, Observation>, out: seq<Observation>) {
    && (forall o :: o in out ==> o.identity in seen && seen[o.identity] == o)
    && (forall k :: k in seen ==> seen[k].identity == k && seen[k] in out)
  }

  /** `out` are the first of each identity among `emitted`, and none of `emitted` disagrees. */
  ghost predicate Deduplicated(emitted: seq<Observation>, seen: map<Identity, Observation>, out: seq<Observation>) {
    && Indexed(seen, out) && OnePerIdentity(out)
    && (forall o :: o in out ==> o in emitted)
    && (forall p :: p in emitted ==> p.identity in seen && seen[p.identity].value == p.value)
  }

  /** `out` holds the first of each identity, by `seen`, and nothing emitted disagrees. */
  ghost predicate Sifted(emitted: seq<Observation>, seen: map<Identity, Observation>, out: seq<Observation>) {
    Deduplicated(emitted, seen, out) && out == Firsts(emitted)
  }

  lemma NextFirst(emitted: seq<Observation>, o: Observation)
    ensures Firsts(emitted + [o]) ==
      if exists p :: p in emitted && p.identity == o.identity then Firsts(emitted) else Firsts(emitted) + [o]
  {
    assert (emitted + [o])[..|emitted|] == emitted;
  }

  lemma NextIndexed(emitted: seq<Observation>, seen: map<Identity, Observation>, out: seq<Observation>, o: Observation)
    requires Deduplicated(emitted, seen, out) && o.identity !in seen
    ensures Deduplicated(emitted + [o], seen[o.identity := o], out + [o])
  {
    assert forall i :: 0 <= i < |out| ==> out[i] in out;
  }

  lemma SiftNew(emitted: seq<Observation>, seen: map<Identity, Observation>, out: seq<Observation>, o: Observation)
    requires Sifted(emitted, seen, out) && o.identity !in seen
    ensures Sifted(emitted + [o], seen[o.identity := o], out + [o])
  {
    NextFirst(emitted, o);
    NextIndexed(emitted, seen, out, o);
  }

  lemma SiftAgain(emitted: seq<Observation>, seen: map<Identity, Observation>, out: seq<Observation>, o: Observation)
    requires Sifted(emitted, seen, out) && o.identity in seen && seen[o.identity].value == o.value
    ensures Sifted(emitted + [o], seen, out)
  {
    NextFirst(emitted, o);
    assert seen[o.identity] in out && seen[o.identity] in emitted;
  }

  /** One of the record's observations disagrees with one of all. */
  ghost predicate Clash(all: seq<Observation>, added: seq<Observation>) {
    exists o, p :: o in all && p in added && o.identity == p.identity && o.value != p.value
  }

  /** Observation `n` of the record. */
  lemma SiftNext(emitted: seq<Observation>, added: seq<Observation>, n: nat, seen: map<Identity, Observation>,
                 out: seq<Observation>)
    requires n < |added| && Sifted(emitted + added[..n], seen, out)
    ensures var o := added[n];
      if o.identity !in seen then Sifted(emitted + added[..n + 1], seen[o.identity := o], out + [o])
      else if seen[o.identity].value == o.value then Sifted(emitted + added[..n + 1], seen, out)
      else Clash(emitted + added, added)
  {
    var so, o := emitted + added[..n], added[n];
    assert emitted + added[..n + 1] == so + [o];
    if o.identity !in seen {
      SiftNew(so, seen, out, o);
    } else if seen[o.identity].value == o.value {
      SiftAgain(so, seen, out, o);
    } else {
      var earlier := seen[o.identity];
      assert earlier in out && earlier in so;
      assert earlier in emitted + added && o in added;
    }
  }

  /** One record: each observation is new, a repetition, or a conflict. */
  method AddRecord(ghost emitted: seq<Observation>, added: seq<Observation>, before: map<Identity, Observation>,
                   first: seq<Observation>)
    returns (ok: bool, seen: map<Identity, Observation>, out: seq<Observation>)
    requires Sifted(emitted, before, first)
    ensures ok ==> Sifted(emitted + added, seen, out)
    ensures !ok ==> Clash(emitted + added, added)
  {
    seen, out := before, first;
    assert emitted + added[..0] == emitted;
    for n := 0 to |added|
      invariant Sifted(emitted + added[..n], seen, out)
    {
      var obs := added[n];
      SiftNext(emitted, added, n, seen, out);
      if obs.identity in seen {
        if seen[obs.identity].value != obs.value {
          return false, seen, out;
        }
      } else {
        seen := seen[obs.identity := obs];
        out := out + [obs];
      }
    }
    assert emitted + added[..|added|] == emitted + added;
    ok := true;
  }

  lemma OneMoreRecord(one: MapOne, rs: seq<Record>, r: Record, o: Observation)
    requires one(r).Some?
    ensures Emits(one, rs + [r], o) <==> Emits(one, rs, o) || o in one(r).value
  {
  }

  /** `map_records`. */
  method MapRecords(one: MapOne, rs: seq<Record>) returns (result: Option<seq<Observation>>)
    ensures Outcome(one, rs, result)
    ensures result.Some? ==> result.value == Firsts(Emission(one, rs))
  {
    var seen: map<Identity, Observation> := map[];
    var out: seq<Observation> := [];
    ghost var emitted: seq<Observation> := [];
    for n := 0 to |rs|
      invariant Sifted(emitted, seen, out) && emitted == Emission(one, rs[..n])
      invariant forall k :: 0 <= k < n ==> one(rs[k]).Some?
      invariant forall o :: o in emitted <==> Emits(one, rs[..n], o)
    {
      assert rs[..n + 1] == rs[..n] + [rs[n]] && rs[..n + 1][..n] == rs[..n];
      var added := one(rs[n]);
      if added.None? {
        assert rs[n] in rs;
        return None;
      }
      ghost var before := emitted;
      forall o ensures Emits(one, rs[..n + 1], o) <==> o in before + added.value {
        OneMoreRecord(one, rs[..n], rs[n], o);
      }
      var ok;
      ok, seen, out := AddRecord(emitted, added.value, seen, out);
      if !ok {
        return None;
      }
      emitted := emitted + added.value;
    }
    assert rs[..|rs|] == rs;
    Settled(one, rs, emitted, seen, out);
    return Some(out);
  }

  lemma Settled(one: MapOne, rs: seq<Record>, emitted: seq<Observation>, seen: map<Identity, Observation>,
                out: seq<Observation>)
    requires Deduplicated(emitted, seen, out) && forall o :: o in emitted <==> Emits(one, rs, o)
    ensures !Conflicts(one, rs) && Covers(one, rs, out)
  {
  }

  // ---------------------------------------------------------------- order does not matter

  /** The same records in any order: quarantined together, and otherwise the same identities with
      the same values, one observation each. */
  lemma OrderIndependent(one: MapOne, rs: seq<Record>, r: Option<seq<Observation>>, ss: seq<Record>,
                         s: Option<seq<Observation>>)
    requires Outcome(one, rs, r) && Outcome(one, ss, s) && multiset(rs) == multiset(ss)
    ensures r.None? <==> s.None?
    ensures r.Some? ==> forall o :: o in r.value ==> Agrees(s.value, o)
    ensures r.Some? ==> forall o :: o in s.value ==> Agrees(r.value, o)
    ensures r.Some? ==> |r.value| == |s.value|
  {
    SameRecords(rs, ss);
    forall o ensures Emits(one, rs, o) <==> Emits(one, ss, o) {
    }
    if r.Some? {
      assert Identities(r.value) == Identities(s.value);
      CountIdentities(r.value);
      CountIdentities(s.value);
    }
  }

  lemma SameRecords(rs: seq<Record>, ss: seq<Record>)
    requires multiset(rs) == multiset(ss)
    ensures forall r :: r in rs <==> r in ss
  {
    forall r ensures r in rs <==> r in ss {
      assert r in rs <==> r in multiset(rs);
      assert r in ss <==> r in multiset(ss);
    }
  }

  function Identities(os: seq<Observation>): set<Identity> {
    set o | o in os :: o.identity
  }

  lemma {:induction false} CountIdentities(os: seq<Observation>)
    requires OnePerIdentity(os)
    ensures |Identities(os)| == |os|
  {
    if os != [] {
      var init, last := os[..|os| - 1], os[|os| - 1];
      CountIdentities(init);
      assert last.identity !in Identities(init);
      forall o | o in os ensures o in init || o == last {
      }
      assert last in os;
      assert Identities(os) == Identities(init) + {last.identity};
    }
  }

}
