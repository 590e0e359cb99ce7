/** The restore drill's verdict: what live holds against what the replica rebuilds. */
module Drill {
  import opened Types
  import opened Ledger
  import opened CaptureLog
  import opened System
  import Silver

  /** What a version is of. */
  datatype Pair = Pair(identity: Identity, payload: Sha)

  /** A version's value; the derivation is deliberately absent. */
  datatype Fingerprint = Fingerprint(pair: Pair, value: Option<Value>)

  function PairOf(o: Observation): Pair {
    Pair(o.identity, o.payload)
  }

  function FingerprintOf(o: Observation): Fingerprint {
    Fingerprint(PairOf(o), o.value)
  }

  // ---------------------------------------------------------------- the rows compared

  /** Row `i` of the dataset and transport of `feed`, whoever produced it. */
  predicate InGroup(s: State, feed: Feed, i: nat) {
    && i < |s.silver.rows|
    && s.silver.rows[i].observation.identity.dataset == feed.dataset
    && s.silver.rows[i].observation.transport == feed.transport
  }

  /** The capture that attempt `k` of a run of the target read. */
  predicate InLineage(s: State, target: TargetId, k: nat) {
    && k < |s.attempts| && s.attempts[k].run < |s.runs| && s.runs[s.attempts[k].run].target == target
    && s.attempts[k].capture.Some?
  }

  /** Row `i` was produced by one of the target's own attempts, from a capture no decision voids. */
  predicate Own(s: State, feed: Feed, target: TargetId, i: nat) {
    && InGroup(s, feed, i)
    && InLineage(s, target, s.silver.rows[i].attempt)
    && var row := s.silver.rows[i];
       !IsInvalidated(s.invalidations, s.attempts[row.attempt].capture.value, row.observation.derivation)
  }

  /** The replica's newest fetch instant, if it has any entry. */
  function Bound(es: seq<CaptureEntry>): (bound: Option<Instant>)
    ensures bound.None? <==> es == []
    ensures bound.Some? ==>
      (forall e :: e in es ==> e.fetchedAt <= bound.value) && exists e :: e in es && e.fetchedAt == bound.value
  {
    if es == [] then None
    else
      var before := Bound(es[..|es| - 1]);
      var e := es[|es| - 1];
      assert forall o :: o in es <==> o in es[..|es| - 1] || o == e;
      if before.Some? && before.value >= e.fetchedAt then before else Some(e.fetchedAt)
  }

  /** An own row that is not newer than the replica. */
  predicate Compared(s: State, feed: Feed, target: TargetId, bound: Option<Instant>, i: nat) {
    Own(s, feed, target, i) && (bound.Some? ==> s.silver.rows[i].observation.fetchedAt <= bound.value)
  }

  /** The observations of the compared rows, in stored order. */
  function ComparedRows(s: State, feed: Feed, target: TargetId, bound: Option<Instant>, n: nat): (os: seq<Observation>)
    requires n <= |s.silver.rows|
    ensures |os| <= n
    ensures forall o :: o in os ==>
      exists i :: 0 <= i < n && Compared(s, feed, target, bound, i) && s.silver.rows[i].observation == o
    ensures forall i :: 0 <= i < n && Compared(s, feed, target, bound, i) ==> s.silver.rows[i].observation in os
  {
    if n == 0 then []
    else
      var before := ComparedRows(s, feed, target, bound, n - 1);
      if Compared(s, feed, target, bound, n - 1) then before + [s.silver.rows[n - 1].observation] else before
  }

  /** No version twice. */
  ghost predicate Versions(os: seq<Observation>) {
    forall i, j :: 0 <= i < j < |os| ==> VersionOf(os[i]) != VersionOf(os[j])
  }

  lemma {:induction false} ComparedVersions(s: State, feed: Feed, target: TargetId, bound: Option<Instant>, n: nat)
    requires n <= |s.silver.rows| && Silver.Unique(s.silver.rows)
    ensures Versions(ComparedRows(s, feed, target, bound, n))
  {
    if n > 0 {
      ComparedVersions(s, feed, target, bound, n - 1);
      var before := ComparedRows(s, feed, target, bound, n - 1);
      forall k | 0 <= k < |before| ensures VersionOf(before[k]) != VersionOf(s.silver.rows[n - 1].observation) {
        assert before[k] in before;
      }
    }
  }

  // ---------------------------------------------------------------- the newest derivation of each pair

  /** When a derivation was registered; one that never was precedes every one that was. */
  function RegisteredAt(reg: map<DerivationId, Instant>, d: DerivationId): Option<Instant> {
    if d in reg then Some(reg[d]) else None
  }

  predicate Earlier(a: Option<Instant>, b: Option<Instant>) {
    b.Some? && (a.None? || a.value < b.value)
  }

  /** Derivation `d` was registered before `e`; ids decide between equal instants. */
  predicate Older(reg: map<DerivationId, Instant>, d: DerivationId, e: DerivationId) {
    var a, b := RegisteredAt(reg, d), RegisteredAt(reg, e);
    Earlier(a, b) || (a == b && d < e)
  }

  /** Among the first `n` observations, `i` is the one of its pair under the newest derivation. */
  ghost predicate Leads(reg: map<DerivationId, Instant>, os: seq<Observation>, n: nat, i: nat)
    requires n <= |os|
  {
    && i < n
    && forall j :: 0 <= j < n && j != i && PairOf(os[j]) == PairOf(os[i]) ==>
         Older(reg, os[j].derivation, os[i].derivation)
  }

  /** A leader's derivation was registered last among its pair's; ids decide between equal instants. */
  lemma LeaderIsNewest(reg: map<DerivationId, Instant>, os: seq<Observation>, i: nat, j: nat)
    requires Leads(reg, os, |os|, i) && j < |os| && PairOf(os[j]) == PairOf(os[i])
    ensures os[j].derivation in reg ==> os[i].derivation in reg && reg[os[j].derivation] <= reg[os[i].derivation]
    ensures RegisteredAt(reg, os[j].derivation) == RegisteredAt(reg, os[i].derivation) ==>
      os[j].derivation <= os[i].derivation
    ensures os[j].derivation == os[i].derivation ==> i == j
  {
  }

  /** `newest` names the leader of every pair of the first `n`, and `losers` are the others. */
  ghost predicate Led(reg: map<DerivationId, Instant>, os: seq<Observation>, n: nat, newest: map<Pair, nat>,
                      losers: set<nat>)
    requires n <= |os|
  {
    && (forall p :: p in newest ==> Leads(reg, os, n, newest[p]) && PairOf(os[newest[p]]) == p)
    && (forall j :: 0 <= j < n ==> PairOf(os[j]) in newest)
    && (forall j: nat :: j in losers <==> j < n && newest[PairOf(os[j])] != j)
  }

  lemma FirstOfPair(reg: map<DerivationId, Instant>, os: seq<Observation>, n: nat, newest: map<Pair, nat>,
                    losers: set<nat>)
    requires n < |os| && Led(reg, os, n, newest, losers) && PairOf(os[n]) !in newest
    ensures Led(reg, os, n + 1, newest[PairOf(os[n]) := n], losers)
  {
  }

  lemma Dethroned(reg: map<DerivationId, Instant>, os: seq<Observation>, n: nat, newest: map<Pair, nat>,
                  losers: set<nat>)
    requires n < |os| && Led(reg, os, n, newest, losers) && PairOf(os[n]) in newest
    requires Older(reg, os[newest[PairOf(os[n])]].derivation, os[n].derivation)
    ensures newest[PairOf(os[n])] !in losers
    ensures Led(reg, os, n + 1, newest[PairOf(os[n]) := n], losers + {newest[PairOf(os[n])]})
  {
    var i := newest[PairOf(os[n])];
    assert Leads(reg, os, n, i);
    assert Leads(reg, os, n + 1, n);
  }

  /** Versions are unique, so two observations of one pair have different derivations. */
  lemma Kept(reg: map<DerivationId, Instant>, os: seq<Observation>, n: nat, newest: map<Pair, nat>, losers: set<nat>)
    requires Versions(os) && n < |os| && Led(reg, os, n, newest, losers) && PairOf(os[n]) in newest
    requires !Older(reg, os[newest[PairOf(os[n])]].derivation, os[n].derivation)
    ensures n !in losers && Led(reg, os, n + 1, newest, losers + {n})
  {
    var i := newest[PairOf(os[n])];
    assert VersionOf(os[i]) != VersionOf(os[n]);
    assert Older(reg, os[n].derivation, os[i].derivation);
    forall p | p in newest ensures Leads(reg, os, n + 1, newest[p]) {
      assert Leads(reg, os, n, newest[p]);
    }
  }

  function Fingerprints(os: seq<Observation>, which: set<nat>): set<Fingerprint>
    requires forall i :: i in which ==> i < |os|
  {
    set i | i in which :: FingerprintOf(os[i])
  }

  function Derivations(os: seq<Observation>, which: set<nat>): set<DerivationId>
    requires forall i :: i in which ==> i < |os|
  {
    set i | i in which :: os[i].derivation
  }

  /** The leader of each pair, and what the others leave behind. */
  datatype Tally = Tally(
    newest: map<Pair, nat>,
    historical: set<Fingerprint>,
    versions: nat,
    retired: set<DerivationId>)

  ghost predicate Tallied(reg: map<DerivationId, Instant>, os: seq<Observation>, n: nat, t: Tally, losers: set<nat>)
    requires n <= |os|
  {
    && Led(reg, os, n, t.newest, losers)
    && t.historical == Fingerprints(os, losers) && t.versions == |losers| && t.retired == Derivations(os, losers)
    && n == |t.newest| + t.versions
  }

  /** The row opens its pair. */
  lemma Opens(reg: map<DerivationId, Instant>, os: seq<Observation>, n: nat, t: Tally, losers: set<nat>)
    requires n < |os| && Tallied(reg, os, n, t, losers) && PairOf(os[n]) !in t.newest
    ensures Tallied(reg, os, n + 1, t.(newest := t.newest[PairOf(os[n]) := n]), losers)
  {
    FirstOfPair(reg, os, n, t.newest, losers);
  }

  /** The tally once `loser` is superseded. */
  function Supersede(t: Tally, newest: map<Pair, nat>, o: Observation): Tally {
    Tally(newest, t.historical + {FingerprintOf(o)}, t.versions + 1, t.retired + {o.derivation})
  }

  lemma SupersedeCounts(os: seq<Observation>, t: Tally, losers: set<nat>, newest: map<Pair, nat>, loser: nat)
    requires loser < |os| && loser !in losers && forall k :: k in losers ==> k < |os|
    requires t.historical == Fingerprints(os, losers) && t.versions == |losers| && t.retired == Derivations(os, losers)
    ensures var u := Supersede(t, newest, os[loser]);
      && u.historical == Fingerprints(os, losers + {loser}) && u.versions == |losers + {loser}|
      && u.retired == Derivations(os, losers + {loser})
  {
  }

  /** The row takes the lead from its pair's leader. */
  lemma Takes(reg: map<DerivationId, Instant>, os: seq<Observation>, n: nat, t: Tally, losers: set<nat>)
    requires n < |os| && Tallied(reg, os, n, t, losers) && PairOf(os[n]) in t.newest
    requires Older(reg, os[t.newest[PairOf(os[n])]].derivation, os[n].derivation)
    ensures var p, i := PairOf(os[n]), t.newest[PairOf(os[n])];
      Tallied(reg, os, n + 1, Supersede(t, t.newest[p := n], os[i]), losers + {i})
  {
    var p, i := PairOf(os[n]), t.newest[PairOf(os[n])];
    Dethroned(reg, os, n, t.newest, losers);
    SupersedeCounts(os, t, losers, t.newest[p := n], i);
  }

  /** The row is superseded at once. */
  lemma Yields(reg: map<DerivationId, Instant>, os: seq<Observation>, n: nat, t: Tally, losers: set<nat>)
    requires Versions(os) && n < |os| && Tallied(reg, os, n, t, losers) && PairOf(os[n]) in t.newest
    requires !Older(reg, os[t.newest[PairOf(os[n])]].derivation, os[n].derivation)
    ensures Tallied(reg, os, n + 1, Supersede(t, t.newest, os[n]), losers + {n})
  {
    Kept(reg, os, n, t.newest, losers);
    SupersedeCounts(os, t, losers, t.newest, n);
  }

  /** One row of the second pass: it opens its pair, takes the lead, or is superseded. */
  method Weigh(reg: map<DerivationId, Instant>, os: seq<Observation>, n: nat, t: Tally, ghost losers: set<nat>)
    returns (after: Tally, ghost lost: set<nat>)
    requires Versions(os) && n < |os| && Tallied(reg, os, n, t, losers)
    ensures Tallied(reg, os, n + 1, after, lost)
  {
    var p := PairOf(os[n]);
    if p !in t.newest {
      Opens(reg, os, n, t, losers);
      return t.(newest := t.newest[p := n]), losers;
    }
    var current := t.newest[p];
    if Older(reg, os[current].derivation, os[n].derivation) {
      Takes(reg, os, n, t, losers);
      return Supersede(t, t.newest[p := n], os[current]), losers + {current};
    }
    Yields(reg, os, n, t, losers);
    return Supersede(t, t.newest, os[n]), losers + {n};
  }

  method Newest(reg: map<DerivationId, Instant>, os: seq<Observation>) returns (t: Tally, ghost losers: set<nat>)
    requires Versions(os)
    ensures Tallied(reg, os, |os|, t, losers)
  {
    t, losers := Tally(map[], {}, 0, {}), {};
    for n := 0 to |os|
      invariant Tallied(reg, os, n, t, losers)
    {
      t, losers := Weigh(reg, os, n, t, losers);
    }
  }

  // ---------------------------------------------------------------- the live side

  /** The observations under the newest derivation of their pair, and the superseded ones. */
  ghost function Leaders(reg: map<DerivationId, Instant>, os: seq<Observation>): set<nat> {
    set i: nat | i < |os| && Leads(reg, os, |os|, i)
  }

  ghost function Superseded(reg: map<DerivationId, Instant>, os: seq<Observation>): set<nat> {
    set i: nat | i < |os| && !Leads(reg, os, |os|, i)
  }

  function Pairs(os: seq<Observation>): set<Pair> {
    set o | o in os :: PairOf(o)
  }

  lemma OneLeader(reg: map<DerivationId, Instant>, os: seq<Observation>, i: nat, j: nat)
    requires i < |os| && j < |os| && PairOf(os[i]) == PairOf(os[j]) && Leads(reg, os, |os|, i)
    requires Leads(reg, os, |os|, j)
    ensures i == j
  {
  }

  lemma LosersAreSuperseded(reg: map<DerivationId, Instant>, os: seq<Observation>, newest: map<Pair, nat>,
                            losers: set<nat>)
    requires Led(reg, os, |os|, newest, losers)
    ensures losers == Superseded(reg, os) && newest.Values == Leaders(reg, os) && newest.Keys == Pairs(os)
  {
    forall i: nat | i < |os| ensures Leads(reg, os, |os|, i) <==> newest[PairOf(os[i])] == i {
      if Leads(reg, os, |os|, i) {
        OneLeader(reg, os, i, newest[PairOf(os[i])]);
      }
    }
    forall i: nat | i in Leaders(reg, os) ensures i in newest.Values {
      assert newest[PairOf(os[i])] == i;
    }
    forall p | p in newest ensures p in Pairs(os) {
      assert os[newest[p]] in os;
    }
  }

  datatype LiveSide = LiveSide(
    expected: set<Fingerprint>,
    historical: set<Fingerprint>,
    historicalVersions: nat,
    historicalDerivations: nat)

  /** What live holds that the replica must reproduce: of each pair the value under the newest
      derivation.  Every compared row is the one of its pair or a historical version. */
  method Live(reg: map<DerivationId, Instant>, os: seq<Observation>) returns (side: LiveSide)
    requires Versions(os)
    ensures side.expected == Fingerprints(os, Leaders(reg, os))
    ensures side.historical == Fingerprints(os, Superseded(reg, os))
    ensures side.historicalVersions == |Superseded(reg, os)|
    ensures side.historicalDerivations == |Derivations(os, Superseded(reg, os))|
    ensures |os| == |Pairs(os)| + side.historicalVersions
  {
    var t;
    ghost var losers;
    t, losers := Newest(reg, os);
    LosersAreSuperseded(reg, os, t.newest, losers);
    var expected := set p | p in t.newest :: FingerprintOf(os[t.newest[p]]);
    assert expected == Fingerprints(os, t.newest.Values);
    side := LiveSide(expected, t.historical, t.versions, |t.retired|);
  }

  // ---------------------------------------------------------------- the comparison

  /** The fingerprints whose pair is, or is not, among `pairs`. */
  function OfPair(fps: set<Fingerprint>, pairs: set<Pair>, known: bool): set<Fingerprint> {
    set fp | fp in fps && (fp.pair in pairs <==> known)
  }

  ghost predicate Holds(os: seq<Observation>, fp: Fingerprint) {
    exists k :: 0 <= k < |os| && FingerprintOf(os[k]) == fp
  }

  /** One more pass over live's rows: each unmatched fingerprint once, by whether its pair is known. */
  method Count(os: seq<Observation>, unmatched: set<Fingerprint>, pairs: set<Pair>)
    returns (missing: nat, diverging: nat)
    requires forall fp :: fp in unmatched ==> Holds(os, fp)
    ensures missing == |OfPair(unmatched, pairs, false)| && diverging == |OfPair(unmatched, pairs, true)|
  {
    missing, diverging := 0, 0;
    var seen: set<Fingerprint> := {};
    for n := 0 to |os|
      invariant seen <= unmatched
      invariant forall k :: 0 <= k < n && FingerprintOf(os[k]) in unmatched ==> FingerprintOf(os[k]) in seen
      invariant missing == |OfPair(seen, pairs, false)| && diverging == |OfPair(seen, pairs, true)|
    {
      var fp := FingerprintOf(os[n]);
      if fp in unmatched && fp !in seen {
        CountOne(seen, fp, pairs);
        seen := seen + {fp};
        if fp.pair in pairs {
          diverging := diverging + 1;
        } else {
          missing := missing + 1;
        }
      }
    }
    assert seen == unmatched by {
      forall fp | fp in unmatched ensures fp in seen {
        assert Holds(os, fp);
      }
    }
  }

  lemma CountOne(seen: set<Fingerprint>, fp: Fingerprint, pairs: set<Pair>)
    requires fp !in seen
    ensures |OfPair(seen + {fp}, pairs, true)| == |OfPair(seen, pairs, true)| + if fp.pair in pairs then 1 else 0
    ensures |OfPair(seen + {fp}, pairs, false)| == |OfPair(seen, pairs, false)| + if fp.pair in pairs then 0 else 1
  {
    var known := fp.pair in pairs;
    assert OfPair(seen + {fp}, pairs, known) == OfPair(seen, pairs, known) + {fp};
    assert OfPair(seen + {fp}, pairs, !known) == OfPair(seen, pairs, !known);
  }

  datatype Split = Split(matched: nat, sibling: nat, missing: nat, diverging: nat)

  /** Expected versions split exactly: reproduced by the target itself, reproduced by a sibling,
      missing, or present with another value. */
  method Divide(os: seq<Observation>, expected: set<Fingerprint>, own: set<Fingerprint>, group: set<Fingerprint>,
                pairs: set<Pair>)
    returns (split: Split)
    requires own <= group && forall fp :: fp in expected ==> Holds(os, fp)
    ensures split.matched == |expected * own| && split.sibling == |(expected - own) * group|
    ensures split.missing == |OfPair(expected - group, pairs, false)|
    ensures split.diverging == |OfPair(expected - group, pairs, true)|
    ensures |expected| == split.matched + split.sibling + split.missing + split.diverging
  {
    var unmatched := expected - own;
    var sibling := unmatched * group;
    unmatched := unmatched - sibling;
    assert unmatched == expected - group;
    var missing, diverging := Count(os, unmatched, pairs);
    SplitsAll(expected, own, group, pairs);
    split := Split(|expected * own|, |sibling|, missing, diverging);
  }

  lemma SplitsAll(expected: set<Fingerprint>, own: set<Fingerprint>, group: set<Fingerprint>, pairs: set<Pair>)
    requires own <= group
    ensures |expected| == |expected * own| + |(expected - own) * group|
                          + |OfPair(expected - group, pairs, false)| + |OfPair(expected - group, pairs, true)|
  {
    var sibling := (expected - own) * group;
    var missing, diverging := OfPair(expected - group, pairs, false), OfPair(expected - group, pairs, true);
    assert expected == expected * own + sibling + (missing + diverging);
    assert expected - group == missing + diverging;
  }

  /** Nothing missing and nothing diverging is the same as every expected version reproduced. */
  lemma NothingAbsent(expected: set<Fingerprint>, group: set<Fingerprint>, pairs: set<Pair>)
    ensures |OfPair(expected - group, pairs, false)| == 0 && |OfPair(expected - group, pairs, true)| == 0 <==>
      expected <= group
  {
    var missing, diverging := OfPair(expected - group, pairs, false), OfPair(expected - group, pairs, true);
    if expected <= group {
      assert missing == {} && diverging == {};
    }
    if missing == {} && diverging == {} {
      forall fp | fp in expected ensures fp in group {
        assert fp in group || fp in missing || fp in diverging;
      }
    }
  }

  // ---------------------------------------------------------------- processed runs

  /** A processed run whose capture no decision rules out under the running derivation. */
  predicate Counted(s: State, target: TargetId, d: DerivationId, r: nat) {
    && r < |s.runs| && s.runs[r].target == target && s.runs[r].state == Processed
    && !(s.runs[r].capture.Some? && IsInvalidated(s.invalidations, s.runs[r].capture.value, d))
  }

  /** Attempt `k` tells when the capture of run `r` was there: the capture attempt that recorded
      it, or, for a run that has none, a process attempt. */
  predicate Dates(s: State, r: nat, k: nat, recorded: bool)
    requires r < |s.runs| && k < |s.attempts|
  {
    && s.attempts[k].run == r
    && if recorded then s.attempts[k].kind == CaptureAttempt && s.attempts[k].capture == s.runs[r].capture
       else s.attempts[k].kind == ProcessAttempt
  }

  predicate HasRecord(s: State, r: nat)
    requires r < |s.runs|
  {
    exists k :: 0 <= k < |s.attempts| && Dates(s, r, k, true)
  }

  /** The capture of run `r` existed when the replica's newest entry was fetched. */
  predicate Reached(s: State, ids: set<CaptureId>, bound: Option<Instant>, r: nat)
    requires r < |s.runs|
  {
    || bound.None? || (s.runs[r].capture.Some? && s.runs[r].capture.value in ids)
    || exists k :: 0 <= k < |s.attempts| && Dates(s, r, k, HasRecord(s, r)) && s.attempts[k].startedAt <= bound.value
  }

  /** The earliest start of the attempts that date run `r`. */
  method FirstStart(s: State, r: nat, recorded: bool) returns (first: Option<Instant>)
    requires r < |s.runs|
    ensures first.None? <==> forall k :: 0 <= k < |s.attempts| ==> !Dates(s, r, k, recorded)
    ensures first.Some? ==>
      forall k :: 0 <= k < |s.attempts| && Dates(s, r, k, recorded) ==> first.value <= s.attempts[k].startedAt
    ensures first.Some? ==>
      exists k :: 0 <= k < |s.attempts| && Dates(s, r, k, recorded) && s.attempts[k].startedAt == first.value
  {
    first := None;
    for n := 0 to |s.attempts|
      invariant first.None? <==> forall k :: 0 <= k < n ==> !Dates(s, r, k, recorded)
      invariant first.Some? ==>
        forall k :: 0 <= k < n && Dates(s, r, k, recorded) ==> first.value <= s.attempts[k].startedAt
      invariant first.Some? ==>
        exists k :: 0 <= k < n && Dates(s, r, k, recorded) && s.attempts[k].startedAt == first.value
    {
      if Dates(s, r, n, recorded) && (first.None? || s.attempts[n].startedAt < first.value) {
        first := Some(s.attempts[n].startedAt);
      }
    }
  }

  ghost function RunsSeen(s: State, target: TargetId, d: DerivationId, ids: set<CaptureId>, bound: Option<Instant>,
                          n: nat, reached: bool): set<nat>
    requires n <= |s.runs|
  {
    set r: nat | r < n && Counted(s, target, d, r) && (Reached(s, ids, bound, r) <==> reached)
  }

  /** Processed runs of live, divided into those the replica must have and those newer than it. */
  method CountRuns(s: State, target: TargetId, d: DerivationId, ids: set<CaptureId>, bound: Option<Instant>)
    returns (processed: nat, lagging: nat)
    ensures processed == |RunsSeen(s, target, d, ids, bound, |s.runs|, true)|
    ensures lagging == |RunsSeen(s, target, d, ids, bound, |s.runs|, false)|
  {
    processed, lagging := 0, 0;
    for n := 0 to |s.runs|
      invariant processed == |RunsSeen(s, target, d, ids, bound, n, true)|
      invariant lagging == |RunsSeen(s, target, d, ids, bound, n, false)|
    {
      var run := s.runs[n];
      NextRun(s, target, d, ids, bound, n, true);
      NextRun(s, target, d, ids, bound, n, false);
      if run.target == target && run.state == Processed
         && !(run.capture.Some? && IsInvalidated(s.invalidations, run.capture.value, d)) {
        var reached := IsReached(s, ids, bound, n);
        if reached {
          processed := processed + 1;
        } else {
          lagging := lagging + 1;
        }
      }
    }
  }

  method IsReached(s: State, ids: set<CaptureId>, bound: Option<Instant>, r: nat) returns (reached: bool)
    requires r < |s.runs|
    ensures reached == Reached(s, ids, bound, r)
  {
    if (s.runs[r].capture.Some? && s.runs[r].capture.value in ids) || bound.None? {
      return true;
    }
    var first := FirstStart(s, r, true);
    assert first.Some? <==> HasRecord(s, r);
    if first.None? {
      first := FirstStart(s, r, false);
    }
    return first.Some? && first.value <= bound.value;
  }

  lemma NextRun(s: State, target: TargetId, d: DerivationId, ids: set<CaptureId>, bound: Option<Instant>, n: nat,
                reached: bool)
    requires n < |s.runs|
    ensures |RunsSeen(s, target, d, ids, bound, n + 1, reached)| == |RunsSeen(s, target, d, ids, bound, n, reached)|
            + if Counted(s, target, d, n) && (Reached(s, ids, bound, n) <==> reached) then 1 else 0
  {
    var before := RunsSeen(s, target, d, ids, bound, n, reached);
    var after := RunsSeen(s, target, d, ids, bound, n + 1, reached);
    assert n !in before;
    assert after == before + if Counted(s, target, d, n) && (Reached(s, ids, bound, n) <==> reached) then {n} else {};
  }

  // ---------------------------------------------------------------- the verdict

  /** Live's compared observations, against a replica listing. */
  function LiveRows(live: State, feed: Feed, target: TargetId, es: seq<CaptureEntry>): seq<Observation> {
    ComparedRows(live, feed, target, Bound(es), |live.silver.rows|)
  }

  function OwnPrints(s: State, feed: Feed, target: TargetId): (fps: set<Fingerprint>)
    ensures forall fp :: fp in fps <==> exists i: nat :: OwnRow(s, feed, target, i)
                                          && Prints(s.silver.rows[i].observation, fp)
  {
    set i: nat | i < |s.silver.rows| && Own(s, feed, target, i) :: FingerprintOf(s.silver.rows[i].observation)
  }

  function GroupPrints(s: State, feed: Feed): (fps: set<Fingerprint>)
    ensures forall fp :: fp in fps <==> exists i: nat :: GroupRow(s, feed, i)
                                          && Prints(s.silver.rows[i].observation, fp)
  {
    set i: nat | i < |s.silver.rows| && InGroup(s, feed, i) :: FingerprintOf(s.silver.rows[i].observation)
  }

  function GroupPairs(s: State, feed: Feed): (pairs: set<Pair>)
    ensures forall p :: p in pairs <==> exists i: nat :: GroupRow(s, feed, i)
                                          && s.silver.rows[i].observation.identity == p.identity
                                          && s.silver.rows[i].observation.payload == p.payload
  {
    set i: nat | i < |s.silver.rows| && InGroup(s, feed, i) :: PairOf(s.silver.rows[i].observation)
  }

  /** Fingerprint `fp` is that of the observation. */
  ghost predicate Prints(o: Observation, fp: Fingerprint) {
    fp.pair.identity == o.identity && fp.pair.payload == o.payload && fp.value == o.value
  }

  /** Row `i` is of the dataset and transport. */
  ghost predicate GroupRow(s: State, feed: Feed, i: nat) {
    && i < |s.silver.rows| && s.silver.rows[i].observation.identity.dataset == feed.dataset
    && s.silver.rows[i].observation.transport == feed.transport
  }

  /** And an attempt on one of the target's runs stored it, from a capture that nothing rules out. */
  ghost predicate OwnRow(s: State, feed: Feed, target: TargetId, i: nat) {
    && GroupRow(s, feed, i)
    && var o, k := s.silver.rows[i].observation, s.silver.rows[i].attempt;
       && k < |s.attempts| && s.attempts[k].capture.Some?
       && s.attempts[k].run < |s.runs| && s.runs[s.attempts[k].run].target == target
       && Decision(s.attempts[k].capture.value, None) !in s.invalidations
       && Decision(s.attempts[k].capture.value, Some(o.derivation)) !in s.invalidations
  }

  function ProcessedRuns(s: State, target: TargetId): set<nat> {
    set r: nat | r < |s.runs| && s.runs[r].target == target && s.runs[r].state == Processed
  }

  datatype DrillReport = DrillReport(
    side: LiveSide,
    split: Split,
    extra: nat,
    scratchProcessed: nat,
    processed: nat,
    lagging: nat,
    ok: bool)

  /** The value of the leader of observation `i`'s pair is among `group`. */
  ghost predicate LeaderIn(reg: map<DerivationId, Instant>, os: seq<Observation>, i: nat, group: set<Fingerprint>)
    requires i < |os|
  {
    exists k: nat :: Leads(reg, os, |os|, k) && PairOf(os[k]) == PairOf(os[i]) && FingerprintOf(os[k]) in group
  }

  /** Every compared row of live has its pair in the rebuild, with the value live's newest
      derivation gives it. */
  ghost predicate Reproduced(live: State, scratch: State, feed: Feed, target: TargetId, es: seq<CaptureEntry>) {
    var os := LiveRows(live, feed, target, es);
    forall i :: 0 <= i < |os| ==> LeaderIn(live.derivations, os, i, GroupPrints(scratch, feed))
  }

  // ---------------------------------------------------------------- the verdict, in the stored rows' own terms

  /** The replica has to reproduce row `i` of live: it is the target's own and, unless the replica is empty,
      some entry of the replica was fetched no earlier. */
  ghost predicate ToReproduce(live: State, feed: Feed, target: TargetId, es: seq<CaptureEntry>, i: nat) {
    && OwnRow(live, feed, target, i)
    && (es == [] || exists e :: e in es && live.silver.rows[i].observation.fetchedAt <= e.fetchedAt)
  }

  ghost predicate SamePair(a: Observation, b: Observation) {
    a.identity == b.identity && a.payload == b.payload
  }

  /** `b` was registered after `a`, or, registered alike, has the greater id. */
  ghost predicate Later(reg: map<DerivationId, Instant>, a: DerivationId, b: DerivationId) {
    if a in reg && b in reg then reg[a] < reg[b] || (reg[a] == reg[b] && a < b)
    else if a in reg then false
    else b in reg || a < b
  }

  /** Row `k` is the one of row `i`'s identity and payload under the derivation registered last. */
  ghost predicate Decides(live: State, feed: Feed, target: TargetId, es: seq<CaptureEntry>, i: nat, k: nat)
    requires i < |live.silver.rows|
  {
    && ToReproduce(live, feed, target, es, k)
    && SamePair(live.silver.rows[i].observation, live.silver.rows[k].observation)
    && forall j: nat :: j != k && ToReproduce(live, feed, target, es, j)
                        && SamePair(live.silver.rows[i].observation, live.silver.rows[j].observation) ==>
                          Later(live.derivations, live.silver.rows[j].observation.derivation,
                                live.silver.rows[k].observation.derivation)
  }

  /** The rebuilt ledger holds a row of the dataset and transport with that identity, payload and value. */
  ghost predicate Rebuilt(scratch: State, feed: Feed, o: Observation) {
    exists j :: 0 <= j < |scratch.silver.rows|
      && var p := scratch.silver.rows[j].observation;
         && p.identity.dataset == feed.dataset && p.transport == feed.transport
         && p.identity == o.identity && p.payload == o.payload && p.value == o.value
  }

  /** Row `i` of live has its identity and payload in the rebuild, with the deciding row's value. */
  ghost predicate Answered(live: State, scratch: State, feed: Feed, target: TargetId, es: seq<CaptureEntry>, i: nat)
    requires i < |live.silver.rows|
  {
    exists k: nat :: Decides(live, feed, target, es, i, k) && Rebuilt(scratch, feed, live.silver.rows[k].observation)
  }

  ghost predicate AllAnswered(live: State, scratch: State, feed: Feed, target: TargetId, es: seq<CaptureEntry>) {
    forall i: nat :: ToReproduce(live, feed, target, es, i) ==> Answered(live, scratch, feed, target, es, i)
  }

  lemma ToReproduceIsCompared(live: State, feed: Feed, target: TargetId, es: seq<CaptureEntry>, i: nat)
    ensures ToReproduce(live, feed, target, es, i) <==> Compared(live, feed, target, Bound(es), i)
  {
  }

  /** The row behind a compared observation. */
  lemma RowOf(live: State, feed: Feed, target: TargetId, es: seq<CaptureEntry>, n: nat) returns (i: nat)
    requires n < |LiveRows(live, feed, target, es)|
    ensures ToReproduce(live, feed, target, es, i)
    ensures live.silver.rows[i].observation == LiveRows(live, feed, target, es)[n]
  {
    var os := LiveRows(live, feed, target, es);
    assert os[n] in os;
    i :| 0 <= i < |live.silver.rows| && Compared(live, feed, target, Bound(es), i)
      && live.silver.rows[i].observation == os[n];
    ToReproduceIsCompared(live, feed, target, es, i);
  }

  /** And the compared observation of a row. */
  lemma IndexOf(live: State, feed: Feed, target: TargetId, es: seq<CaptureEntry>, i: nat) returns (n: nat)
    requires ToReproduce(live, feed, target, es, i)
    ensures n < |LiveRows(live, feed, target, es)|
    ensures LiveRows(live, feed, target, es)[n] == live.silver.rows[i].observation
  {
    ToReproduceIsCompared(live, feed, target, es, i);
    var os := LiveRows(live, feed, target, es);
    assert live.silver.rows[i].observation in os;
    n :| 0 <= n < |os| && os[n] == live.silver.rows[i].observation;
  }

  /** The leader of a pair is the row that decides it, and the other way round. */
  lemma LeaderDecides(live: State, feed: Feed, target: TargetId, es: seq<CaptureEntry>, i: nat, k: nat, n: nat)
    requires Silver.Unique(live.silver.rows) && ToReproduce(live, feed, target, es, i)
    requires ToReproduce(live, feed, target, es, k)
    requires n < |LiveRows(live, feed, target, es)|
    requires LiveRows(live, feed, target, es)[n] == live.silver.rows[k].observation
    requires SamePair(live.silver.rows[i].observation, live.silver.rows[k].observation)
    requires Leads(live.derivations, LiveRows(live, feed, target, es), |LiveRows(live, feed, target, es)|, n)
    ensures Decides(live, feed, target, es, i, k)
  {
    var os := LiveRows(live, feed, target, es);
    forall j: nat | j != k && ToReproduce(live, feed, target, es, j)
                    && SamePair(live.silver.rows[i].observation, live.silver.rows[j].observation)
      ensures Later(live.derivations, live.silver.rows[j].observation.derivation,
                    live.silver.rows[k].observation.derivation)
    {
      var m := IndexOf(live, feed, target, es, j);
      assert VersionOf(os[m]) != VersionOf(os[n]);
      assert Older(live.derivations, os[m].derivation, os[n].derivation);
    }
  }

  lemma DecidesLeads(live: State, feed: Feed, target: TargetId, es: seq<CaptureEntry>, i: nat, k: nat, n: nat)
    requires Silver.Unique(live.silver.rows) && i < |live.silver.rows| && Decides(live, feed, target, es, i, k)
    requires n < |LiveRows(live, feed, target, es)|
    requires LiveRows(live, feed, target, es)[n] == live.silver.rows[k].observation
    ensures Leads(live.derivations, LiveRows(live, feed, target, es), |LiveRows(live, feed, target, es)|, n)
  {
    var os := LiveRows(live, feed, target, es);
    ComparedVersions(live, feed, target, Bound(es), |live.silver.rows|);
    forall m | 0 <= m < |os| && m != n && PairOf(os[m]) == PairOf(os[n])
      ensures Older(live.derivations, os[m].derivation, os[n].derivation)
    {
      var j := RowOf(live, feed, target, es, m);
      assert VersionOf(os[m]) != VersionOf(os[n]);
      assert Later(live.derivations, live.silver.rows[j].observation.derivation,
                   live.silver.rows[k].observation.derivation);
    }
  }

  lemma RebuiltIsGroup(scratch: State, feed: Feed, o: Observation)
    ensures Rebuilt(scratch, feed, o) <==> FingerprintOf(o) in GroupPrints(scratch, feed)
  {
    if FingerprintOf(o) in GroupPrints(scratch, feed) {
      var j :| 0 <= j < |scratch.silver.rows| && InGroup(scratch, feed, j)
        && FingerprintOf(scratch.silver.rows[j].observation) == FingerprintOf(o);
    }
    if Rebuilt(scratch, feed, o) {
      var j :| 0 <= j < |scratch.silver.rows|
        && var p := scratch.silver.rows[j].observation;
           && p.identity.dataset == feed.dataset && p.transport == feed.transport
           && p.identity == o.identity && p.payload == o.payload && p.value == o.value;
      assert InGroup(scratch, feed, j) && FingerprintOf(scratch.silver.rows[j].observation) == FingerprintOf(o);
    }
  }

  lemma LeaderInIsAnswered(live: State, scratch: State, feed: Feed, target: TargetId, es: seq<CaptureEntry>, i: nat,
                           n: nat)
    requires Silver.Unique(live.silver.rows) && ToReproduce(live, feed, target, es, i)
    requires n < |LiveRows(live, feed, target, es)|
    requires LiveRows(live, feed, target, es)[n] == live.silver.rows[i].observation
    ensures LeaderIn(live.derivations, LiveRows(live, feed, target, es), n, GroupPrints(scratch, feed)) <==>
            Answered(live, scratch, feed, target, es, i)
  {
    var os, group := LiveRows(live, feed, target, es), GroupPrints(scratch, feed);
    if LeaderIn(live.derivations, os, n, group) {
      var m: nat :| Leads(live.derivations, os, |os|, m) && PairOf(os[m]) == PairOf(os[n])
        && FingerprintOf(os[m]) in group;
      var k := RowOf(live, feed, target, es, m);
      LeaderDecides(live, feed, target, es, i, k, m);
      RebuiltIsGroup(scratch, feed, live.silver.rows[k].observation);
    }
    if Answered(live, scratch, feed, target, es, i) {
      var k: nat :| Decides(live, feed, target, es, i, k) && Rebuilt(scratch, feed, live.silver.rows[k].observation);
      var m := IndexOf(live, feed, target, es, k);
      DecidesLeads(live, feed, target, es, i, k, m);
      RebuiltIsGroup(scratch, feed, live.silver.rows[k].observation);
    }
  }

  /** Reproduced, said of the stored rows: every row that the replica has to reproduce is answered, and a row
      that is newer than the replica makes no difference. */
  lemma ReproducedIffAnswered(live: State, scratch: State, feed: Feed, target: TargetId, es: seq<CaptureEntry>)
    requires Silver.Unique(live.silver.rows)
    ensures Reproduced(live, scratch, feed, target, es) <==> AllAnswered(live, scratch, feed, target, es)
  {
    var os, group := LiveRows(live, feed, target, es), GroupPrints(scratch, feed);
    if Reproduced(live, scratch, feed, target, es) {
      forall i: nat | ToReproduce(live, feed, target, es, i) ensures Answered(live, scratch, feed, target, es, i) {
        var n := IndexOf(live, feed, target, es, i);
        assert LeaderIn(live.derivations, os, n, group);
        LeaderInIsAnswered(live, scratch, feed, target, es, i, n);
      }
    }
    if AllAnswered(live, scratch, feed, target, es) {
      forall n | 0 <= n < |os| ensures LeaderIn(live.derivations, os, n, group) {
        var i := RowOf(live, feed, target, es, n);
        LeaderInIsAnswered(live, scratch, feed, target, es, i, n);
      }
    }
  }

  /** The start of attempt `k` tells when the capture of run `r` was there: it is the capture attempt that
      recorded it or, for a run without one, a process attempt. */
  ghost predicate Tells(s: State, r: nat, k: nat)
    requires r < |s.runs| && k < |s.attempts|
  {
    && s.attempts[k].run == r
    && if exists l :: 0 <= l < |s.attempts| && s.attempts[l].run == r && s.attempts[l].kind == CaptureAttempt
                      && s.attempts[l].capture == s.runs[r].capture
       then s.attempts[k].kind == CaptureAttempt && s.attempts[k].capture == s.runs[r].capture
       else s.attempts[k].kind == ProcessAttempt
  }

  /** Run `r` of live was there when the replica's newest entry was fetched: the replica has its capture, or
      an attempt that tells started no later than some entry was fetched. */
  ghost predicate Old(s: State, es: seq<CaptureEntry>, r: nat)
    requires r < |s.runs|
  {
    || es == []
    || (exists e :: e in es && s.runs[r].capture == Some(e.id))
    || exists k, e :: 0 <= k < |s.attempts| && Tells(s, r, k) && e in es && s.attempts[k].startedAt <= e.fetchedAt
  }

  /** A processed run of the target whose capture nothing rules out under the running derivation. */
  ghost predicate Stands(s: State, target: TargetId, d: DerivationId, r: nat) {
    && r < |s.runs| && s.runs[r].target == target && s.runs[r].state == Processed
    && (s.runs[r].capture.Some? ==>
          && Decision(s.runs[r].capture.value, None) !in s.invalidations
          && Decision(s.runs[r].capture.value, Some(d)) !in s.invalidations)
  }

  lemma TellsIsDates(s: State, r: nat)
    requires r < |s.runs|
    ensures forall k :: 0 <= k < |s.attempts| ==> (Tells(s, r, k) <==> Dates(s, r, k, HasRecord(s, r)))
  {
    if l :| 0 <= l < |s.attempts| && s.attempts[l].run == r && s.attempts[l].kind == CaptureAttempt
            && s.attempts[l].capture == s.runs[r].capture
    {
      assert Dates(s, r, l, true);
    }
  }

  lemma OldIsReached(s: State, es: seq<CaptureEntry>, r: nat)
    requires r < |s.runs|
    ensures Old(s, es, r) <==> Reached(s, set e | e in es :: e.id, Bound(es), r)
  {
    var bound := Bound(es);
    TellsIsDates(s, r);
    if Old(s, es, r) && es != [] && !exists e :: e in es && s.runs[r].capture == Some(e.id) {
      var k, e :| 0 <= k < |s.attempts| && Tells(s, r, k) && e in es && s.attempts[k].startedAt <= e.fetchedAt;
      assert Dates(s, r, k, HasRecord(s, r)) && s.attempts[k].startedAt <= bound.value;
    }
    if Reached(s, set e | e in es :: e.id, bound, r) && es != [] {
      if k :| 0 <= k < |s.attempts| && Dates(s, r, k, HasRecord(s, r)) && s.attempts[k].startedAt <= bound.value {
        var e :| e in es && e.fetchedAt == bound.value;
        assert Tells(s, r, k) && s.attempts[k].startedAt <= e.fetchedAt;
      }
    }
  }

  /** The counted runs, said of the stored runs and attempts. */
  lemma RunsSeenAre(s: State, target: TargetId, d: DerivationId, es: seq<CaptureEntry>)
    ensures var ids := set e | e in es :: e.id;
      && RunsSeen(s, target, d, ids, Bound(es), |s.runs|, true)
         == (set r: nat | r < |s.runs| && Stands(s, target, d, r) && Old(s, es, r))
      && RunsSeen(s, target, d, ids, Bound(es), |s.runs|, false)
         == (set r: nat | r < |s.runs| && Stands(s, target, d, r) && !Old(s, es, r))
  {
    forall r: nat | r < |s.runs|
      ensures Old(s, es, r) <==> Reached(s, set e | e in es :: e.id, Bound(es), r)
    {
      OldIsReached(s, es, r);
    }
  }

  /** Some row to reproduce that decides, or does not decide, its pair has that fingerprint. */
  ghost predicate RowPrints(live: State, feed: Feed, target: TargetId, es: seq<CaptureEntry>, fp: Fingerprint,
                            decides: bool)
  {
    exists i: nat :: ToReproduce(live, feed, target, es, i) && Prints(live.silver.rows[i].observation, fp)
      && (Decides(live, feed, target, es, i, i) <==> decides)
  }

  /** What is expected of the replica are the values of the deciding rows; the others leave the historical
      ones. */
  lemma ExpectedAre(live: State, feed: Feed, target: TargetId, es: seq<CaptureEntry>, fp: Fingerprint)
    requires Silver.Unique(live.silver.rows)
    ensures var os := LiveRows(live, feed, target, es);
      && (fp in Fingerprints(os, Leaders(live.derivations, os)) <==> RowPrints(live, feed, target, es, fp, true))
      && (fp in Fingerprints(os, Superseded(live.derivations, os)) <==> RowPrints(live, feed, target, es, fp, false))
  {
    var os := LiveRows(live, feed, target, es);
    forall n: nat | n < |os| && FingerprintOf(os[n]) == fp
      ensures RowPrints(live, feed, target, es, fp, Leads(live.derivations, os, |os|, n))
    {
      var i := RowOf(live, feed, target, es, n);
      DecidesSelf(live, feed, target, es, i, n);
    }
    forall i: nat | ToReproduce(live, feed, target, es, i) && Prints(live.silver.rows[i].observation, fp)
      ensures if Decides(live, feed, target, es, i, i) then fp in Fingerprints(os, Leaders(live.derivations, os))
              else fp in Fingerprints(os, Superseded(live.derivations, os))
    {
      var n := IndexOf(live, feed, target, es, i);
      DecidesSelf(live, feed, target, es, i, n);
      assert n in Leaders(live.derivations, os) || n in Superseded(live.derivations, os);
    }
  }

  lemma DecidesSelf(live: State, feed: Feed, target: TargetId, es: seq<CaptureEntry>, i: nat, n: nat)
    requires Silver.Unique(live.silver.rows) && ToReproduce(live, feed, target, es, i)
    requires n < |LiveRows(live, feed, target, es)|
    requires LiveRows(live, feed, target, es)[n] == live.silver.rows[i].observation
    ensures var os := LiveRows(live, feed, target, es);
      Leads(live.derivations, os, |os|, n) <==> Decides(live, feed, target, es, i, i)
  {
    var os := LiveRows(live, feed, target, es);
    if Leads(live.derivations, os, |os|, n) {
      LeaderDecides(live, feed, target, es, i, i, n);
    }
    if Decides(live, feed, target, es, i, i) {
      DecidesLeads(live, feed, target, es, i, i, n);
    }
  }

  /** The comparison of one target: `failed` runs could not be processed from the replica. */
  method Compare(live: State, scratch: State, feed: Feed, target: TargetId, d: DerivationId, es: seq<CaptureEntry>,
                 failed: nat)
    returns (report: DrillReport)
    requires Silver.Unique(live.silver.rows)
    ensures var os := LiveRows(live, feed, target, es);
      && report.side.expected == Fingerprints(os, Leaders(live.derivations, os))
      && report.side.historicalVersions == |Superseded(live.derivations, os)|
      && |os| == |Pairs(os)| + report.side.historicalVersions
    ensures var x, g := report.side.expected, GroupPrints(scratch, feed);
      && report.split.matched == |x * OwnPrints(scratch, feed, target)|
      && report.split.sibling == |(x - OwnPrints(scratch, feed, target)) * g|
      && report.split.missing == |OfPair(x - g, GroupPairs(scratch, feed), false)|
      && report.split.diverging == |OfPair(x - g, GroupPairs(scratch, feed), true)|
      && |x| == report.split.matched + report.split.sibling + report.split.missing + report.split.diverging
    ensures report.split.missing == 0 && report.split.diverging == 0 <==> Reproduced(live, scratch, feed, target, es)
    ensures report.ok <==>
      failed == 0 && report.processed <= report.scratchProcessed && Reproduced(live, scratch, feed, target, es)
    ensures report.scratchProcessed == |ProcessedRuns(scratch, target)|
    ensures var ids := set e | e in es :: e.id;
      && report.processed == |RunsSeen(live, target, d, ids, Bound(es), |live.runs|, true)|
      && report.lagging == |RunsSeen(live, target, d, ids, Bound(es), |live.runs|, false)|
    ensures report.extra == |OwnPrints(scratch, feed, target) - report.side.expected - report.side.historical|
    ensures report.split.missing == 0 && report.split.diverging == 0 <==> AllAnswered(live, scratch, feed, target, es)
    ensures report.processed == |set r: nat | r < |live.runs| && Stands(live, target, d, r) && Old(live, es, r)|
    ensures report.lagging == |set r: nat | r < |live.runs| && Stands(live, target, d, r) && !Old(live, es, r)|
    ensures report.scratchProcessed ==
      |set r: nat | r < |scratch.runs| && scratch.runs[r].target == target && scratch.runs[r].state == Processed|
    ensures report.ok <==>
      failed == 0 && report.processed <= report.scratchProcessed && AllAnswered(live, scratch, feed, target, es)
  {
    ReproducedIffAnswered(live, scratch, feed, target, es);
    RunsSeenAre(live, target, d, es);
    var os := LiveRows(live, feed, target, es);
    ComparedVersions(live, feed, target, Bound(es), |live.silver.rows|);
    var side := Live(live.derivations, os);
    var own, group, pairs := OwnPrints(scratch, feed, target), GroupPrints(scratch, feed), GroupPairs(scratch, feed);
    var split := Divide(os, side.expected, own, group, pairs);
    var ids := set e | e in es :: e.id;
    var processed, lagging := CountRuns(live, target, d, ids, Bound(es));
    var scratchProcessed := |ProcessedRuns(scratch, target)|;
    NothingAbsent(side.expected, group, pairs);
    ExpectedIsReproduced(live.derivations, os, group);
    var ok := failed == 0 && scratchProcessed >= processed && split.missing == 0 && split.diverging == 0;
    report := DrillReport(side, split, |own - side.expected - side.historical|, scratchProcessed, processed, lagging,
                          ok);
  }

  /** Every pair has a leader. */
  lemma HasLeader(reg: map<DerivationId, Instant>, os: seq<Observation>, i: nat) returns (k: nat)
    requires Versions(os) && i < |os|
    ensures Leads(reg, os, |os|, k) && PairOf(os[k]) == PairOf(os[i])
  {
    var newest, losers := LeaderMap(reg, os, |os|);
    k := newest[PairOf(os[i])];
  }

  lemma {:induction false} LeaderMap(reg: map<DerivationId, Instant>, os: seq<Observation>, n: nat)
    returns (newest: map<Pair, nat>, losers: set<nat>)
    requires Versions(os) && n <= |os|
    ensures Led(reg, os, n, newest, losers)
  {
    newest, losers := map[], {};
    if n > 0 {
      newest, losers := LeaderMap(reg, os, n - 1);
      var p := PairOf(os[n - 1]);
      if p !in newest {
        FirstOfPair(reg, os, n - 1, newest, losers);
        newest := newest[p := n - 1];
      } else if Older(reg, os[newest[p]].derivation, os[n - 1].derivation) {
        Dethroned(reg, os, n - 1, newest, losers);
        newest, losers := newest[p := n - 1], losers + {newest[p]};
      } else {
        Kept(reg, os, n - 1, newest, losers);
        losers := losers + {n - 1};
      }
    }
  }

  lemma ExpectedIsReproduced(reg: map<DerivationId, Instant>, os: seq<Observation>, group: set<Fingerprint>)
    requires Versions(os)
    ensures Fingerprints(os, Leaders(reg, os)) <= group <==>
      forall i :: 0 <= i < |os| ==> LeaderIn(reg, os, i, group)
  {
    var expected := Fingerprints(os, Leaders(reg, os));
    if expected <= group {
      forall i | 0 <= i < |os|
        ensures LeaderIn(reg, os, i, group)
      {
        var k := HasLeader(reg, os, i);
        assert k in Leaders(reg, os) && FingerprintOf(os[k]) in expected;
      }
    }
    if forall i :: 0 <= i < |os| ==> LeaderIn(reg, os, i, group) {
      forall fp | fp in expected ensures fp in group {
        var i :| i in Leaders(reg, os) && FingerprintOf(os[i]) == fp;
        assert LeaderIn(reg, os, i, group);
        var k: nat :| Leads(reg, os, |os|, k) && PairOf(os[k]) == PairOf(os[i]) && FingerprintOf(os[k]) in group;
        OneLeader(reg, os, i, k);
      }
    }
  }

  /** What a reproduced target means, row by row: each compared row of live has a row in the rebuilt
      group for the same identity and payload, holding the value that live's newest derivation of
      that pair gives. */
  lemma ReproducedMeansValues(live: State, scratch: State, feed: Feed, target: TargetId, es: seq<CaptureEntry>, i: nat)
    returns (k: nat, j: nat)
    requires Reproduced(live, scratch, feed, target, es) && Compared(live, feed, target, Bound(es), i)
    ensures var os := LiveRows(live, feed, target, es);
      && Leads(live.derivations, os, |os|, k) && j < |scratch.silver.rows|
      && var row, lead, found := live.silver.rows[i].observation, os[k], scratch.silver.rows[j].observation;
         && lead.identity == row.identity == found.identity && lead.payload == row.payload == found.payload
         && found.value == lead.value
         && found.identity.dataset == feed.dataset && found.transport == feed.transport
  {
    var os := LiveRows(live, feed, target, es);
    assert live.silver.rows[i].observation in os;
    var n :| 0 <= n < |os| && os[n] == live.silver.rows[i].observation;
    assert LeaderIn(live.derivations, os, n, GroupPrints(scratch, feed));
    k :| Leads(live.derivations, os, |os|, k) && PairOf(os[k]) == PairOf(os[n])
      && FingerprintOf(os[k]) in GroupPrints(scratch, feed);
    j :| j < |scratch.silver.rows| && InGroup(scratch, feed, j)
      && FingerprintOf(scratch.silver.rows[j].observation) == FingerprintOf(os[k]);
  }
}
