/** `Bronze.capture` as the retry loop it is, while other writers create entries between its calls. */
module BronzeStore {
  import opened Types
  import opened CaptureLog
  import CaptureRace

  datatype CaptureOutcome = Recorded(entry: CaptureEntry, created: bool) | Refused | Collided

  /** The newest entry of an instant's listing. */
  function Last(es: seq<CaptureEntry>): Option<CaptureEntry> {
    if es == [] then None else Some(es[|es| - 1])
  }

  ghost predicate IdsOk(log: map<CaptureId, CaptureEntry>) {
    forall c :: c in log ==> log[c].id == c
  }

  ghost predicate Keeps(before: map<CaptureId, CaptureEntry>, after: map<CaptureId, CaptureEntry>) {
    forall c :: c in before ==> c in after && after[c] == before[c]
  }

  /** The highest attempt is unique, so the listing names it. */
  lemma ListedIsNewest(log: map<CaptureId, CaptureEntry>, target: TargetId, t: Instant, es: seq<CaptureEntry>)
    requires Listing(log, target, Some(t), Some(t + 1), es) && IdsOk(log)
    requires CaptureRace.NoHoles(log)
    ensures CaptureRace.Highest(log, target, t) == if es == [] then 0 else es[|es| - 1].id.attempt
    ensures CaptureRace.Newest(log, target, t) == Last(es)
  {
    var n, h := if es == [] then 0 else es[|es| - 1].id.attempt, CaptureRace.Highest(log, target, t);
    assert h > 0 ==> CaptureId(target, t, h) in log;
    assert es != [] ==> CaptureRace.Prior(es[|es| - 1].id) == CaptureRace.Prior(es[|es| - 1].id);
  }

  /** What one undisturbed capture leaves and answers, from the log, the blobs and the fetch alone. */
  ghost function CaptureEffect(log: map<CaptureId, CaptureEntry>, blobs: set<Sha>, q: CaptureRace.Request)
    : (map<CaptureId, CaptureEntry>, set<Sha>, CaptureOutcome)
  {
    var newest := CaptureRace.Newest(log, q.target, q.t);
    var previous := CaptureRace.Compared(q, newest);
    if newest.Some? && !q.force then (log, blobs, Recorded(newest.value, false))
    else if !CaptureRace.Acceptable(q, previous) then (log, blobs, Refused)
    else
      var e := CaptureRace.Plan(q, CaptureRace.Highest(log, q.target, q.t) + 1, previous);
      (log[e.id := e], blobs + if q.result.notModified then {} else {q.result.body}, Recorded(e, true))
  }

  /** An instant that was captured is listed, with an entry of its own at the end. */
  lemma CapturesAreListed(before: map<CaptureId, CaptureEntry>, log: map<CaptureId, CaptureEntry>,
                          q: CaptureRace.Request, es: seq<CaptureEntry>)
    requires Listing(log, q.target, Some(q.t), Some(q.t + 1), es) && IdsOk(log) && Keeps(before, log)
    ensures Captures(before, q) ==> es != []
    ensures es != [] ==>
      var e := es[|es| - 1];
      e.id in log && log[e.id] == e && e.id.target == q.target && e.id.scheduledFor == q.t
  {
    if c :| c in before && c.target == q.target && c.scheduledFor == q.t {
      assert log[c] in es;
    }
    if es != [] {
      assert es[|es| - 1] in es;
    }
  }

  /** The entry planned after a listing. */
  function Planned(q: CaptureRace.Request, es: seq<CaptureEntry>): CaptureEntry
    requires CaptureRace.Acceptable(q, CaptureRace.Compared(q, Last(es)))
  {
    CaptureRace.Plan(q, if es == [] then 1 else es[|es| - 1].id.attempt + 1, CaptureRace.Compared(q, Last(es)))
  }

  /** The same, told by what the instant's listing shows. */
  lemma EffectOfListing(log: map<CaptureId, CaptureEntry>, blobs: set<Sha>, q: CaptureRace.Request,
                        es: seq<CaptureEntry>)
    requires Listing(log, q.target, Some(q.t), Some(q.t + 1), es) && IdsOk(log) && CaptureRace.NoHoles(log)
    ensures CaptureEffect(log, blobs, q) ==
      if es != [] && !q.force then (log, blobs, Recorded(es[|es| - 1], false))
      else if !CaptureRace.Acceptable(q, CaptureRace.Compared(q, Last(es))) then (log, blobs, Refused)
      else (log[Planned(q, es).id := Planned(q, es)], blobs + if q.result.notModified then {} else {q.result.body},
            Recorded(Planned(q, es), true))
  {
    ListedIsNewest(log, q.target, q.t, es);
  }

  /** The newest entry of the instant, if it has one. */
  ghost predicate IsNewest(log: map<CaptureId, CaptureEntry>, target: TargetId, t: Instant,
                           newest: Option<CaptureEntry>)
  {
    match newest
    case None => forall c :: c in log ==> !(c.target == target && c.scheduledFor == t)
    case Some(e) =>
      && e.id in log && log[e.id] == e && e.id.target == target && e.id.scheduledFor == t
      && forall c :: c in log && c.target == target && c.scheduledFor == t ==> c.attempt <= e.id.attempt
  }

  /** What an undisturbed capture leaves and answers, case by case.  A captured instant answers with its newest
      entry unless the call is forced; a 304 without a baseline of the same resource is refused; anything
      else creates the next attempt, which says what was fetched and whether its payload differs from the
      baseline's, and stores the body unless it is the baseline's. */
  lemma EffectMeans(log: map<CaptureId, CaptureEntry>, blobs: set<Sha>, q: CaptureRace.Request,
                    newest: Option<CaptureEntry>)
    requires IsNewest(log, q.target, q.t, newest) && IdsOk(log) && CaptureRace.NoHoles(log)
    ensures var previous := if q.baseline.Given? then q.baseline.entry else newest;
            var known := previous.Some? && previous.value.url == q.result.url;
            var attempt := if newest.Some? then newest.value.id.attempt + 1 else 1;
      CaptureEffect(log, blobs, q) ==
      if newest.Some? && !q.force then (log, blobs, Recorded(newest.value, false))
      else if q.result.notModified && !known then (log, blobs, Refused)
      else
        var sha := if q.result.notModified then previous.value.payload else q.result.body;
        var e := CaptureEntry(CaptureId(q.target, q.t, attempt), q.result.at, q.result.url, q.result.status, sha,
                              !(previous.Some? && previous.value.payload == sha), q.transport,
                              if q.result.notModified then previous.value.validators else q.result.validators);
        (log[e.id := e], if q.result.notModified then blobs else blobs + {q.result.body}, Recorded(e, true))
  {
    assert newest.Some? ==> CaptureRace.Prior(newest.value.id) == CaptureRace.Prior(newest.value.id);
    var h := CaptureRace.Highest(log, q.target, q.t);
    assert h > 0 ==> CaptureId(q.target, q.t, h) in log;
    assert CaptureRace.Newest(log, q.target, q.t) == newest;
    assert blobs + {} == blobs;
  }

  lemma NoHolesNext(log: map<CaptureId, CaptureEntry>, e: CaptureEntry)
    requires CaptureRace.NoHoles(log) && e.id.attempt >= 1 && (e.id.attempt > 1 ==> CaptureRace.Prior(e.id) in log)
    ensures CaptureRace.NoHoles(log[e.id := e])
  {
    forall c | c in log[e.id := e]
      ensures c.attempt >= 1 && (c.attempt > 1 ==> CaptureRace.Prior(c) in log[e.id := e])
    {
      var prior := CaptureRace.Prior(c);
    }
  }

  class Bronze {
    const log: MemoryLog
    var blobs: set<Sha>

    ghost predicate Valid()
      reads this, log
    {
      && IdsOk(log.entries) && CaptureRace.NoHoles(log.entries)
      && forall c :: c in log.entries ==> log.entries[c].payload in blobs
    }

    constructor ()
      ensures Valid() && log.entries == map[] && blobs == {} && fresh(log)
    {
      log := new MemoryLog();
      blobs := {};
    }

    /** What other writers create meanwhile: blob first, then the entry of the next attempt. */
    method Others(es: seq<CaptureEntry>)
      requires Valid()
      modifies this, log
      ensures Valid() && Keeps(old(log.entries), log.entries) && old(blobs) <= blobs
      ensures forall c :: c in log.entries && c !in old(log.entries) ==> log.entries[c] in es
      ensures es == [] ==> log.entries == old(log.entries) && blobs == old(blobs)
    {
      for n := 0 to |es|
        invariant n == 0 ==> log.entries == old(log.entries) && blobs == old(blobs)
        invariant Valid() && Keeps(old(log.entries), log.entries) && old(blobs) <= blobs
        invariant forall c :: c in log.entries && c !in old(log.entries) ==> log.entries[c] in es
      {
        var e := es[n];
        if e.id.attempt >= 1 && (e.id.attempt > 1 ==> CaptureRace.Prior(e.id) in log.entries) {
          NoHolesNext(log.entries, e);
          blobs := blobs + {e.payload};
          var _ := log.PutNew(e);
        }
      }
    }

    /** One round: list, decide, store the blob once, create the entry.  `first`, `second` and
        `third` are what others create before each call.  No outcome means that another writer
        took the key, `blocked`, in between. */
    method Round(q: CaptureRace.Request, collided: bool, hadBlob: bool,
                 first: seq<CaptureEntry>, second: seq<CaptureEntry>, third: seq<CaptureEntry>)
      returns (outcome: Option<CaptureOutcome>, stored: bool, blocked: CaptureId)
      requires Valid() && (hadBlob ==> q.result.body in blobs)
      requires q.baseline.Given? && q.baseline.entry.Some? ==> q.baseline.entry.value.payload in blobs
      modifies this, log
      ensures Valid() && Keeps(old(log.entries), log.entries) && old(blobs) <= blobs
      ensures (stored ==> q.result.body in blobs)
      ensures outcome != Some(Collided)
      ensures outcome.Some? && outcome.value.Recorded? ==>
        var e := outcome.value.entry;
        && e.id in log.entries && log.entries[e.id] == e
        && if outcome.value.created then CaptureRace.Describes(log.entries, q, e) && e.id !in old(log.entries)
           else !q.force && !collided && e.id.target == q.target && e.id.scheduledFor == q.t
      ensures !q.force && !collided && Captures(old(log.entries), q) ==>
        outcome.Some? && outcome.value.Recorded? && !outcome.value.created
      ensures outcome == Some(Refused) ==> q.result.notModified
      ensures outcome.None? ==>
        && blocked in log.entries && blocked !in old(log.entries) && blocked.target == q.target
        && blocked.scheduledFor == q.t
      ensures forall c :: c in log.entries && c !in old(log.entries) ==>
        (outcome.Some? && outcome.value.Recorded? && outcome.value.created && c == outcome.value.entry.id)
        || log.entries[c] in first || log.entries[c] in second || log.entries[c] in third
      ensures first == [] && second == [] && third == [] && !collided && !hadBlob ==>
        outcome.Some? && (log.entries, blobs, outcome.value) == CaptureEffect(old(log.entries), old(blobs), q)
    {
      stored, blocked := hadBlob, CaptureId(q.target, q.t, 0);
      Others(first);
      var existing := log.EntriesFor(q.target, q.t);
      CapturesAreListed(old(log.entries), log.entries, q, existing);
      EffectOfListing(log.entries, blobs, q, existing);
      if existing != [] && !q.force && !collided {
        return Some(Recorded(existing[|existing| - 1], false)), stored, blocked;
      }
      if !CaptureRace.Acceptable(q, CaptureRace.Compared(q, Last(existing))) {
        return Some(Refused), stored, blocked;
      }
      var entry := Planned(q, existing);
      ghost var listed := log.entries;
      PlanFollows(listed, q, existing, entry);
      var created;
      created, stored := Create(q, entry, hadBlob, second, third);
      if created {
        PlanDescribes(listed, log.entries, q, existing, entry);
        return Some(Recorded(entry, true)), stored, blocked;
      }
      return None, stored, entry.id;
    }

    /** The second half of a round: the blob, once, and then the entry, if its key is still free. */
    method Create(q: CaptureRace.Request, entry: CaptureEntry, hadBlob: bool, second: seq<CaptureEntry>,
                  third: seq<CaptureEntry>)
      returns (created: bool, stored: bool)
      requires Valid() && (hadBlob ==> q.result.body in blobs)
      requires entry.payload in blobs || (!q.result.notModified && entry.payload == q.result.body)
      requires entry.id.attempt >= 1 && (entry.id.attempt > 1 ==> CaptureRace.Prior(entry.id) in log.entries)
      modifies this, log
      ensures Valid() && Keeps(old(log.entries), log.entries) && old(blobs) <= blobs
      ensures (stored ==> q.result.body in blobs)
      ensures entry.id in log.entries && (created ==> log.entries[entry.id] == entry && entry.id !in old(log.entries))
      ensures forall c :: c in log.entries && c !in old(log.entries) ==>
        (created && c == entry.id) || log.entries[c] in second || log.entries[c] in third
      ensures second == [] && third == [] && entry.id !in old(log.entries) ==>
        && created && log.entries == old(log.entries)[entry.id := entry]
        && blobs == old(blobs) + if q.result.notModified || hadBlob then {} else {q.result.body}
    {
      stored := hadBlob;
      Others(second);
      if !q.result.notModified && !stored {
        blobs := blobs + {q.result.body};
        stored := true;
      }
      Others(third);
      NoHolesNext(log.entries, entry);
      created := log.PutNew(entry);
    }

    /** Capture one fetch result.  `meanwhile(k)` is what others create before the k-th call to
        shared storage. */
    method Capture(q: CaptureRace.Request, meanwhile: nat -> seq<CaptureEntry>) returns (outcome: CaptureOutcome)
      requires Valid()
      requires q.baseline.Given? && q.baseline.entry.Some? ==> q.baseline.entry.value.payload in blobs
      modifies this, log
      ensures Valid() && Keeps(old(log.entries), log.entries)
      ensures outcome.Recorded? ==>
        && outcome.entry.id in log.entries && log.entries[outcome.entry.id] == outcome.entry
        && if outcome.created
           then CaptureRace.Describes(log.entries, q, outcome.entry) && outcome.entry.id !in old(log.entries)
           else !q.force && outcome.entry.id.target == q.target && outcome.entry.id.scheduledFor == q.t
      ensures !q.force && Captures(old(log.entries), q) ==> outcome.Recorded? && !outcome.created
      ensures outcome.Refused? ==> q.result.notModified
      ensures outcome.Collided? ==> FiveLanded(q, old(log.entries), log.entries)
      ensures forall c :: c in log.entries && c !in old(log.entries) ==>
        || (outcome.Recorded? && outcome.created && c == outcome.entry.id)
        || exists k: nat :: log.entries[c] in meanwhile(k)
      ensures (forall k: nat :: meanwhile(k) == []) ==>
        (log.entries, blobs, outcome) == CaptureEffect(old(log.entries), old(blobs), q)
    {
      var stored := false;
      ghost var landed: set<CaptureId> := {};
      for n := 0 to CaptureRace.MAX_COLLISIONS
        invariant Valid() && Keeps(old(log.entries), log.entries) && old(blobs) <= blobs
        invariant (stored ==> q.result.body in blobs) && (n > 0 ==> q.force || !Captures(old(log.entries), q))
        invariant |landed| == n && Landed(q, old(log.entries), log.entries, landed)
        invariant (forall k: nat :: meanwhile(k) == []) ==>
          n == 0 && !stored && log.entries == old(log.entries) && blobs == old(blobs)
        invariant forall c :: c in log.entries && c !in old(log.entries) ==>
          exists k: nat :: log.entries[c] in meanwhile(k)
      {
        var done, blocked;
        done, stored, blocked := Round(q, n > 0, stored, meanwhile(3 * n), meanwhile(3 * n + 1), meanwhile(3 * n + 2));
        if done.Some? {
          return done.value;
        }
        landed := landed + {blocked};
      }
      return Collided;
    }
  }

  /** The instant of the request has an entry. */
  ghost predicate Captures(log: map<CaptureId, CaptureEntry>, q: CaptureRace.Request) {
    exists c :: c in log && c.target == q.target && c.scheduledFor == q.t
  }

  /** Entries of the instant that were created since the call began. */
  ghost predicate Landed(q: CaptureRace.Request, before: map<CaptureId, CaptureEntry>,
                         log: map<CaptureId, CaptureEntry>, landed: set<CaptureId>)
  {
    forall c :: c in landed ==> c in log && c !in before && c.target == q.target && c.scheduledFor == q.t
  }

  ghost predicate FiveLanded(q: CaptureRace.Request, before: map<CaptureId, CaptureEntry>,
                             log: map<CaptureId, CaptureEntry>)
  {
    exists landed: set<CaptureId> :: |landed| == 5 && Landed(q, before, log, landed)
  }

  /** The planned entry follows the attempt that was listed last. */
  lemma PlanFollows(log: map<CaptureId, CaptureEntry>, q: CaptureRace.Request, existing: seq<CaptureEntry>,
                    entry: CaptureEntry)
    requires Listing(log, q.target, Some(q.t), Some(q.t + 1), existing) && IdsOk(log)
    requires CaptureRace.NoHoles(log) && CaptureRace.Acceptable(q, CaptureRace.Compared(q, Last(existing)))
    requires entry == Planned(q, existing)
    ensures entry.id.attempt >= 1 && (entry.id.attempt > 1 <==> existing != []) && entry.id !in log
    ensures existing != [] ==>
      CaptureRace.Prior(entry.id) in log && Last(existing) == Some(log[CaptureRace.Prior(entry.id)])
  {
    if existing != [] {
      var c := existing[|existing| - 1].id;
      assert c in log && CaptureRace.Prior(c) == CaptureRace.Prior(c);
      assert CaptureRace.Prior(entry.id) == c;
    }
  }

  lemma PlanDescribes(listed: map<CaptureId, CaptureEntry>, log: map<CaptureId, CaptureEntry>, q: CaptureRace.Request,
                      existing: seq<CaptureEntry>, entry: CaptureEntry)
    requires Listing(listed, q.target, Some(q.t), Some(q.t + 1), existing) && IdsOk(listed) && Keeps(listed, log)
    requires CaptureRace.NoHoles(listed) && CaptureRace.Acceptable(q, CaptureRace.Compared(q, Last(existing)))
    requires entry == Planned(q, existing)
    ensures CaptureRace.Describes(log, q, entry)
  {
    PlanFollows(listed, q, existing, entry);
  }
}
