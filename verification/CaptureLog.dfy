/** The capture log in memory: create-only entries and ordered listings. */
module CaptureLog {
  import opened Types

  /** Order of a listing: by scheduled instant, then attempt. */
  predicate Before(a: CaptureEntry, b: CaptureEntry) {
    a.id.scheduledFor < b.id.scheduledFor || (a.id.scheduledFor == b.id.scheduledFor && a.id.attempt < b.id.attempt)
  }

  predicate InWindow(e: CaptureEntry, since: Option<Instant>, until: Option<Instant>) {
    (since.Some? ==> since.value <= e.id.scheduledFor) && (until.Some? ==> e.id.scheduledFor < until.value)
  }

  ghost predicate Sorted(es: seq<CaptureEntry>) {
    forall i, j :: 0 <= i < j < |es| ==> Before(es[i], es[j])
  }

  /** What `list` returns: exactly the target's entries in the window, in order, each once. */
  ghost predicate Listing(log: map<CaptureId, CaptureEntry>, target: TargetId, since: Option<Instant>,
                          until: Option<Instant>, es: seq<CaptureEntry>)
  {
    && Sorted(es)
    && forall e :: e in es <==> e.id in log && log[e.id] == e && e.id.target == target && InWindow(e, since, until)
  }

  class MemoryLog {
    var entries: map<CaptureId, CaptureEntry>

    ghost predicate Valid()
      reads this
    {
      forall c :: c in entries ==> entries[c].id == c
    }

    constructor ()
      ensures Valid() && entries == map[]
    {
      entries := map[];
    }

    /** Create only: an existing key keeps its entry. */
    method PutNew(e: CaptureEntry) returns (created: bool)
      requires Valid()
      modifies this
      ensures Valid() && created == (e.id !in old(entries))
      ensures entries == if created then old(entries)[e.id := e] else old(entries)
    {
      created := e.id !in entries;
      if created {
        entries := entries[e.id := e];
      }
    }

    method Get(c: CaptureId) returns (e: Option<CaptureEntry>)
      ensures e == if c in entries then Some(entries[c]) else None
    {
      e := if c in entries then Some(entries[c]) else None;
    }

    method List(target: TargetId, since: Option<Instant>, until: Option<Instant>) returns (es: seq<CaptureEntry>)
      requires Valid()
      ensures Listing(entries, target, since, until, es)
      ensures forall e :: e in es <==>
        && e.id in entries && entries[e.id] == e && e.id.target == target
        && (since.None? || since.value <= e.id.scheduledFor) && (until.None? || e.id.scheduledFor < until.value)
      ensures forall i, j :: 0 <= i < j < |es| ==>
        es[i].id.scheduledFor < es[j].id.scheduledFor
        || (es[i].id.scheduledFor == es[j].id.scheduledFor && es[i].id.attempt < es[j].id.attempt)
    {
      var wanted := set c | c in entries && c.target == target && InWindow(entries[c], since, until) :: entries[c];
      es := Ordered(wanted);
    }

    method EntriesFor(target: TargetId, t: Instant) returns (es: seq<CaptureEntry>)
      requires Valid()
      ensures Listing(entries, target, Some(t), Some(t + 1), es)
    {
      es := List(target, Some(t), Some(t + 1));
    }
  }

  /** The entries of one target in listing order. */
  method Ordered(wanted: set<CaptureEntry>) returns (es: seq<CaptureEntry>)
    requires forall a, b :: a in wanted && b in wanted && a != b ==> Before(a, b) || Before(b, a)
    ensures Sorted(es) && forall e :: e in es <==> e in wanted
  {
    es := [];
    var rest := wanted;
    while exists e :: e in rest
      invariant rest <= wanted && Sorted(es)
      invariant forall e :: e in wanted <==> e in es || e in rest
      invariant forall i, e :: 0 <= i < |es| && e in rest ==> Before(es[i], e)
      decreases |rest|
    {
      var first :| first in rest;
      first := Earliest(rest, first);
      rest := rest - {first};
      es := es + [first];
    }
  }

  method Earliest(s: set<CaptureEntry>, start: CaptureEntry) returns (first: CaptureEntry)
    requires start in s && forall a, b :: a in s && b in s && a != b ==> Before(a, b) || Before(b, a)
    ensures first in s && forall e :: e in s && e != first ==> Before(first, e)
  {
    first := start;
    var rest := s - {start};
    while exists e :: e in rest
      invariant first in s && rest <= s
      invariant forall e :: e in s && e != first ==> e in rest || Before(first, e)
      decreases |rest|
    {
      var e :| e in rest;
      rest := rest - {e};
      if Before(e, first) {
        first := e;
      }
    }
  }
}
