/** The whole of `capture`: Bronze first, the ledger best-effort, call after call, whatever becomes of the
    ledger. */
module CaptureCall {
  import opened Types
  import opened Ledger
  import opened CaptureLog
  import opened System
  import BronzeStore
  import Capture
  import CaptureRace
  import Invariant
  import MemoryStore
  import Reconcile

  /** What fetching gives: the source may be down, or the request impossible to build. */
  datatype Fetch = Unavailable | Unbuildable | Got(result: CaptureRace.Fetched)

  /** One call.  What is fetched may depend on the baseline, whose validators go with the request; the
      log and blobs are the only other state it depends on. */
  datatype Call = Call(target: TargetId, t: Instant, force: bool, kind: AttemptKind, transport: Transport,
                       fetch: Option<CaptureEntry> -> Fetch)
  {
    function Request(baseline: Option<CaptureEntry>, result: CaptureRace.Fetched): CaptureRace.Request {
      CaptureRace.Request(target, t, force, transport, CaptureRace.Given(baseline), result)
    }
  }

  datatype Stock = Stock(log: map<CaptureId, CaptureEntry>, blobs: set<Sha>)

  // ---------------------------------------------------------------- what a call does to Bronze

  /** Entry `e` may be the baseline of instant `t`. */
  predicate SameDay(e: CaptureEntry, target: TargetId, day: Instant -> int, t: Instant) {
    e.id.target == target && e.status == 200 && day(e.id.scheduledFor) == day(t)
  }

  /** The newest HTTP 200 entry of the delivery day. */
  ghost predicate IsBaseline(log: map<CaptureId, CaptureEntry>, target: TargetId, day: Instant -> int, t: Instant,
                             baseline: Option<CaptureEntry>)
  {
    match baseline
    case None => forall c :: c in log ==> !SameDay(log[c], target, day, t)
    case Some(b) =>
      && Logs(log, b) && SameDay(b, target, day, t)
      && forall c :: c in log && SameDay(log[c], target, day, t) ==> log[c] == b || Before(log[c], b)
  }

  predicate Logs(log: map<CaptureId, CaptureEntry>, e: CaptureEntry) {
    e.id in log && log[e.id] == e
  }

  /** What the call leaves in Bronze, once its baseline is known. */
  ghost function After(call: Call, p: Stock, baseline: Option<CaptureEntry>): Stock {
    match call.fetch(baseline)
    case Got(result) =>
      var (log, blobs, _) := BronzeStore.CaptureEffect(p.log, p.blobs, call.Request(baseline, result));
      Stock(log, blobs)
    case _ => p
  }

  ghost predicate Captured(log: map<CaptureId, CaptureEntry>, call: Call) {
    exists c :: c in log && c.target == call.target && c.scheduledFor == call.t
  }

  /** The effect of a call on Bronze.  The ledger does not occur in it. */
  ghost predicate Effect(call: Call, day: Instant -> int, p: Stock, q: Stock) {
    if Captured(p.log, call) && !call.force then q == p
    else exists baseline :: IsBaseline(p.log, call.target, day, call.t, baseline) && q == After(call, p, baseline)
  }

  /** A log has one baseline for an instant. */
  lemma OneBaseline(log: map<CaptureId, CaptureEntry>, target: TargetId, day: Instant -> int, t: Instant,
                    a: Option<CaptureEntry>, b: Option<CaptureEntry>)
    requires IsBaseline(log, target, day, t, a) && IsBaseline(log, target, day, t, b)
    ensures a == b
  {
    if a.Some? {
      assert SameDay(log[a.value.id], target, day, t);
    }
    if b.Some? {
      assert SameDay(log[b.value.id], target, day, t);
    }
  }

  lemma EffectIsFunction(call: Call, day: Instant -> int, p: Stock, q: Stock, r: Stock)
    requires Effect(call, day, p, q) && Effect(call, day, p, r)
    ensures q == r
  {
    if !(Captured(p.log, call) && !call.force) {
      var a :| IsBaseline(p.log, call.target, day, call.t, a) && q == After(call, p, a);
      var b :| IsBaseline(p.log, call.target, day, call.t, b) && r == After(call, p, b);
      OneBaseline(p.log, call.target, day, call.t, a, b);
    }
  }

  /** `q` is what the calls, one after the other, make of `p`. */
  ghost predicate Ran(calls: seq<Call>, day: Instant -> int, p: Stock, q: Stock)
    decreases |calls|, 1
  {
    if calls == [] then q == p else exists mid :: RanThrough(calls, day, p, mid, q)
  }

  ghost predicate RanThrough(calls: seq<Call>, day: Instant -> int, p: Stock, mid: Stock, q: Stock)
    requires calls != []
    decreases |calls|, 0
  {
    Ran(calls[..|calls| - 1], day, p, mid) && Effect(calls[|calls| - 1], day, mid, q)
  }

  /** Bronze's content depends only on the calls and their fetch results. */
  lemma {:induction false} CallsDetermineBronze(calls: seq<Call>, day: Instant -> int, p: Stock, q: Stock, r: Stock)
    requires Ran(calls, day, p, q) && Ran(calls, day, p, r)
    ensures q == r
  {
    if calls != [] {
      var init, last := calls[..|calls| - 1], calls[|calls| - 1];
      var a :| RanThrough(calls, day, p, a, q);
      var b :| RanThrough(calls, day, p, b, r);
      CallsDetermineBronze(init, day, p, a, b);
      EffectIsFunction(last, day, a, q, r);
    }
  }

  // ---------------------------------------------------------------- the call

  /** The invariant survives a growing Bronze. */
  lemma BronzeGrows(cat: Catalog, p: Bronze, q: Bronze, s: State, claims: set<Claim>)
    requires Inv(cat, System(p, s, claims)) && LogOk(q) && q.decisions == p.decisions
    requires forall c :: c in p.log ==> c in q.log && q.log[c] == p.log[c]
    ensures Inv(cat, System(q, s, claims))
  {
    Invariant.KeepsOutside(cat, System(p, s, claims), System(q, s, claims));
  }

  function Content(bronze: BronzeStore.Bronze, decisions: set<Decision>): Bronze
    reads bronze, bronze.log
  {
    Bronze(bronze.log.entries, bronze.blobs, decisions)
  }

  function StockOf(bronze: BronzeStore.Bronze): Stock
    reads bronze, bronze.log
  {
    Stock(bronze.log.entries, bronze.blobs)
  }

  /** The baseline the call compares with, from the target's listing. */
  method FindBaseline(bronze: BronzeStore.Bronze, call: Call, day: Instant -> int)
    returns (baseline: Option<CaptureEntry>)
    requires bronze.Valid()
    ensures IsBaseline(bronze.log.entries, call.target, day, call.t, baseline)
    ensures baseline.Some? ==> baseline.value.payload in bronze.blobs
  {
    var es := bronze.log.List(call.target, None, None);
    baseline := Capture.Baseline(es, day, call.t);
    forall c | c in bronze.log.entries && SameDay(bronze.log.entries[c], call.target, day, call.t)
      ensures bronze.log.entries[c] in es
    {
    }
    assert baseline.Some? ==> baseline.value in es;
  }

  /** What fetching from the baseline and recording comes to, by the log before and after: the source was
      down, the request could not be built, a 304 without a baseline of its resource was refused, or one
      entry was created, which says what was fetched. */
  ghost predicate Fetched(call: Call, before: map<CaptureId, CaptureEntry>, after: map<CaptureId, CaptureEntry>,
                          baseline: Option<CaptureEntry>, outcome: Outcome, capture: Option<CaptureId>)
  {
    match call.fetch(baseline)
    case Unavailable => outcome == SourceUnavailable && capture.None? && after == before
    case Unbuildable => outcome == FailedOutcome && capture.None? && after == before
    case Got(result) =>
      if result.notModified && (baseline.None? || baseline.value.url != result.url)
      then outcome == FailedOutcome && capture.None? && after == before
      else
        && outcome == Ok && capture.Some? && capture.value !in before && capture.value in after
        && after == before[capture.value := after[capture.value]] && after[capture.value].id == capture.value
        && CaptureRace.Describes(after, call.Request(baseline, result), after[capture.value])
  }

  ghost predicate FetchedSome(call: Call, day: Instant -> int, before: map<CaptureId, CaptureEntry>,
                              after: map<CaptureId, CaptureEntry>, outcome: Outcome, capture: Option<CaptureId>)
  {
    exists baseline :: IsBaseline(before, call.target, day, call.t, baseline)
      && Fetched(call, before, after, baseline, outcome, capture)
  }

  /** Fetch and record: what is acknowledged afterwards, and with which outcome. */
  method Record(bronze: BronzeStore.Bronze, call: Call, day: Instant -> int)
    returns (outcome: Outcome, capture: Option<CaptureId>, recaptured: bool)
    requires bronze.Valid() && (Captured(bronze.log.entries, call) ==> call.force)
    modifies bronze, bronze.log
    ensures bronze.Valid() && BronzeStore.Keeps(old(bronze.log.entries), bronze.log.entries)
    ensures Effect(call, day, old(StockOf(bronze)), StockOf(bronze))
    ensures capture.Some? ==>
      capture.value in bronze.log.entries && capture.value.target == call.target && capture.value.scheduledFor == call.t
    ensures outcome in {Ok, SourceUnavailable, FailedOutcome} && (outcome == Ok <==> capture.Some?)
    ensures FetchedSome(call, day, old(bronze.log.entries), bronze.log.entries, outcome, capture)
    ensures recaptured <==> call.force && capture.Some? && bronze.log.entries[capture.value].contentChanged
  {
    var baseline := FindBaseline(bronze, call, day);
    match call.fetch(baseline)
    case Unavailable => return SourceUnavailable, None, false;
    case Unbuildable => return FailedOutcome, None, false;
    case Got(result) =>
      var answer := bronze.Capture(call.Request(baseline, result), k => []);
      match answer
      case Recorded(entry, created) => return Ok, Some(entry.id), call.force && created && entry.contentChanged;
      case Refused => return FailedOutcome, None, false;
      case Collided => return FailedOutcome, None, false;
  }

  lemma Listed(log: map<CaptureId, CaptureEntry>, call: Call, es: seq<CaptureEntry>)
    requires Listing(log, call.target, Some(call.t), Some(call.t + 1), es) && BronzeStore.IdsOk(log)
    ensures Captured(log, call) <==> es != []
    ensures es != [] ==>
      var c := es[|es| - 1].id;
      c in log && c.target == call.target && c.scheduledFor == call.t && NewestEntry(log, call, Some(c))
  {
    if c :| c in log && c.target == call.target && c.scheduledFor == call.t {
      assert log[c] in es;
    }
    if es != [] {
      assert es[|es| - 1] in es;
      forall c | c in log && c.target == call.target && c.scheduledFor == call.t
        ensures c.attempt <= es[|es| - 1].id.attempt
      {
        assert log[c] in es;
      }
    }
  }

  function OriginOf(kind: AttemptKind): RunOrigin {
    if kind == BackfillAttempt then Backfilled else ByScheduler
  }

  /** The instant of the call has a run, naming a capture if it must. */
  ghost predicate HasRun(s: State, call: Call, named: bool) {
    exists r :: 0 <= r < |s.runs| && s.runs[r].target == call.target && s.runs[r].scheduledFor == call.t
      && (named ==> s.runs[r].capture.Some?)
  }

  /** The newest entry of the call's instant. */
  ghost predicate NewestEntry(log: map<CaptureId, CaptureEntry>, call: Call, capture: Option<CaptureId>) {
    && capture.Some? && capture.value in log && capture.value.target == call.target
    && capture.value.scheduledFor == call.t
    && forall c :: c in log && c.target == call.target && c.scheduledFor == call.t ==>
         c.attempt <= capture.value.attempt
  }

  /** A call that was fully acknowledged: what it recorded, and what the ledger makes of that. */
  ghost predicate Completed(call: Call, day: Instant -> int, before: map<CaptureId, CaptureEntry>,
                            after: map<CaptureId, CaptureEntry>, s: State, u: State, outcome: Outcome, now: Instant,
                            capture: Option<CaptureId>)
  {
    && (if outcome == Noop then after == before && NewestEntry(before, call, capture)
        else FetchedSome(call, day, before, after, outcome, capture))
    && Capture.Acknowledged(s, u, call.target, call.t,
                            if call.kind == BackfillAttempt then Backfilled else ByScheduler, call.kind, outcome,
                            capture,
                            call.force && outcome == Ok && capture.Some? && capture.value in after
                            && after[capture.value].contentChanged,
                            now)
  }

  ghost predicate CompletedSome(call: Call, day: Instant -> int, before: map<CaptureId, CaptureEntry>,
                                after: map<CaptureId, CaptureEntry>, s: State, u: State, outcome: Outcome,
                                now: Instant)
  {
    exists capture :: Completed(call, day, before, after, s, u, outcome, now, capture)
  }

  /** What that means for the instant's run.  An entry that is the instant's first, or that a forced call
      found changed, is the run's capture from then on, pending, and under a higher fence if the run named
      another one before.  Otherwise a run that names a capture is as it was. */
  lemma CompletedMeans(cat: Catalog, call: Call, day: Instant -> int, p: System, q: System, outcome: Outcome,
                       now: Instant, c: Option<CaptureId>)
    requires Inv(cat, p) && (Captured(p.bronze.log, call) && !call.force <==> outcome == Noop)
    requires CompletedSome(call, day, p.bronze.log, q.bronze.log, p.ledger, q.ledger, outcome, now)
    requires match c
      case None => forall e :: e in q.bronze.log ==> e in p.bronze.log
      case Some(e) => e in q.bronze.log && e !in p.bronze.log
    ensures var run, after := RunOn(p.ledger.runs, call.target, call.t), RunOn(q.ledger.runs, call.target, call.t);
      && after.Some?
      && (c.Some? && (q.bronze.log[c.value].contentChanged || !Captured(p.bronze.log, call)) ==>
            && after.value.capture == c && after.value.state == RunState.Captured
            && (run.Some? ==>
                  after.value.fence == run.value.fence + if run.value.capture.Some? then 1 else 0))
      && (run.Some? && run.value.capture.Some?
          && !(c.Some? && q.bronze.log[c.value].contentChanged) ==>
            after == run)
  {
  }

  /** `capture`.  The store answers the first `answered` calls of the acknowledgement and is down from
      then on; what happens to Bronze is the same in any case. */
  method Run(bronze: BronzeStore.Bronze, store: MemoryStore.Store, ghost claims: set<Claim>, ghost cat: Catalog,
             ghost decisions: set<Decision>, call: Call, day: Instant -> int, now: Instant, answered: nat)
    returns (outcome: Outcome, updated: bool)
    requires bronze.Valid() && Inv(cat, System(Content(bronze, decisions), store.Snapshot(), claims))
    requires call.kind in {CaptureAttempt, BackfillAttempt}
    modifies bronze, bronze.log, store
    ensures bronze.Valid() && Inv(cat, System(Content(bronze, decisions), store.Snapshot(), claims))
    ensures Effect(call, day, old(StockOf(bronze)), StockOf(bronze))
    ensures answered == 0 ==> !updated && store.Snapshot() == old(store.Snapshot())
    ensures answered >= 3 ==> updated
    ensures outcome == Noop <==> Captured(old(bronze.log.entries), call) && !call.force
    ensures updated ==> HasRun(store.Snapshot(), call, outcome in {Ok, Noop})
    ensures updated ==> CompletedSome(call, day, old(bronze.log.entries), bronze.log.entries, old(store.Snapshot()),
                                      store.Snapshot(), outcome, now)
  {
    var existing := bronze.log.EntriesFor(call.target, call.t);
    Listed(bronze.log.entries, call, existing);
    if existing != [] && !call.force {
      var newest := Some(existing[|existing| - 1].id);
      ghost var s := store.Snapshot();
      updated := Capture.Ack(store, claims, cat, Content(bronze, decisions), call.target, call.t,
                             OriginOf(call.kind), call.kind, Noop, newest, false, now, answered);
      assert updated ==> Completed(call, day, bronze.log.entries, bronze.log.entries, s, store.Snapshot(), Noop, now,
                                   newest);
      return Noop, updated;
    }
    outcome, updated := Fresh(bronze, store, claims, cat, decisions, call, day, now, answered);
  }

  /** The call, where the instant is not captured yet or the call is forced. */
  method Fresh(bronze: BronzeStore.Bronze, store: MemoryStore.Store, ghost claims: set<Claim>, ghost cat: Catalog,
               ghost decisions: set<Decision>, call: Call, day: Instant -> int, now: Instant, answered: nat)
    returns (outcome: Outcome, updated: bool)
    requires bronze.Valid() && Inv(cat, System(Content(bronze, decisions), store.Snapshot(), claims))
    requires call.kind in {CaptureAttempt, BackfillAttempt} && (Captured(bronze.log.entries, call) ==> call.force)
    modifies bronze, bronze.log, store
    ensures bronze.Valid() && Inv(cat, System(Content(bronze, decisions), store.Snapshot(), claims))
    ensures Effect(call, day, old(StockOf(bronze)), StockOf(bronze)) && outcome != Noop
    ensures answered == 0 ==> !updated && store.Snapshot() == old(store.Snapshot())
    ensures answered >= 3 ==> updated
    ensures updated ==> HasRun(store.Snapshot(), call, outcome == Ok)
    ensures updated ==> CompletedSome(call, day, old(bronze.log.entries), bronze.log.entries, old(store.Snapshot()),
                                      store.Snapshot(), outcome, now)
  {
    ghost var before, s := Content(bronze, decisions), store.Snapshot();
    var capture, recaptured;
    outcome, capture, recaptured := Record(bronze, call, day);
    BronzeGrows(cat, before, Content(bronze, decisions), store.Snapshot(), claims);
    updated := Capture.Ack(store, claims, cat, Content(bronze, decisions), call.target, call.t,
                           OriginOf(call.kind), call.kind, outcome, capture, recaptured, now, answered);
    assert updated ==> Completed(call, day, before.log, bronze.log.entries, s, store.Snapshot(), outcome, now, capture);
  }

  /** Call after call, each with its own cut-off. */
  method RunAll(bronze: BronzeStore.Bronze, store: MemoryStore.Store, ghost claims: set<Claim>, ghost cat: Catalog,
                ghost decisions: set<Decision>, calls: seq<Call>, day: Instant -> int, answered: nat -> nat)
    requires bronze.Valid() && Inv(cat, System(Content(bronze, decisions), store.Snapshot(), claims))
    requires forall k :: 0 <= k < |calls| ==> calls[k].kind in {CaptureAttempt, BackfillAttempt}
    modifies bronze, bronze.log, store
    ensures bronze.Valid() && Inv(cat, System(Content(bronze, decisions), store.Snapshot(), claims))
    ensures Ran(calls, day, old(StockOf(bronze)), StockOf(bronze))
  {
    for n := 0 to |calls|
      invariant bronze.Valid() && Inv(cat, System(Content(bronze, decisions), store.Snapshot(), claims))
      invariant Ran(calls[..n], day, old(StockOf(bronze)), StockOf(bronze))
    {
      var now: Instant := *;
      ghost var mid := StockOf(bronze);
      var _, _ := Run(bronze, store, claims, cat, decisions, calls[n], day, now, answered(n));
      assert calls[..n + 1][..n] == calls[..n] && calls[..n + 1][n] == calls[n];
      assert RanThrough(calls[..n + 1], day, old(StockOf(bronze)), mid, StockOf(bronze));
    }
    assert calls[..|calls|] == calls;
  }

  /** A database outage never loses a source observation: whatever of the ledger calls is lost, the log
      after the captures is the one their requests and fetch results determine, and one full reconcile,
      with no invalidations, gives every logged instant of the target a run naming the payload of its
      newest attempt. */
  method CaptureThenReconcile(bronze: BronzeStore.Bronze, store: MemoryStore.Store, ghost claims: set<Claim>,
                              ghost cat: Catalog, calls: seq<Call>, day: Instant -> int, answered: nat -> nat,
                              target: TargetId, d: DerivationId)
    requires bronze.Valid() && Inv(cat, System(Content(bronze, {}), store.Snapshot(), claims))
    requires forall k :: 0 <= k < |calls| ==> calls[k].kind in {CaptureAttempt, BackfillAttempt}
    modifies bronze, bronze.log, store
    ensures forall q :: Ran(calls, day, old(StockOf(bronze)), q) <==> q == StockOf(bronze)
    ensures forall c :: c in bronze.log.entries && c.target == target ==>
      Reconcile.NamesNewest(store.Snapshot(), Content(bronze, {}), target, c.scheduledFor)
  {
    RunAll(bronze, store, claims, cat, {}, calls, day, answered);
    forall q | Ran(calls, day, old(StockOf(bronze)), q) ensures q == StockOf(bronze) {
      CallsDetermineBronze(calls, day, old(StockOf(bronze)), q, StockOf(bronze));
    }
    ghost var sys := System(Content(bronze, {}), store.Snapshot(), claims);
    var es := bronze.log.List(target, None, None);
    var now: Instant := *;
    Reconcile.Run(store, Content(bronze, {}), target, d, es, now);
    forall c | c in bronze.log.entries && c.target == target
      ensures Reconcile.NamesNewest(store.Snapshot(), Content(bronze, {}), target, c.scheduledFor)
    {
      Reconcile.ReconcileNamesNewest(cat, sys, target, d, es, now, c);
    }
  }
}
