/** The gap detector: expected instants against the capture log and the ledger. */
module Gaps {
  import opened Types
  import opened Ledger
  import opened CaptureLog
  import MemoryStore

  datatype GapKind = InTolerance | UnprocessedCapture | NotCaptured | Lost
  datatype Gap = Gap(t: Instant, kind: GapKind)

  /** One scan: its time, the tolerance, the oldest instant the source still serves (if it serves
      history at all), and the newest entry of each logged instant. */
  datatype Scan = Scan(
    target: TargetId,
    now: Instant,
    tolerance: int,
    cutoff: Option<Instant>,
    entries: map<Instant, CaptureEntry>)
  {
    predicate Tolerated(t: Instant) {
      now - t < tolerance
    }

    predicate Recoverable(t: Instant) {
      cutoff.Some? && cutoff.value <= t
    }
  }

  function Alert(t: Instant): QualityEvent {
    QualityEvent(UnrecoverableGap, Some(t))
  }

  // ---------------------------------------------------------------- one expected instant

  /** The alert of an instant that was given up: the store call after the run's. */
  function Tell(c: Scan, s: State, t: Instant): State {
    AddEvents(s, c.target, None, [Alert(t)], c.now)
  }

  /** No entry in the log: the run is missing, or lost for good. */
  function Absent(c: Scan, base: seq<Run>, s: State, t: Instant): State
    requires |base| <= |s.runs|
  {
    match FindRun(base, c.target, t)
    case None => EnsureRun(s, c.target, t, if c.Recoverable(t) then MissingCapture else Unrecoverable, Backfilled,
                           None, c.now).0
    case Some(i) =>
      if c.Recoverable(t) then
        if base[i].state in {Scheduled, Failed} then SetState(s, i, MissingCapture, c.now) else s
      else if base[i].state != Unrecoverable then SetState(s, i, Unrecoverable, c.now)
      else s
  }

  /** One turn of the loop up to the alert, with the runs read when the scan began: what it does to the
      run, and what it reports. */
  function Settle(c: Scan, base: seq<Run>, s: State, t: Instant): (State, seq<Gap>)
    requires |base| <= |s.runs|
  {
    var seen := FindRun(base, c.target, t);
    if c.Tolerated(t) then (s, [Gap(t, InTolerance)])
    else if t in c.entries then
      var (u, run) :=
        if seen.None? || base[seen.value].capture.None? then
          var (u, r) := EnsureRun(s, c.target, t, Captured, Reconciled, Some(c.entries[t].id), c.now);
          (u, u.runs[r])
        else (s, base[seen.value]);
      (u, if run.state != Processed then [Gap(t, UnprocessedCapture)] else [])
    else (Absent(c, base, s, t), [Gap(t, if c.Recoverable(t) then NotCaptured else Lost)])
  }

  /** Whether the turn goes on to raise the alert: the instant is due, not listed, beyond what the
      source serves, and its run was not read as given up. */
  predicate Raises(c: Scan, base: seq<Run>, t: Instant) {
    var seen := FindRun(base, c.target, t);
    && !c.Tolerated(t) && t !in c.entries && !c.Recoverable(t)
    && (seen.Some? ==> base[seen.value].state != Unrecoverable)
  }

  /** The whole turn, undisturbed. */
  function Step(c: Scan, base: seq<Run>, s: State, t: Instant): (State, seq<Gap>)
    requires |base| <= |s.runs|
  {
    var (u, gaps) := Settle(c, base, s, t);
    (if Raises(c, base, t) then Tell(c, u, t) else u, gaps)
  }

  function ScanAll(c: Scan, base: seq<Run>, s: State, ts: seq<Instant>): (r: (State, seq<Gap>))
    requires |base| <= |s.runs|
    ensures |base| <= |r.0.runs|
  {
    if ts == [] then (s, [])
    else
      var (mid, gaps) := ScanAll(c, base, s, ts[..|ts| - 1]);
      var (u, more) := Step(c, base, mid, ts[|ts| - 1]);
      (u, gaps + more)
  }

  // ---------------------------------------------------------------- the method

  /** The newest entry of each logged instant: the listing is ordered, so the last one wins. */
  method Entries(es: seq<CaptureEntry>) returns (entries: map<Instant, CaptureEntry>)
    requires Sorted(es)
    ensures forall e :: e in es ==>
      e.id.scheduledFor in entries && e.id.attempt <= entries[e.id.scheduledFor].id.attempt
    ensures forall t :: t in entries ==> entries[t] in es && entries[t].id.scheduledFor == t
  {
    entries := map[];
    for n := 0 to |es|
      invariant forall k :: 0 <= k < n ==>
        es[k].id.scheduledFor in entries && es[k].id.attempt <= entries[es[k].id.scheduledFor].id.attempt
      invariant forall t :: t in entries ==> entries[t] in es[..n] && entries[t].id.scheduledFor == t
    {
      forall k | 0 <= k < n ensures Before(es[k], es[n]) {
      }
      entries := entries[es[n].id.scheduledFor := es[n]];
    }
  }

  method StepOn(store: MemoryStore.Store, c: Scan, base: seq<Run>, t: Instant) returns (gaps: seq<Gap>)
    requires |base| <= |store.runs|
    modifies store
    ensures (store.Snapshot(), gaps) == Step(c, base, old(store.Snapshot()), t)
  {
    if c.now - t < c.tolerance {
      return [Gap(t, InTolerance)];
    }
    var seen := FindRun(base, c.target, t);
    if t in c.entries {
      var state;
      if seen.None? || base[seen.value].capture.None? {
        var r := store.Ensure(c.target, t, Captured, Reconciled, Some(c.entries[t].id), c.now);
        state := store.runs[r].state;
      } else {
        state := base[seen.value].state;
      }
      return if state != Processed then [Gap(t, UnprocessedCapture)] else [];
    }
    if c.cutoff.Some? && t >= c.cutoff.value {
      if seen.None? {
        var _ := store.Ensure(c.target, t, MissingCapture, Backfilled, None, c.now);
      } else if base[seen.value].state in {Scheduled, Failed} {
        store.Mark(seen.value, MissingCapture, c.now);
      }
      return [Gap(t, NotCaptured)];
    }
    if seen.None? {
      var _ := store.Ensure(c.target, t, Unrecoverable, Backfilled, None, c.now);
      store.Report(c.target, Alert(t), c.now);
    } else if base[seen.value].state != Unrecoverable {
      store.Mark(seen.value, Unrecoverable, c.now);
      store.Report(c.target, Alert(t), c.now);
    }
    return [Gap(t, Lost)];
  }

  /** `detect_gaps` over the expected instants, undisturbed. */
  method Detect(store: MemoryStore.Store, c: Scan, ts: seq<Instant>) returns (gaps: seq<Gap>)
    modifies store
    ensures (store.Snapshot(), gaps) == ScanAll(c, old(store.runs), old(store.Snapshot()), ts)
    ensures Distinct(ts) ==> Ruled(c, old(store.Snapshot()), ts, store.Snapshot(), gaps)
  {
    if Distinct(ts) {
      ScanRules(c, store.Snapshot(), ts);
    }
    var base := store.runs;
    gaps := [];
    for n := 0 to |ts|
      invariant (store.Snapshot(), gaps) == ScanAll(c, base, old(store.Snapshot()), ts[..n])
    {
      assert ts[..n + 1][..n] == ts[..n];
      var more := StepOn(store, c, base, ts[n]);
      gaps := gaps + more;
    }
    assert ts[..|ts|] == ts;
  }

  // ---------------------------------------------------------------- a second scan finds nothing to do

  /** The run of `t` is the same in both ledgers, at the same place. */
  ghost predicate SameAt(base: seq<Run>, runs: seq<Run>, target: TargetId, t: Instant) {
    var i := FindRun(base, target, t);
    FindRun(runs, target, t) == i && (i.Some? ==> runs[i.value] == base[i.value])
  }

  /** Nothing is left to do about `t`. */
  ghost predicate Idle(c: Scan, runs: seq<Run>, t: Instant) {
    var i := FindRun(runs, c.target, t);
    || c.Tolerated(t)
    || (&& i.Some?
        && if t in c.entries then runs[i.value].capture.Some? || runs[i.value].state == Processed
           else if c.Recoverable(t) then runs[i.value].state !in {Scheduled, Failed}
           else runs[i.value].state == Unrecoverable)
  }

  /** What a scan that changes nothing reports about `t`. */
  ghost function Found(c: Scan, runs: seq<Run>, t: Instant): seq<Gap>
    requires Idle(c, runs, t)
  {
    if c.Tolerated(t) then [Gap(t, InTolerance)]
    else if t in c.entries then
      if runs[FindRun(runs, c.target, t).value].state != Processed then [Gap(t, UnprocessedCapture)] else []
    else [Gap(t, if c.Recoverable(t) then NotCaptured else Lost)]
  }

  lemma IdleStep(c: Scan, s: State, t: Instant)
    requires Idle(c, s.runs, t)
    ensures Step(c, s.runs, s, t) == (s, Found(c, s.runs, t))
  {
  }

  /** A turn settles its own instant. */
  lemma StepIdles(c: Scan, base: seq<Run>, s: State, t: Instant)
    requires |base| <= |s.runs| && SameAt(base, s.runs, c.target, t)
    ensures var (u, gaps) := Step(c, base, s, t); Idle(c, u.runs, t) && Found(c, u.runs, t) == gaps
  {
    var u := Step(c, base, s, t).0;
    var i := FindRun(s.runs, c.target, t);
    if !c.Tolerated(t) {
      FoundAt(u.runs, c.target, t, if i.Some? then i.value else |s.runs|);
    }
  }

  /** A turn leaves every other instant alone. */
  lemma StepSpares(c: Scan, base: seq<Run>, s: State, t: Instant, o: Instant)
    requires |base| <= |s.runs| && SameAt(base, s.runs, c.target, t) && o != t
    ensures SameAt(s.runs, Step(c, base, s, t).0.runs, c.target, o)
  {
    var u := Step(c, base, s, t).0;
    var i := FindRun(s.runs, c.target, o);
    if i.Some? {
      FoundAt(u.runs, c.target, o, i.value);
    }
  }

  ghost predicate Distinct(ts: seq<Instant>) {
    forall i, j :: 0 <= i < j < |ts| ==> ts[i] != ts[j]
  }

  /** The reports of an idle scan, in order. */
  ghost function FoundAll(c: Scan, runs: seq<Run>, ts: seq<Instant>): seq<Gap>
    requires forall t :: t in ts ==> Idle(c, runs, t)
  {
    if ts == [] then [] else FoundAll(c, runs, ts[..|ts| - 1]) + Found(c, runs, ts[|ts| - 1])
  }

  lemma IdlePersists(c: Scan, runs: seq<Run>, after: seq<Run>, t: Instant)
    requires Idle(c, runs, t) && SameAt(runs, after, c.target, t)
    ensures Idle(c, after, t) && Found(c, after, t) == Found(c, runs, t)
  {
  }

  lemma {:induction false} FoundAllPersists(c: Scan, runs: seq<Run>, after: seq<Run>, ts: seq<Instant>)
    requires forall t :: t in ts ==> Idle(c, runs, t) && SameAt(runs, after, c.target, t)
    ensures (forall t :: t in ts ==> Idle(c, after, t)) && FoundAll(c, after, ts) == FoundAll(c, runs, ts)
  {
    forall t | t in ts ensures Idle(c, after, t) {
      IdlePersists(c, runs, after, t);
    }
    if ts != [] {
      FoundAllPersists(c, runs, after, ts[..|ts| - 1]);
      IdlePersists(c, runs, after, ts[|ts| - 1]);
    }
  }

  /** Every instant of `ts` is idle, and `gaps` is what an idle scan reports. */
  ghost predicate Reports(c: Scan, runs: seq<Run>, ts: seq<Instant>, gaps: seq<Gap>) {
    (forall t :: t in ts ==> Idle(c, runs, t)) && gaps == FoundAll(c, runs, ts)
  }

  lemma NextReports(c: Scan, base: seq<Run>, mid: State, init: seq<Instant>, last: Instant, gaps: seq<Gap>)
    requires |base| <= |mid.runs| && SameAt(base, mid.runs, c.target, last) && last !in init
    requires Reports(c, mid.runs, init, gaps)
    ensures var (u, more) := Step(c, base, mid, last);
      Reports(c, u.runs, init + [last], gaps + more) && forall o :: o != last ==> SameAt(mid.runs, u.runs, c.target, o)
  {
    var (u, more) := Step(c, base, mid, last);
    StepIdles(c, base, mid, last);
    forall o | o != last ensures SameAt(mid.runs, u.runs, c.target, o) {
      StepSpares(c, base, mid, last, o);
    }
    FoundAllPersists(c, mid.runs, u.runs, init);
  }

  /** After a scan every expected instant is idle, and other instants are as they were. */
  lemma {:induction false} ScanIdles(c: Scan, s: State, ts: seq<Instant>)
    requires Distinct(ts)
    ensures Reports(c, ScanAll(c, s.runs, s, ts).0.runs, ts, ScanAll(c, s.runs, s, ts).1)
    ensures forall o :: o !in ts ==> SameAt(s.runs, ScanAll(c, s.runs, s, ts).0.runs, c.target, o)
  {
    if ts != [] {
      var init, last := ts[..|ts| - 1], ts[|ts| - 1];
      ScanIdles(c, s, init);
      assert ts == init + [last] && last !in init;
      var (mid, gaps) := ScanAll(c, s.runs, s, init);
      NextReports(c, s.runs, mid, init, last, gaps);
      forall o | o !in ts ensures SameAt(s.runs, ScanAll(c, s.runs, s, ts).0.runs, c.target, o) {
        assert o !in init && o != last;
        SameAtTransitive(s.runs, mid.runs, ScanAll(c, s.runs, s, ts).0.runs, c.target, o);
      }
    }
  }

  lemma SameAtTransitive(a: seq<Run>, b: seq<Run>, c: seq<Run>, target: TargetId, t: Instant)
    requires SameAt(a, b, target, t) && SameAt(b, c, target, t)
    ensures SameAt(a, c, target, t)
  {
  }

  lemma {:induction false} IdleScan(c: Scan, s: State, ts: seq<Instant>)
    requires forall t :: t in ts ==> Idle(c, s.runs, t)
    ensures ScanAll(c, s.runs, s, ts) == (s, FoundAll(c, s.runs, ts))
  {
    if ts != [] {
      IdleScan(c, s, ts[..|ts| - 1]);
      IdleStep(c, s, ts[|ts| - 1]);
    }
  }

  /** Detecting twice at one time returns the same gaps, changes no run and raises no event. */
  lemma DetectTwice(c: Scan, s: State, ts: seq<Instant>)
    requires Distinct(ts)
    ensures var (u, gaps) := ScanAll(c, s.runs, s, ts); ScanAll(c, u.runs, u, ts) == (u, gaps)
  {
    ScanIdles(c, s, ts);
    IdleScan(c, ScanAll(c, s.runs, s, ts).0, ts);
  }

  // ---------------------------------------------------------------- what a scan decides, instant by instant

  /** What becomes of an instant's run, what is reported, and whether the alert is raised. */
  datatype Ruling = Ruling(run: Option<Run>, kind: Option<GapKind>, alert: bool)

  /** The decision table, on the run as it was: younger than the tolerance, captured, still served by the
      source, or lost. */
  ghost function Rule(c: Scan, run: Option<Run>, t: Instant): Ruling {
    if c.now - t < c.tolerance then Ruling(run, Some(InTolerance), false)
    else if t in c.entries then
      match run
      case None =>
        Ruling(Some(Run(c.target, t, Captured, 0, Reconciled, None, None, Some(c.entries[t].id), c.now, c.now)),
               Some(UnprocessedCapture), false)
      case Some(r) =>
        if r.state == Processed then Ruling(run, None, false)
        else if r.capture.Some? then Ruling(run, Some(UnprocessedCapture), false)
        else Ruling(Some(r.(state := Captured, capture := Some(c.entries[t].id), updatedAt := c.now)),
                    Some(UnprocessedCapture), false)
    else if c.cutoff.Some? && c.cutoff.value <= t then
      match run
      case None =>
        Ruling(Some(Run(c.target, t, MissingCapture, 0, Backfilled, None, None, None, c.now, c.now)),
               Some(NotCaptured), false)
      case Some(r) =>
        if r.state == Scheduled || r.state == Failed
        then Ruling(Some(r.(state := MissingCapture, updatedAt := c.now)), Some(NotCaptured), false)
        else Ruling(run, Some(NotCaptured), false)
    else
      match run
      case None =>
        Ruling(Some(Run(c.target, t, Unrecoverable, 0, Backfilled, None, None, None, c.now, c.now)), Some(Lost), true)
      case Some(r) =>
        if r.state == Unrecoverable then Ruling(run, Some(Lost), false)
        else Ruling(Some(r.(state := Unrecoverable, updatedAt := c.now)), Some(Lost), true)
  }

  ghost predicate Increasing(ts: seq<Instant>) {
    forall i, j :: 0 <= i < j < |ts| ==> ts[i] < ts[j]
  }

  /** What is reported, in order, each instant at most once. */
  ghost predicate InOrder(gaps: seq<Gap>) {
    forall i, j :: 0 <= i < j < |gaps| ==> gaps[i].t < gaps[j].t
  }

  /** The alerts added from position `from` on: one for each instant that is ruled so. */
  ghost predicate AlertsFrom(c: Scan, s: State, ts: seq<Instant>, events: seq<StoredEvent>) {
    && s.events <= events
    && (forall p :: |s.events| <= p < |events| ==>
          && events[p].target == c.target && events[p].attempt.None? && events[p].createdAt == c.now
          && events[p].event.kind == UnrecoverableGap && events[p].event.subject.Some?
          && events[p].event.subject.value in ts
          && Rule(c, RunOn(s.runs, c.target, events[p].event.subject.value), events[p].event.subject.value).alert)
    && (forall t :: t in ts && Rule(c, RunOn(s.runs, c.target, t), t).alert ==> Alerted(s, events, t))
    && (forall p, q :: |s.events| <= p < q < |events| ==> events[p].event.subject != events[q].event.subject)
  }

  ghost predicate Alerted(s: State, events: seq<StoredEvent>, t: Instant) {
    exists p :: |s.events| <= p < |events| && events[p].event.subject == Some(t)
  }

  /** Exactly what the table reports is reported. */
  ghost predicate Reported(c: Scan, s: State, ts: seq<Instant>, gaps: seq<Gap>) {
    && (forall g :: g in gaps <==> g.t in ts && Rule(c, RunOn(s.runs, c.target, g.t), g.t).kind == Some(g.kind))
    && (Increasing(ts) ==> InOrder(gaps))
  }

  /** The instant's run is as the table has it. */
  ghost predicate RunsRuled(c: Scan, s: State, ts: seq<Instant>, runs: seq<Run>) {
    forall t :: RunOn(runs, c.target, t) ==
                if t in ts then Rule(c, RunOn(s.runs, c.target, t), t).run else RunOn(s.runs, c.target, t)
  }

  /** The outcome of a scan is the table's, instant by instant; nothing else of the ledger changes. */
  ghost predicate Ruled(c: Scan, s: State, ts: seq<Instant>, u: State, gaps: seq<Gap>) {
    && u == s.(runs := u.runs, events := u.events) && OthersKept(c.target, s.runs, u.runs)
    && RunsRuled(c, s, ts, u.runs) && Reported(c, s, ts, gaps) && AlertsFrom(c, s, ts, u.events)
  }

  lemma SameRun(base: seq<Run>, runs: seq<Run>, target: TargetId, t: Instant)
    requires SameAt(base, runs, target, t)
    ensures RunOn(runs, target, t) == RunOn(base, target, t)
  {
  }

  /** One turn is ruled by the table: the run, the report, the alert. */
  lemma StepRunRuled(c: Scan, base: seq<Run>, s: State, t: Instant)
    requires |base| <= |s.runs| && SameAt(base, s.runs, c.target, t)
    ensures RunOn(Step(c, base, s, t).0.runs, c.target, t) == Rule(c, RunOn(base, c.target, t), t).run
  {
    var u := Step(c, base, s, t).0;
    var i := FindRun(s.runs, c.target, t);
    if !c.Tolerated(t) {
      FoundAt(u.runs, c.target, t, if i.Some? then i.value else |s.runs|);
    }
  }

  lemma StepReports(c: Scan, base: seq<Run>, s: State, t: Instant)
    requires |base| <= |s.runs| && SameAt(base, s.runs, c.target, t)
    ensures var rule := Rule(c, RunOn(base, c.target, t), t);
      Step(c, base, s, t).1 == if rule.kind.Some? then [Gap(t, rule.kind.value)] else []
  {
  }

  lemma StepTells(c: Scan, base: seq<Run>, s: State, t: Instant)
    requires |base| <= |s.runs| && SameAt(base, s.runs, c.target, t)
    ensures var u := Step(c, base, s, t).0;
      && u == s.(runs := u.runs, events := u.events) && OthersKept(c.target, s.runs, u.runs)
      && u.events == s.events + if Rule(c, RunOn(base, c.target, t), t).alert
                                then [StoredEvent(c.target, None, QualityEvent(UnrecoverableGap, Some(t)), c.now)]
                                else []
  {
  }

  lemma NextReported(c: Scan, s: State, init: seq<Instant>, last: Instant, gaps: seq<Gap>, more: seq<Gap>)
    requires Reported(c, s, init, gaps) && last !in init
    requires var kind := Rule(c, RunOn(s.runs, c.target, last), last).kind;
      more == if kind.Some? then [Gap(last, kind.value)] else []
    ensures Reported(c, s, init + [last], gaps + more)
  {
    var ts := init + [last];
    if Increasing(ts) {
      assert forall i, j :: 0 <= i < j < |init| ==> init[i] == ts[i] && init[j] == ts[j];
      forall i, j | 0 <= i < j < |gaps + more| ensures (gaps + more)[i].t < (gaps + more)[j].t {
        if j == |gaps| {
          assert gaps[i] in gaps;
          var k :| 0 <= k < |init| && init[k] == gaps[i].t;
          assert ts[k] < ts[|init|];
        }
      }
    }
  }

  lemma NextAlerts(c: Scan, s: State, init: seq<Instant>, last: Instant, events: seq<StoredEvent>,
                   after: seq<StoredEvent>)
    requires AlertsFrom(c, s, init, events) && last !in init
    requires after == events + if Rule(c, RunOn(s.runs, c.target, last), last).alert
                               then [StoredEvent(c.target, None, QualityEvent(UnrecoverableGap, Some(last)), c.now)]
                               else []
    ensures AlertsFrom(c, s, init + [last], after)
  {
    var ts := init + [last];
    forall t | t in ts && Rule(c, RunOn(s.runs, c.target, t), t).alert ensures Alerted(s, after, t) {
      if t == last {
        assert after[|events|].event.subject == Some(t);
      } else {
        assert Alerted(s, events, t);
        var p :| |s.events| <= p < |events| && events[p].event.subject == Some(t);
        assert after[p].event.subject == Some(t);
      }
    }
  }

  lemma NextRuled(c: Scan, s: State, mid: State, init: seq<Instant>, last: Instant, gaps: seq<Gap>)
    requires Ruled(c, s, init, mid, gaps) && SameAt(s.runs, mid.runs, c.target, last) && last !in init
    ensures var (u, more) := Step(c, s.runs, mid, last); Ruled(c, s, init + [last], u, gaps + more)
  {
    var (u, more) := Step(c, s.runs, mid, last);
    StepRunRuled(c, s.runs, mid, last);
    StepReports(c, s.runs, mid, last);
    StepTells(c, s.runs, mid, last);
    NextReported(c, s, init, last, gaps, more);
    NextAlerts(c, s, init, last, mid.events, u.events);
    forall t
      ensures RunOn(u.runs, c.target, t) ==
        if t in init + [last] then Rule(c, RunOn(s.runs, c.target, t), t).run else RunOn(s.runs, c.target, t)
    {
      if t != last {
        StepSpares(c, s.runs, mid, last, t);
      }
    }
  }

  /** The whole scan is ruled by the table, on the runs as it found them. */
  lemma {:induction false} ScanRules(c: Scan, s: State, ts: seq<Instant>)
    requires Distinct(ts)
    ensures var (u, gaps) := ScanAll(c, s.runs, s, ts); Ruled(c, s, ts, u, gaps)
  {
    if ts != [] {
      var init, last := ts[..|ts| - 1], ts[|ts| - 1];
      assert ts == init + [last] && last !in init;
      ScanRules(c, s, init);
      ScanIdles(c, s, init);
      var (mid, gaps) := ScanAll(c, s.runs, s, init);
      NextRuled(c, s, mid, init, last, gaps);
    }
  }
}
