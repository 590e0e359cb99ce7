/** Runs in which an instant gets a second alert: each way the exact condition names, with the scans'
    own turns; and one in which it gets none. */
module SecondAlerts {
  import opened Types
  import opened Ledger
  import opened System
  import opened Scans
  import opened Alerts
  import Gaps

  const START := World(System(Bronze(map[], {}, {}), EMPTY, {}), map[])

  /** A scan at `now` over an empty listing. */
  function View(target: TargetId, now: Instant, tolerance: int, cutoff: Option<Instant>): Gaps.Scan {
    Gaps.Scan(target, now, tolerance, cutoff, map[])
  }

  /** The instant is older than the tolerance, which is positive. */
  predicate Due(t: Instant, now: Instant, tolerance: int) {
    0 < tolerance <= now - t
  }

  predicate Alone(runs: seq<Run>, target: TargetId, t: Instant, state: RunState) {
    |runs| == 1 && RunAt(runs[0], target, t) && runs[0].state == state
  }

  lemma Found(runs: seq<Run>, target: TargetId, t: Instant, state: RunState)
    requires Alone(runs, target, t, state)
    ensures FindRun(runs, target, t) == Some(0)
  {
  }

  /** The world a history has come to. */
  function Now(h: History): World
    requires |h.worlds| == |h.moves| + 1
  {
    h.worlds[|h.moves|]
  }

  /** Scan `id` has made both its readings, and taken no turn yet. */
  predicate HasRead(w: World, id: nat, view: Gaps.Scan, t: Instant, base: seq<Run>) {
    id in w.scans && w.scans[id] == Scanner(view, t - 1, Some(base), {}, None)
  }

  /** History `g` goes on from `h`. */
  ghost predicate Continues(h: History, g: History) {
    |h.worlds| == |h.moves| + 1 && |g.worlds| == |g.moves| + 1 && h.moves <= g.moves && h.worlds <= g.worlds
  }

  /** One scan, from its listing to its reading of the runs. */
  lemma ListAndRead(cat: Catalog, h: History, id: nat, view: Gaps.Scan, t: Instant) returns (g: History)
    requires Valid(cat, h) && id !in Now(h).scans && Now(h).sys.bronze.log == map[] && view.entries == map[]
    ensures Valid(cat, g) && Continues(h, g) && Now(g).sys == Now(h).sys
    ensures g.moves == h.moves + [ListLog(id, view, t - 1), ReadRuns(id)]
    ensures var base := Some(Now(h).sys.ledger.runs);
      Now(g).scans == Now(h).scans[id := Scanner(view, t - 1, base, {}, None)]
  {
    g := Then(cat, h, ListLog(id, view, t - 1));
    g := Then(cat, g, ReadRuns(id));
    var base := Some(Now(h).sys.ledger.runs);
    assert Now(g).scans == Now(h).scans[id := Scanner(view, t - 1, base, {}, None)];
  }

  /** The runs after a turn that gives the instant up and had read `base`. */
  predicate ParksIn(base: seq<Run>, runs: seq<Run>, after: seq<Run>, target: TargetId, t: Instant) {
    && (base == [] && runs == [] ==> Alone(after, target, t, Unrecoverable) && after[0].capture.None?)
    && (base == [] && Alone(runs, target, t, Scheduled) ==> after == runs)
    && (base == runs && Alone(runs, target, t, Scheduled) ==> Alone(after, target, t, Unrecoverable))
  }

  /** A turn on the due instant by a scan that did not read its run as parked. */
  lemma GiveUp(cat: Catalog, h: History, id: nat, view: Gaps.Scan, t: Instant, base: seq<Run>) returns (g: History)
    requires Valid(cat, h) && HasRead(Now(h), id, view, t, base) && view.entries == map[]
    requires Due(t, view.now, view.tolerance) && !view.Recoverable(t)
    requires |base| <= |Now(h).sys.ledger.runs| && !ReadParked(base, view.target, t)
    ensures Valid(cat, g) && Continues(h, g) && AlertsAt(g, |h.moves|, view.target, t)
    ensures g.moves == h.moves + [Turn(id, t)]
    ensures Now(g).sys.bronze == Now(h).sys.bronze && Now(g).sys.ledger.events == Now(h).sys.ledger.events
    ensures ParksIn(base, Now(h).sys.ledger.runs, Now(g).sys.ledger.runs, view.target, t)
    ensures |Now(h).sys.ledger.runs| <= |Now(g).sys.ledger.runs|
    ensures Now(g).scans == Now(h).scans[id := Scanner(view, t - 1, Some(base), {t}, Some(t))]
  {
    g := Then(cat, h, Turn(id, t));
    assert Gaps.Raises(view, base, t);
    assert {} + {t} == {t};
    if Alone(Now(h).sys.ledger.runs, view.target, t, Scheduled) {
      Found(Now(h).sys.ledger.runs, view.target, t, Scheduled);
    }
  }

  /** That turn, and its alert. */
  lemma GiveUpAndTell(cat: Catalog, h: History, id: nat, view: Gaps.Scan, t: Instant, base: seq<Run>)
    returns (g: History)
    requires Valid(cat, h) && HasRead(Now(h), id, view, t, base) && view.entries == map[]
    requires Due(t, view.now, view.tolerance) && !view.Recoverable(t)
    requires |base| <= |Now(h).sys.ledger.runs| && !ReadParked(base, view.target, t)
    ensures Valid(cat, g) && Continues(h, g) && ToldAt(g, |h.moves|, |h.moves| + 1, view.target, t)
    ensures g.moves == h.moves + [Turn(id, t), Tell(id)]
    ensures Now(g).sys.bronze == Now(h).sys.bronze
    ensures ParksIn(base, Now(h).sys.ledger.runs, Now(g).sys.ledger.runs, view.target, t)
    ensures Now(g).sys.ledger.runs == g.worlds[|h.moves| + 1].sys.ledger.runs
    ensures Now(g).scans.Keys == Now(h).scans.Keys
    ensures forall o :: o in Now(h).scans && o != id ==> Now(g).scans[o] == Now(h).scans[o]
  {
    var mid := GiveUp(cat, h, id, view, t, base);
    g := Then(cat, mid, Tell(id));
    assert g.moves[|h.moves|] == mid.moves[|h.moves|] && g.worlds[|h.moves|] == mid.worlds[|h.moves|];
    assert g.worlds[|h.moves| + 1] == Now(mid);
    assert TellMove(g.worlds[|h.moves| + 1], g.moves[|h.moves| + 1], view.target, t);
  }

  lemma Twice(cat: Catalog, h: History, g: History, i: nat, j: nat, target: TargetId, t: Instant)
    requires Valid(cat, g) && Continues(h, g) && i + 1 < |h.moves| && i < j && j + 1 < |g.moves|
    requires ToldAt(h, i, i + 1, target, t) && ToldAt(g, j, j + 1, target, t)
    ensures TwoAlerts(g, |g.moves|, target, t)
  {
    assert ToldAt(g, i, i + 1, target, t);
    assert Told(g, i, |g.moves|, target, t) && Told(g, j, |g.moves|, target, t);
    TwoAlertsAreTwoTurns(cat, g, |g.moves|, target, t);
  }

  /** Scan 0 makes all its moves before any other scan, scan 1, makes one. */
  lemma OneAfterTheOther(h: History, n: nat)
    requires forall k :: 0 <= k < |h.moves| ==> ScanOf(h.moves[k]) in {None, Some(if k < n then 0 else 1)}
    ensures OneAtATime(h)
  {
  }

  /** Overlapping scans: both read the runs before either parks, and no other work is ever done. */
  lemma OverlappingScans(cat: Catalog, target: TargetId, t: Instant, now: Instant, tolerance: int)
    returns (h: History)
    requires Due(t, now, tolerance)
    ensures var view := View(target, now, tolerance, None);
      h.moves == [ListLog(0, view, t - 1), ReadRuns(0), ListLog(1, view, t - 1), ReadRuns(1),
                  Turn(0, t), Tell(0), Turn(1, t), Tell(1)]
    ensures Valid(cat, h) && TwoAlerts(h, |h.moves|, target, t) && Now(h).sys.bronze.log == map[]
  {
    var view := View(target, now, tolerance, None);
    h := BothRead(cat, view, t);
    var first := GiveUpAndTell(cat, h, 0, view, t, []);
    h := GiveUpAndTell(cat, first, 1, view, t, []);
    Twice(cat, first, h, 4, 6, target, t);
  }

  lemma BothRead(cat: Catalog, view: Gaps.Scan, t: Instant) returns (h: History)
    requires view.entries == map[]
    ensures Valid(cat, h) && Now(h).sys == START.sys
    ensures h.moves == [ListLog(0, view, t - 1), ReadRuns(0), ListLog(1, view, t - 1), ReadRuns(1)]
    ensures HasRead(Now(h), 0, view, t, []) && HasRead(Now(h), 1, view, t, [])
  {
    h := History([START], []);
    h := ListAndRead(cat, h, 0, view, t);
    h := ListAndRead(cat, h, 1, view, t);
  }

  /** A late capture, with scans one at a time: the second scan lists the log before the entry lands and
      reads the runs after it is acknowledged, so it parks the captured run and alerts again. */
  lemma LateCapture(cat: Catalog, e: CaptureEntry, now: Instant, tolerance: int, later: Instant) returns (h: History)
    requires Due(e.id.scheduledFor, now, tolerance) && now <= later
    ensures var target, t := e.id.target, e.id.scheduledFor;
      var view, next := View(target, now, tolerance, None), View(target, later, tolerance, None);
      && h.moves == [ListLog(0, view, t - 1), ReadRuns(0), Turn(0, t), Tell(0), ListLog(1, next, t - 1),
                     Other(LogCapture(e)), Other(Ack(e, Backfilled, later)), ReadRuns(1), Turn(1, t), Tell(1)]
      && Valid(cat, h) && OneAtATime(h) && TwoAlerts(h, |h.moves|, target, t)
      && Alone(h.worlds[8].sys.ledger.runs, target, t, Captured)
  {
    var target, t := e.id.target, e.id.scheduledFor;
    var view, next := View(target, now, tolerance, None), View(target, later, tolerance, None);
    var first := ParkFresh(cat, view, t);
    h := ParkCaptured(cat, first, e, next);
    Twice(cat, first, h, 2, 8, target, t);
    OneAfterTheOther(h, 4);
  }

  /** The second scan. */
  lemma ParkCaptured(cat: Catalog, first: History, e: CaptureEntry, view: Gaps.Scan) returns (h: History)
    requires Valid(cat, first) && |first.moves| == 4 && 1 !in Now(first).scans && Now(first).sys.bronze.log == map[]
    requires view.target == e.id.target && view.entries == map[] && view.cutoff.None?
    requires Due(e.id.scheduledFor, view.now, view.tolerance)
    requires Alone(Now(first).sys.ledger.runs, e.id.target, e.id.scheduledFor, Unrecoverable)
    requires Now(first).sys.ledger.runs[0].capture.None?
    ensures var t := e.id.scheduledFor;
      && Valid(cat, h) && Continues(first, h) && ToldAt(h, 8, 9, e.id.target, t)
      && h.moves == first.moves + [ListLog(1, view, t - 1), Other(LogCapture(e)), Other(Ack(e, Backfilled, view.now)),
                                   ReadRuns(1), Turn(1, t), Tell(1)]
      && Alone(h.worlds[8].sys.ledger.runs, e.id.target, t, Captured)
  {
    h := CaptureBetween(cat, first, e, view);
    var read := Now(h);
    Found(read.sys.ledger.runs, e.id.target, e.id.scheduledFor, Captured);
    h := GiveUpAndTell(cat, h, 1, view, e.id.scheduledFor, read.sys.ledger.runs);
    assert h.worlds[8] == read;
  }

  /** One undisturbed scan of an empty ledger. */
  lemma ParkFresh(cat: Catalog, view: Gaps.Scan, t: Instant) returns (h: History)
    requires view.entries == map[] && view.cutoff.None? && Due(t, view.now, view.tolerance)
    ensures Valid(cat, h) && h.moves == [ListLog(0, view, t - 1), ReadRuns(0), Turn(0, t), Tell(0)]
    ensures ToldAt(h, 2, 3, view.target, t) && 1 !in Now(h).scans && Now(h).sys.bronze.log == map[]
    ensures Alone(Now(h).sys.ledger.runs, view.target, t, Unrecoverable) && Now(h).sys.ledger.runs[0].capture.None?
  {
    h := History([START], []);
    h := ListAndRead(cat, h, 0, view, t);
    h := GiveUpAndTell(cat, h, 0, view, t, []);
  }

  /** Between the two readings of scan 1 the entry is created and acknowledged. */
  lemma CaptureBetween(cat: Catalog, h: History, e: CaptureEntry, view: Gaps.Scan) returns (g: History)
    requires Valid(cat, h) && 1 !in Now(h).scans && Now(h).sys.bronze.log == map[]
    requires view.entries == map[]
    requires Alone(Now(h).sys.ledger.runs, e.id.target, e.id.scheduledFor, Unrecoverable)
    requires Now(h).sys.ledger.runs[0].capture.None?
    ensures Valid(cat, g) && Continues(h, g)
    ensures g.moves == h.moves + [ListLog(1, view, e.id.scheduledFor - 1), Other(LogCapture(e)),
                                  Other(Ack(e, Backfilled, view.now)), ReadRuns(1)]
    ensures Alone(Now(g).sys.ledger.runs, e.id.target, e.id.scheduledFor, Captured)
    ensures HasRead(Now(g), 1, view, e.id.scheduledFor, Now(g).sys.ledger.runs)
  {
    var target, t := e.id.target, e.id.scheduledFor;
    Found(Now(h).sys.ledger.runs, target, t, Unrecoverable);
    g := Then(cat, h, ListLog(1, view, t - 1));
    g := Then(cat, g, Other(LogCapture(e)));
    g := Then(cat, g, Other(Ack(e, Backfilled, view.now)));
    g := Then(cat, g, ReadRuns(1));
  }

  /** A turn that parks nothing, with scans one at a time: the first scan read no run, an unavailable
      source left a scheduled one meanwhile, and `ensure_run` leaves that as it is; a later scan alerts
      again. */
  lemma NothingParked(cat: Catalog, target: TargetId, t: Instant, now: Instant, tolerance: int, later: Instant)
    returns (h: History)
    requires Due(t, now, tolerance) && now <= later
    ensures var view, next := View(target, now, tolerance, None), View(target, later, tolerance, None);
      h.moves == [ListLog(0, view, t - 1), ReadRuns(0), Other(AckEmpty(target, t, Scheduled, ByScheduler, now)),
                  Turn(0, t), Tell(0), ListLog(1, next, t - 1), ReadRuns(1), Turn(1, t), Tell(1)]
    ensures Valid(cat, h) && OneAtATime(h) && TwoAlerts(h, |h.moves|, target, t) && Now(h).sys.bronze.log == map[]
    ensures Alone(h.worlds[4].sys.ledger.runs, target, t, Scheduled)
  {
    var next := View(target, later, tolerance, None);
    var first := BlindTurn(cat, target, t, View(target, now, tolerance, None));
    h := ListAndRead(cat, first, 1, next, t);
    var runs := Now(first).sys.ledger.runs;
    Found(runs, target, t, Scheduled);
    h := GiveUpAndTell(cat, h, 1, next, t, runs);
    Twice(cat, first, h, 3, 7, target, t);
    OneAfterTheOther(h, 5);
    assert h.worlds[4] == first.worlds[4];
  }

  lemma BlindTurn(cat: Catalog, target: TargetId, t: Instant, view: Gaps.Scan) returns (h: History)
    requires view.target == target && view.entries == map[] && view.cutoff.None? && Due(t, view.now, view.tolerance)
    ensures Valid(cat, h) && ToldAt(h, 3, 4, target, t)
    ensures h.moves == [ListLog(0, view, t - 1), ReadRuns(0),
                        Other(AckEmpty(target, t, Scheduled, ByScheduler, view.now)), Turn(0, t), Tell(0)]
    ensures Alone(Now(h).sys.ledger.runs, target, t, Scheduled) && h.worlds[4].sys.ledger.runs == Now(h).sys.ledger.runs
    ensures 1 !in Now(h).scans && Now(h).sys.bronze.log == map[]
  {
    h := History([START], []);
    h := ListAndRead(cat, h, 0, view, t);
    h := Then(cat, h, Other(AckEmpty(target, t, Scheduled, ByScheduler, view.now)));
    h := GiveUpAndTell(cat, h, 0, view, t, []);
  }

  /** A reopened run, of a source that serves a fixed span of history: a scan that found the instant still
      served read its run as scheduled, and takes its turn after a later scan, which found it no longer
      served, parked it; a third scan alerts again. */
  lemma Reopened(cat: Catalog, target: TargetId, t: Instant, now: Instant, tolerance: int) returns (h: History)
    requires Due(t, now, tolerance)
    ensures h.moves == Overlap(target, t, now, tolerance) + [Turn(0, t)] + Third(target, t, now, tolerance)
    ensures Valid(cat, h) && TwoAlerts(h, |h.moves|, target, t) && Now(h).sys.bronze.log == map[]
    ensures Reopens(h.worlds[7], h.moves[7], target, t)
  {
    var first := ParkOver(cat, target, t, now, tolerance);
    var reopened := ReopenTurn(cat, first, target, t);
    var third := View(target, now + 2, tolerance, Some(t + 2));
    h := ListAndRead(cat, reopened, 2, third, t);
    var runs := Now(reopened).sys.ledger.runs;
    Found(runs, target, t, MissingCapture);
    h := GiveUpAndTell(cat, h, 2, third, t, runs);
    Twice(cat, first, h, 5, 10, target, t);
    assert h.worlds[7] == reopened.worlds[7];
  }

  /** The first scan at `now`, the second an instant later, of a source that serves what is at most
      `now - t` old. */
  function Overlap(target: TargetId, t: Instant, now: Instant, tolerance: int): seq<Move> {
    [Other(AckEmpty(target, t, Scheduled, ByScheduler, t)),
     ListLog(0, View(target, now, tolerance, Some(t)), t - 1), ReadRuns(0),
     ListLog(1, View(target, now + 1, tolerance, Some(t + 1)), t - 1), ReadRuns(1), Turn(1, t), Tell(1)]
  }

  function Third(target: TargetId, t: Instant, now: Instant, tolerance: int): seq<Move> {
    [ListLog(2, View(target, now + 2, tolerance, Some(t + 2)), t - 1), ReadRuns(2), Turn(2, t), Tell(2)]
  }

  /** The run was scheduled when both scans read it; scan 1 parks it. */
  lemma ParkOver(cat: Catalog, target: TargetId, t: Instant, now: Instant, tolerance: int) returns (h: History)
    requires Due(t, now, tolerance)
    ensures Valid(cat, h) && h.moves == Overlap(target, t, now, tolerance) && ToldAt(h, 5, 6, target, t)
    ensures Alone(Now(h).sys.ledger.runs, target, t, Unrecoverable) && Now(h).scans.Keys == {0, 1}
    ensures Now(h).sys.bronze.log == map[]
    ensures StillServed(Now(h), target, t, now, tolerance)
  {
    h := ScheduledOnly(cat, target, t);
    var runs := Now(h).sys.ledger.runs;
    Found(runs, target, t, Scheduled);
    var next := View(target, now + 1, tolerance, Some(t + 1));
    h := ListAndRead(cat, h, 0, View(target, now, tolerance, Some(t)), t);
    h := ListAndRead(cat, h, 1, next, t);
    h := GiveUpAndTell(cat, h, 1, next, t, runs);
  }

  /** Scan 0 read the run as scheduled, and its source still served the instant. */
  ghost predicate StillServed(w: World, target: TargetId, t: Instant, now: Instant, tolerance: int) {
    && Due(t, now, tolerance) && 0 in w.scans && w.scans[0].base.Some?
    && HasRead(w, 0, View(target, now, tolerance, Some(t)), t, w.scans[0].base.value)
    && Alone(w.scans[0].base.value, target, t, Scheduled)
  }

  lemma ScheduledOnly(cat: Catalog, target: TargetId, t: Instant) returns (h: History)
    ensures Valid(cat, h) && h.moves == [Other(AckEmpty(target, t, Scheduled, ByScheduler, t))]
    ensures Now(h).scans == map[] && Now(h).sys.bronze.log == map[]
    ensures Alone(Now(h).sys.ledger.runs, target, t, Scheduled)
  {
    h := History([START], []);
    h := Then(cat, h, Other(AckEmpty(target, t, Scheduled, ByScheduler, t)));
  }

  lemma ReopenTurn(cat: Catalog, h: History, target: TargetId, t: Instant) returns (g: History)
    requires Valid(cat, h) && |h.moves| == 7 && Now(h).scans.Keys == {0, 1} && Now(h).sys.bronze.log == map[]
    requires Alone(Now(h).sys.ledger.runs, target, t, Unrecoverable)
    requires exists now, tolerance :: StillServed(Now(h), target, t, now, tolerance)
    ensures Valid(cat, g) && Continues(h, g) && g.moves == h.moves + [Turn(0, t)]
    ensures Reopens(g.worlds[7], g.moves[7], target, t)
    ensures Alone(Now(g).sys.ledger.runs, target, t, MissingCapture) && 2 !in Now(g).scans
    ensures Now(g).sys.bronze.log == map[]
  {
    Found(Now(h).scans[0].base.value, target, t, Scheduled);
    g := Then(cat, h, Turn(0, t));
  }

  /** And no alert at all: a scan stops between parking the run and the alert, and a later one, on current
      readings, finds the run parked and has nothing to say. */
  lemma LostAlert(cat: Catalog, target: TargetId, t: Instant, now: Instant, tolerance: int, later: Instant)
    returns (h: History)
    requires Due(t, now, tolerance) && now <= later
    ensures var view, next := View(target, now, tolerance, None), View(target, later, tolerance, None);
      h.moves == [ListLog(0, view, t - 1), ReadRuns(0), Turn(0, t), ListLog(1, next, t - 1), ReadRuns(1), Turn(1, t)]
    ensures Valid(cat, h) && Parked(Now(h).sys, target, t) && !HasAlert(Now(h), target, t)
    ensures 1 in Now(h).scans && Now(h).scans[1].done == {t} && Now(h).scans[1].owed.None?
  {
    var view, next := View(target, now, tolerance, None), View(target, later, tolerance, None);
    h := History([START], []);
    h := ListAndRead(cat, h, 0, view, t);
    var parked := GiveUp(cat, h, 0, view, t, []);
    h := ListAndRead(cat, parked, 1, next, t);
    Found(Now(h).sys.ledger.runs, target, t, Unrecoverable);
    h := Then(cat, h, Turn(1, t));
    assert ParkedRun(Now(h).sys.ledger.runs[0], target, t);
  }
}
