/** When an instant gets a second alert: over whole runs of the system and its gap scans. */
module Alerts {
  import opened Types
  import opened Ledger
  import opened System
  import opened Scans
  import Gaps

  // ---------------------------------------------------------------- giving an instant up

  /** The run of the instant is parked as lost. */
  ghost predicate Parked(sys: System, target: TargetId, t: Instant) {
    exists r :: 0 <= r < |sys.ledger.runs| && ParkedRun(sys.ledger.runs[r], target, t)
  }

  predicate ParkedRun(run: Run, target: TargetId, t: Instant) {
    RunAt(run, target, t) && run.state == Unrecoverable
  }

  ghost predicate HasRun(sys: System, target: TargetId, t: Instant) {
    exists r :: 0 <= r < |sys.ledger.runs| && RunAt(sys.ledger.runs[r], target, t)
  }

  /** A turn on an instant that is due, beyond what the source serves, and not in the scan's listing. */
  ghost predicate DueTurn(w: World, m: Move, target: TargetId, t: Instant) {
    && m.Turn? && m.t == t && Possible(w, m)
    && var c := w.scans[m.scan].view;
       c.target == target && !c.Tolerated(t) && t !in c.entries && !c.Recoverable(t)
  }

  /** The runs the scan read show the instant's run as parked. */
  predicate ReadParked(base: seq<Run>, target: TargetId, t: Instant) {
    var i := FindRun(base, target, t);
    i.Some? && base[i.value].state == Unrecoverable
  }

  /** A turn that gives the instant up, to raise the alert next. */
  ghost predicate AlertTurn(w: World, m: Move, target: TargetId, t: Instant) {
    DueTurn(w, m, target, t) && !ReadParked(w.scans[m.scan].base.value, target, t)
  }

  lemma ParkedIsRead(cat: Catalog, sys: System, target: TargetId, t: Instant)
    requires Inv(cat, sys)
    ensures ReadParked(sys.ledger.runs, target, t) <==> Parked(sys, target, t)
  {
  }

  // ---------------------------------------------------------------- what moves do to the run

  /** Work other than scans parks nothing. */
  lemma WorkParksNothing(cat: Catalog, sys: System, a: Action, target: TargetId, t: Instant)
    requires Enabled(sys, a) && !OfScans(a) && Parked(Apply(cat, sys, a), target, t)
    ensures Parked(sys, target, t)
  {
    var q := Apply(cat, sys, a);
    var r :| 0 <= r < |q.ledger.runs| && ParkedRun(q.ledger.runs[r], target, t);
    assert r < |sys.ledger.runs| && ParkedRun(sys.ledger.runs[r], target, t);
  }

  /** A turn that parks a run does so on its own instant, which is due, unlisted and read as not parked. */
  lemma StepParks(c: Gaps.Scan, base: seq<Run>, s: State, t: Instant, r: nat)
    requires Kept(base, s.runs) && r < |Gaps.Settle(c, base, s, t).0.runs|
    requires Gaps.Settle(c, base, s, t).0.runs[r].state == Unrecoverable
    requires r < |s.runs| ==> Gaps.Settle(c, base, s, t).0.runs[r] != s.runs[r]
    ensures RunAt(Gaps.Settle(c, base, s, t).0.runs[r], c.target, t)
    ensures !c.Tolerated(t) && t !in c.entries && !c.Recoverable(t) && !ReadParked(base, c.target, t)
  {
  }

  /** Only an alerting turn parks a run. */
  lemma TurnParks(cat: Catalog, w: World, m: Move, target: TargetId, t: Instant)
    requires Possible(w, m) && m.Turn? && ViewOk(w.sys, w.scans[m.scan])
    requires !Parked(w.sys, target, t) && Parked(Next(cat, w, m).sys, target, t)
    ensures AlertTurn(w, m, target, t)
  {
    var q, s := Next(cat, w, m).sys, w.scans[m.scan];
    var r :| 0 <= r < |q.ledger.runs| && ParkedRun(q.ledger.runs[r], target, t);
    assert r < |w.sys.ledger.runs| ==> q.ledger.runs[r] != w.sys.ledger.runs[r];
    StepParks(s.view, s.base.value, w.sys.ledger, m.t, r);
  }

  lemma OnlyAlertsPark(cat: Catalog, w: World, m: Move, target: TargetId, t: Instant)
    requires WorldOk(cat, w) && Possible(w, m) && !Parked(w.sys, target, t) && Parked(Next(cat, w, m).sys, target, t)
    ensures AlertTurn(w, m, target, t)
  {
    if m.Other? {
      WorkParksNothing(cat, w.sys, m.action, target, t);
    } else if m.Turn? {
      TurnParks(cat, w, m, target, t);
    }
  }

  /** A move takes the parked run out of that state. */
  ghost predicate Leaves(cat: Catalog, w: World, m: Move, target: TargetId, t: Instant) {
    Possible(w, m) && Parked(w.sys, target, t) && !Parked(Next(cat, w, m).sys, target, t)
  }

  /** A turn of a scan for which the source still served the instant, and that read the run as
      scheduled or failed, opens it for backfill. */
  ghost predicate Reopens(w: World, m: Move, target: TargetId, t: Instant) {
    && m.Turn? && m.t == t && Possible(w, m)
    && var s := w.scans[m.scan];
       && s.view.target == target && s.view.Recoverable(t)
       && var i := FindRun(s.base.value, target, t); i.Some? && s.base.value[i.value].state in {Scheduled, Failed}
  }

  lemma FinishIsLogged(cat: Catalog, sys: System, a: Action)
    requires Inv(cat, sys) && Enabled(sys, a) && a.Finish?
    ensures a.claim.runId < |sys.ledger.runs|
    ensures var run := sys.ledger.runs[a.claim.runId]; HasEntry(sys.bronze, run.target, run.scheduledFor)
  {
    var c := a.claim;
    assert ClaimOk(sys.ledger, c);
    assert AttemptOk(sys.bronze, sys.ledger.runs[c.runId], sys.ledger.attempts[c.attemptId]);
    assert sys.ledger.attempts[c.attemptId].capture.value in sys.bronze.log;
  }

  /** Which work changes the state of run `r`. */
  lemma WorkTouches(cat: Catalog, sys: System, a: Action, r: nat)
    requires Enabled(sys, a) && !OfScans(a) && r < |sys.ledger.runs|
    ensures r < |Apply(cat, sys, a).ledger.runs|
    ensures Apply(cat, sys, a).ledger.runs[r].state == sys.ledger.runs[r].state
            || (a.Finish? && a.claim.runId == r) || (a.Recapture? && a.run == r)
            || (a.Ack? && RunAt(sys.ledger.runs[r], a.entry.id.target, a.entry.id.scheduledFor))
  {
  }

  /** Work takes a run out of the parked state only for a logged capture. */
  lemma WorkLeaves(cat: Catalog, sys: System, a: Action, target: TargetId, t: Instant, r: nat)
    requires Inv(cat, sys) && Enabled(sys, a) && !OfScans(a) && r < |sys.ledger.runs|
    requires RunAt(sys.ledger.runs[r], target, t)
    requires r < |Apply(cat, sys, a).ledger.runs| && Apply(cat, sys, a).ledger.runs[r].state != sys.ledger.runs[r].state
    ensures HasEntry(sys.bronze, target, t)
  {
    WorkTouches(cat, sys, a, r);
    if a.Finish? {
      FinishIsLogged(cat, sys, a);
    } else {
      assert a.entry.id in sys.bronze.log && a.entry.id.target == target && a.entry.id.scheduledFor == t;
    }
  }

  lemma TurnLeaves(w: World, m: Move, target: TargetId, t: Instant, r: nat)
    requires Possible(w, m) && m.Turn? && ViewOk(w.sys, w.scans[m.scan])
    requires r < |w.sys.ledger.runs| && ParkedRun(w.sys.ledger.runs[r], target, t)
    requires var s := w.scans[m.scan];
      var u := Gaps.Settle(s.view, s.base.value, w.sys.ledger, m.t).0;
      r < |u.runs| && u.runs[r].state != Unrecoverable
    ensures HasEntry(w.sys.bronze, target, t) || Reopens(w, m, target, t)
  {
    var s := w.scans[m.scan];
    if m.t in s.view.entries {
      assert s.view.entries[m.t].id in w.sys.bronze.log;
    }
  }

  /** So a run leaves the parked state for a logged capture, or is reopened. */
  lemma LeavesBecause(cat: Catalog, w: World, m: Move, target: TargetId, t: Instant)
    requires WorldOk(cat, w) && Leaves(cat, w, m, target, t)
    ensures HasEntry(w.sys.bronze, target, t) || Reopens(w, m, target, t)
  {
    var r :| 0 <= r < |w.sys.ledger.runs| && ParkedRun(w.sys.ledger.runs[r], target, t);
    MoveOnward(cat, w, m);
    var q := Next(cat, w, m).sys;
    assert RunAt(q.ledger.runs[r], target, t) && !ParkedRun(q.ledger.runs[r], target, t);
    if m.Other? {
      WorkLeaves(cat, w.sys, m.action, target, t, r);
    } else if m.Turn? {
      TurnLeaves(w, m, target, t, r);
    }
  }

  // ---------------------------------------------------------------- over whole runs

  /** If move `e` parks the run, it is an alerting turn. */
  ghost predicate ParksByAlert(h: History, e: nat, target: TargetId, t: Instant)
    requires e < |h.moves| && |h.worlds| == |h.moves| + 1
  {
    !Parked(h.worlds[e].sys, target, t) && Parked(h.worlds[e + 1].sys, target, t) ==>
      AlertTurn(h.worlds[e], h.moves[e], target, t)
  }

  lemma {:induction false} ParkedFold(h: History, i: nat, k: nat, target: TargetId, t: Instant) returns (j: nat)
    requires |h.worlds| == |h.moves| + 1 && i <= k < |h.worlds|
    requires !Parked(h.worlds[i].sys, target, t) && Parked(h.worlds[k].sys, target, t)
    requires forall e :: i <= e < k ==> ParksByAlert(h, e, target, t)
    ensures i <= j < k && AlertTurn(h.worlds[j], h.moves[j], target, t)
    decreases k
  {
    assert ParksByAlert(h, k - 1, target, t);
    if Parked(h.worlds[k - 1].sys, target, t) {
      j := ParkedFold(h, i, k - 1, target, t);
    } else {
      j := k - 1;
    }
  }

  lemma MoveParks(cat: Catalog, h: History, e: nat, target: TargetId, t: Instant)
    requires Valid(cat, h) && e < |h.moves|
    ensures ParksByAlert(h, e, target, t)
  {
    Reachable(cat, h, e);
    assert Moves(cat, h, e);
    if !Parked(h.worlds[e].sys, target, t) && Parked(h.worlds[e + 1].sys, target, t) {
      OnlyAlertsPark(cat, h.worlds[e], h.moves[e], target, t);
    }
  }

  /** Parked at `k` but not at `i`: some alerting turn in between parked it. */
  lemma ParkedSince(cat: Catalog, h: History, i: nat, k: nat, target: TargetId, t: Instant) returns (j: nat)
    requires Valid(cat, h) && i <= k < |h.worlds| && !Parked(h.worlds[i].sys, target, t)
    requires Parked(h.worlds[k].sys, target, t)
    ensures i <= j < k && AlertTurn(h.worlds[j], h.moves[j], target, t)
  {
    forall e | i <= e < k ensures ParksByAlert(h, e, target, t) {
      MoveParks(cat, h, e, target, t);
    }
    j := ParkedFold(h, i, k, target, t);
  }

  /** Move `e` took the parked run out of that state. */
  ghost predicate LeavesAt(h: History, e: nat, target: TargetId, t: Instant)
    requires e < |h.moves| && |h.worlds| == |h.moves| + 1
  {
    Parked(h.worlds[e].sys, target, t) && !Parked(h.worlds[e + 1].sys, target, t)
  }

  /** Parked at `i` but not at `k`: some move in between took it out. */
  lemma {:induction false} LeftSince(h: History, i: nat, k: nat, target: TargetId, t: Instant) returns (e: nat)
    requires |h.worlds| == |h.moves| + 1 && i <= k < |h.worlds|
    requires Parked(h.worlds[i].sys, target, t) && !Parked(h.worlds[k].sys, target, t)
    ensures i <= e < k && LeavesAt(h, e, target, t)
    decreases k
  {
    if Parked(h.worlds[k - 1].sys, target, t) {
      e := k - 1;
    } else {
      e := LeftSince(h, i, k - 1, target, t);
    }
  }

  /** An entry of the instant is created in [l, e). */
  ghost predicate LandedIn(h: History, l: nat, e: nat, target: TargetId, t: Instant) {
    exists i :: l <= i < e && i < |h.moves| && Lands(h.moves[i], target, t)
  }

  predicate Lands(m: Move, target: TargetId, t: Instant) {
    m.Other? && m.action.LogCapture? && m.action.entry.id.target == target && m.action.entry.id.scheduledFor == t
  }

  lemma MoveLands(cat: Catalog, w: World, m: Move, target: TargetId, t: Instant)
    requires Possible(w, m) && !HasEntry(w.sys.bronze, target, t) && HasEntry(Next(cat, w, m).sys.bronze, target, t)
    ensures Lands(m, target, t)
  {
    var q := Next(cat, w, m).sys;
    var c :| c in q.bronze.log && c.target == target && c.scheduledFor == t;
    assert c !in w.sys.bronze.log;
  }

  lemma {:induction false} EntryLanded(cat: Catalog, h: History, l: nat, e: nat, target: TargetId, t: Instant)
    requires Valid(cat, h) && l <= e < |h.worlds| && !HasEntry(h.worlds[l].sys.bronze, target, t)
    requires HasEntry(h.worlds[e].sys.bronze, target, t)
    ensures LandedIn(h, l, e, target, t)
    decreases e
  {
    if HasEntry(h.worlds[e - 1].sys.bronze, target, t) {
      EntryLanded(cat, h, l, e - 1, target, t);
    } else {
      assert Moves(cat, h, e - 1);
      MoveLands(cat, h.worlds[e - 1], h.moves[e - 1], target, t);
    }
  }

  lemma EntryStays(cat: Catalog, h: History, i: nat, j: nat, target: TargetId, t: Instant)
    requires Valid(cat, h) && i <= j < |h.worlds| && HasEntry(h.worlds[i].sys.bronze, target, t)
    ensures HasEntry(h.worlds[j].sys.bronze, target, t)
  {
    OnwardAlong(cat, h, i, j);
    var c :| c in h.worlds[i].sys.bronze.log && c.target == target && c.scheduledFor == t;
    assert c in h.worlds[j].sys.bronze.log;
  }

  // ---------------------------------------------------------------- events

  predicate IsAlert(e: StoredEvent, target: TargetId, t: Instant) {
    e.target == target && e.event == Gaps.Alert(t)
  }

  /** A move that raises the alert of the instant, which the scan gave up in its turn. */
  ghost predicate TellMove(w: World, m: Move, target: TargetId, t: Instant) {
    && m.Tell? && Possible(w, m)
    && w.scans[m.scan].view.target == target && w.scans[m.scan].owed == Some(t)
  }

  /** The move adds an alert exactly if it is such a move, and then one. */
  ghost predicate Tells(w: World, m: Move, v: World, target: TargetId, t: Instant) {
    && w.sys.ledger.events <= v.sys.ledger.events
    && (TellMove(w, m, target, t) ==>
          && |v.sys.ledger.events| == |w.sys.ledger.events| + 1
          && IsAlert(v.sys.ledger.events[|w.sys.ledger.events|], target, t))
    && (!TellMove(w, m, target, t) ==>
          forall p :: |w.sys.ledger.events| <= p < |v.sys.ledger.events| ==>
            !IsAlert(v.sys.ledger.events[p], target, t))
  }

  lemma WorkTells(cat: Catalog, w: World, m: Move, target: TargetId, t: Instant)
    requires Possible(w, m) && m.Other?
    ensures Tells(w, m, Next(cat, w, m), target, t)
  {
  }

  lemma ScanTells(cat: Catalog, w: World, m: Move, target: TargetId, t: Instant)
    requires Possible(w, m) && !m.Other?
    ensures Tells(w, m, Next(cat, w, m), target, t)
  {
  }

  ghost predicate TellsAt(h: History, e: nat, target: TargetId, t: Instant)
    requires e < |h.moves| && |h.worlds| == |h.moves| + 1
  {
    Tells(h.worlds[e], h.moves[e], h.worlds[e + 1], target, t)
  }

  lemma MoveTellsAt(cat: Catalog, h: History, e: nat, target: TargetId, t: Instant)
    requires Valid(cat, h) && e < |h.moves|
    ensures TellsAt(h, e, target, t)
  {
    assert Moves(cat, h, e);
    if h.moves[e].Other? {
      WorkTells(cat, h.worlds[e], h.moves[e], target, t);
    } else {
      ScanTells(cat, h.worlds[e], h.moves[e], target, t);
    }
  }

  lemma {:induction false} OriginFold(h: History, n: nat, p: nat, target: TargetId, t: Instant) returns (k: nat)
    requires |h.worlds| == |h.moves| + 1 && n < |h.worlds| && h.worlds[0].sys.ledger.events == []
    requires forall e :: 0 <= e < n ==> TellsAt(h, e, target, t)
    requires p < |h.worlds[n].sys.ledger.events| && IsAlert(h.worlds[n].sys.ledger.events[p], target, t)
    ensures k < n && TellMove(h.worlds[k], h.moves[k], target, t) && |h.worlds[k].sys.ledger.events| == p
  {
    assert TellsAt(h, n - 1, target, t);
    if p < |h.worlds[n - 1].sys.ledger.events| {
      k := OriginFold(h, n - 1, p, target, t);
    } else {
      k := n - 1;
    }
  }

  // ---------------------------------------------------------------- from the turn to its alert

  ghost predicate AlertsAt(h: History, k: nat, target: TargetId, t: Instant) {
    k < |h.moves| && k < |h.worlds| && AlertTurn(h.worlds[k], h.moves[k], target, t)
  }

  /** Scan `id` owes the alert of `t` at point `k`. */
  predicate Owes(h: History, k: nat, id: nat, target: TargetId, t: Instant) {
    && k < |h.worlds| && id in h.worlds[k].scans
    && h.worlds[k].scans[id].view.target == target && h.worlds[k].scans[id].owed == Some(t)
  }

  /** An owed alert goes back to the turn that gave the instant up, and was owed ever since. */
  lemma {:induction false} OwedSince(cat: Catalog, h: History, k: nat, id: nat, target: TargetId, t: Instant)
    returns (j: nat)
    requires Valid(cat, h) && Owes(h, k, id, target, t)
    ensures j < k && h.moves[j] == Turn(id, t) && AlertsAt(h, j, target, t)
    ensures forall i :: j < i <= k ==> Owes(h, i, id, target, t)
    decreases k
  {
    assert k > 0 ==> Moves(cat, h, k - 1);
    if Owes(h, k - 1, id, target, t) {
      j := OwedSince(cat, h, k - 1, id, target, t);
    } else {
      j := k - 1;
    }
  }

  /** Turn `j` gave the instant up, and its scan raises the alert at `k`. */
  ghost predicate ToldAt(h: History, j: nat, k: nat, target: TargetId, t: Instant) {
    && AlertsAt(h, j, target, t) && j < k < |h.moves| && k < |h.worlds|
    && h.moves[k] == Tell(h.moves[j].scan) && TellMove(h.worlds[k], h.moves[k], target, t)
  }

  ghost predicate Told(h: History, j: nat, n: nat, target: TargetId, t: Instant) {
    exists k :: j < k < n && ToldAt(h, j, k, target, t)
  }

  /** The turn whose alert move `k` raises. */
  lemma TellOrigin(cat: Catalog, h: History, k: nat, target: TargetId, t: Instant) returns (j: nat)
    requires Valid(cat, h) && k < |h.moves| && TellMove(h.worlds[k], h.moves[k], target, t)
    ensures ToldAt(h, j, k, target, t) && forall i :: j < i <= k ==> Owes(h, i, h.moves[k].scan, target, t)
  {
    j := OwedSince(cat, h, k, h.moves[k].scan, target, t);
  }

  /** Every alert in the ledger was raised for a turn of its own that gave the instant up. */
  lemma AlertOrigin(cat: Catalog, h: History, n: nat, p: nat, target: TargetId, t: Instant) returns (j: nat, k: nat)
    requires Valid(cat, h) && n < |h.worlds| && p < |h.worlds[n].sys.ledger.events|
    requires IsAlert(h.worlds[n].sys.ledger.events[p], target, t)
    ensures k < n && ToldAt(h, j, k, target, t) && |h.worlds[k].sys.ledger.events| == p
    ensures forall i :: j < i <= k ==> Owes(h, i, h.moves[k].scan, target, t)
  {
    forall e | 0 <= e < n ensures TellsAt(h, e, target, t) {
      MoveTellsAt(cat, h, e, target, t);
    }
    k := OriginFold(h, n, p, target, t);
    j := TellOrigin(cat, h, k, target, t);
  }

  lemma {:induction false} StaysDone(cat: Catalog, h: History, i: nat, k: nat)
    requires Valid(cat, h) && i < k < |h.worlds| && h.moves[i].Turn?
    ensures h.moves[i].scan in h.worlds[k].scans && h.moves[i].t in h.worlds[k].scans[h.moves[i].scan].done
    decreases k
  {
    assert Moves(cat, h, k - 1);
    if i < k - 1 {
      StaysDone(cat, h, i, k - 1);
    }
  }

  /** No scan takes two turns on one instant. */
  lemma TurnsOnce(cat: Catalog, h: History, i: nat, j: nat)
    requires Valid(cat, h) && i < j < |h.moves| && h.moves[i].Turn? && h.moves[j].Turn? && h.moves[i].t == h.moves[j].t
    ensures h.moves[i].scan != h.moves[j].scan
  {
    StaysDone(cat, h, i, j);
    assert Moves(cat, h, j);
  }

  /** A turn that gave the instant up has raised its alert by the time its scan no longer owes it. */
  lemma {:induction false} ToldUnlessOwed(cat: Catalog, h: History, j: nat, n: nat, target: TargetId, t: Instant)
    requires Valid(cat, h) && AlertsAt(h, j, target, t) && j < n < |h.worlds|
    ensures Owes(h, n, h.moves[j].scan, target, t) || Told(h, j, n, target, t)
    decreases n
  {
    assert Moves(cat, h, n - 1);
    if j < n - 1 {
      ToldUnlessOwed(cat, h, j, n - 1, target, t);
      if Owes(h, n - 1, h.moves[j].scan, target, t) && h.moves[n - 1] == Tell(h.moves[j].scan) {
        assert ToldAt(h, j, n - 1, target, t);
      } else if Told(h, j, n - 1, target, t) {
        var k :| j < k < n - 1 && ToldAt(h, j, k, target, t);
      }
    }
  }

  // ---------------------------------------------------------------- how many alerts

  ghost predicate HasAlert(w: World, target: TargetId, t: Instant) {
    exists p :: 0 <= p < |w.sys.ledger.events| && IsAlert(w.sys.ledger.events[p], target, t)
  }

  ghost predicate TwoAlerts(h: History, n: nat, target: TargetId, t: Instant)
    requires n < |h.worlds|
  {
    var events := h.worlds[n].sys.ledger.events;
    exists p, q :: 0 <= p < q < |events| && IsAlert(events[p], target, t) && IsAlert(events[q], target, t)
  }

  ghost predicate TwoTold(h: History, n: nat, target: TargetId, t: Instant) {
    exists i, j :: 0 <= i < j < n && Told(h, i, n, target, t) && Told(h, j, n, target, t)
  }

  ghost predicate TwoTurns(h: History, n: nat, target: TargetId, t: Instant) {
    exists i, j :: 0 <= i < j < n && AlertsAt(h, i, target, t) && AlertsAt(h, j, target, t)
  }

  /** Alert `k` of a scan is raised once: a turn is not told again. */
  lemma ToldOnce(cat: Catalog, h: History, i: nat, j: nat, k: nat, l: nat, target: TargetId, t: Instant)
    requires Valid(cat, h) && k < l && ToldAt(h, i, k, target, t) && ToldAt(h, j, l, target, t)
    requires forall e :: j < e <= l ==> Owes(h, e, h.moves[l].scan, target, t)
    ensures i != j
  {
    assert Moves(cat, h, k);
    assert !Owes(h, k + 1, h.moves[k].scan, target, t);
  }

  lemma TwoAlertsMeanTwoTurns(cat: Catalog, h: History, n: nat, p: nat, q: nat, target: TargetId, t: Instant)
    requires Valid(cat, h) && n < |h.worlds| && p < q < |h.worlds[n].sys.ledger.events|
    requires IsAlert(h.worlds[n].sys.ledger.events[p], target, t)
    requires IsAlert(h.worlds[n].sys.ledger.events[q], target, t)
    ensures TwoTold(h, n, target, t)
  {
    var i, k := AlertOrigin(cat, h, n, p, target, t);
    var j, l := AlertOrigin(cat, h, n, q, target, t);
    if l <= k {
      OnwardAlong(cat, h, l, k);
    }
    ToldOnce(cat, h, i, j, k, l, target, t);
    assert Told(h, i, n, target, t) && Told(h, j, n, target, t);
  }

  lemma TwoTurnsMeanTwoAlerts(cat: Catalog, h: History, n: nat, i: nat, j: nat, k: nat, l: nat, target: TargetId,
                              t: Instant)
    requires Valid(cat, h) && i < j && k < n < |h.worlds| && l < n
    requires ToldAt(h, i, k, target, t) && ToldAt(h, j, l, target, t)
    ensures TwoAlerts(h, n, target, t)
  {
    TurnsOnce(cat, h, i, j);
    if k < l {
      BothStand(cat, h, k, l, n, target, t);
    } else {
      BothStand(cat, h, l, k, n, target, t);
    }
  }

  /** The alerts in the ledger are those of the turns that gave the instant up and were told: two alerts
      are two such turns, and the other way round. */
  lemma TwoAlertsAreTwoTurns(cat: Catalog, h: History, n: nat, target: TargetId, t: Instant)
    requires Valid(cat, h) && n < |h.worlds|
    ensures TwoAlerts(h, n, target, t) <==> TwoTold(h, n, target, t)
  {
    var events := h.worlds[n].sys.ledger.events;
    if TwoAlerts(h, n, target, t) {
      var p, q :| 0 <= p < q < |events| && IsAlert(events[p], target, t) && IsAlert(events[q], target, t);
      TwoAlertsMeanTwoTurns(cat, h, n, p, q, target, t);
    }
    if TwoTold(h, n, target, t) {
      var i, j :| 0 <= i < j < n && Told(h, i, n, target, t) && Told(h, j, n, target, t);
      var k :| i < k < n && ToldAt(h, i, k, target, t);
      var l :| j < l < n && ToldAt(h, j, l, target, t);
      TwoTurnsMeanTwoAlerts(cat, h, n, i, j, k, l, target, t);
    }
  }

  lemma BothStand(cat: Catalog, h: History, k: nat, l: nat, n: nat, target: TargetId, t: Instant)
    requires Valid(cat, h) && k < l < n < |h.worlds|
    requires TellMove(h.worlds[k], h.moves[k], target, t) && TellMove(h.worlds[l], h.moves[l], target, t)
    ensures TwoAlerts(h, n, target, t)
  {
    AlertStands(cat, h, k, n, target, t);
    AlertStands(cat, h, l, n, target, t);
    MoveTellsAt(cat, h, k, target, t);
    OnwardAlong(cat, h, k + 1, l);
    var events := h.worlds[n].sys.ledger.events;
    var p, q := |h.worlds[k].sys.ledger.events|, |h.worlds[l].sys.ledger.events|;
    assert 0 <= p < q < |events| && IsAlert(events[p], target, t) && IsAlert(events[q], target, t);
  }

  lemma AlertStands(cat: Catalog, h: History, k: nat, n: nat, target: TargetId, t: Instant)
    requires Valid(cat, h) && k < n < |h.worlds| && TellMove(h.worlds[k], h.moves[k], target, t)
    ensures var p, events := |h.worlds[k].sys.ledger.events|, h.worlds[n].sys.ledger.events;
      p < |events| && IsAlert(events[p], target, t)
    ensures HasAlert(h.worlds[n], target, t)
  {
    MoveTellsAt(cat, h, k, target, t);
    OnwardAlong(cat, h, k + 1, n);
  }

  /** No scan owes the alert of the instant: none stopped, or is just now, between giving it up and
      raising it. */
  predicate NoneOwed(w: World, target: TargetId, t: Instant) {
    forall id :: id in w.scans && w.scans[id].view.target == target ==> w.scans[id].owed != Some(t)
  }

  /** An instant has an alert exactly if some turn that gave it up was told; and a parked instant has
      one unless a scan still owes it. */
  lemma AlertIffTold(cat: Catalog, h: History, n: nat, target: TargetId, t: Instant)
    requires Valid(cat, h) && n < |h.worlds|
    ensures HasAlert(h.worlds[n], target, t) <==> exists j: nat :: j < n && Told(h, j, n, target, t)
    ensures Parked(h.worlds[n].sys, target, t) && NoneOwed(h.worlds[n], target, t) ==>
              HasAlert(h.worlds[n], target, t)
  {
    var events := h.worlds[n].sys.ledger.events;
    if HasAlert(h.worlds[n], target, t) {
      var p :| 0 <= p < |events| && IsAlert(events[p], target, t);
      var j, k := AlertOrigin(cat, h, n, p, target, t);
      assert Told(h, j, n, target, t);
    }
    if j: nat :| j < n && Told(h, j, n, target, t) {
      var k :| j < k < n && ToldAt(h, j, k, target, t);
      AlertStands(cat, h, k, n, target, t);
    }
    if Parked(h.worlds[n].sys, target, t) && NoneOwed(h.worlds[n], target, t) {
      var j := ParkedSince(cat, h, 0, n, target, t);
      ToldUnlessOwed(cat, h, j, n, target, t);
    }
  }

  // ---------------------------------------------------------------- the exact condition

  /** Between the first alert, at `i`, and the runs read at `r`, the run left the parked state, for an
      entry that landed since the log was listed at `l`, or because a stale scan reopened it. */
  ghost predicate Left(h: History, i: nat, l: nat, r: nat, target: TargetId, t: Instant)
    requires |h.worlds| == |h.moves| + 1
  {
    exists e :: i < e < r && e < |h.moves| && LeavesAt(h, e, target, t)
      && (LandedIn(h, l, e, target, t) || Reopens(h.worlds[e], h.moves[e], target, t))
  }

  /** Why the due turn `j`, whose scan listed the log at `l` and read the runs at `r`, need not see
      what the alert at `i` did: it had read the runs before; or the alert parked nothing, its own
      reading being stale; or the run had left the parked state again. */
  ghost predicate Unseen(cat: Catalog, h: History, i: nat, j: nat, l: nat, r: nat, target: TargetId, t: Instant) {
    && i < j < |h.moves| && j < |h.worlds| && |h.worlds| == |h.moves| + 1 && DueTurn(h.worlds[j], h.moves[j], target, t)
    && ReadAt(h, j, h.moves[j].scan, l, r)
    && (r <= i || !Parked(h.worlds[i + 1].sys, target, t) || Left(h, i, l, r, target, t))
  }

  /** A second alerting turn did not see the first alert. */
  lemma SecondIsUnseen(cat: Catalog, h: History, i: nat, j: nat, target: TargetId, t: Instant) returns (l: nat, r: nat)
    requires Valid(cat, h) && i < j && AlertsAt(h, i, target, t) && AlertsAt(h, j, target, t)
    ensures Unseen(cat, h, i, j, l, r, target, t)
  {
    l, r := Reads(cat, h, j, h.moves[j].scan);
    if i < r && Parked(h.worlds[i + 1].sys, target, t) {
      Reachable(cat, h, r);
      ParkedIsRead(cat, h.worlds[r].sys, target, t);
      var e := LeftSince(h, i + 1, r, target, t);
      LeftForReason(cat, h, j, l, e, target, t);
    }
  }

  lemma LeftForReason(cat: Catalog, h: History, j: nat, l: nat, e: nat, target: TargetId, t: Instant)
    requires Valid(cat, h) && e < j < |h.moves| && l < j && DueTurn(h.worlds[j], h.moves[j], target, t)
    requires LeavesAt(h, e, target, t)
    requires var s := h.worlds[j].scans[h.moves[j].scan]; IsListing(h.worlds[l].sys.bronze, s.view, s.since)
    ensures LandedIn(h, l, e, target, t) || Reopens(h.worlds[e], h.moves[e], target, t)
  {
    Reachable(cat, h, e);
    assert Moves(cat, h, e);
    LeavesBecause(cat, h.worlds[e], h.moves[e], target, t);
    assert !HasEntry(h.worlds[l].sys.bronze, target, t);
    if HasEntry(h.worlds[e].sys.bronze, target, t) {
      if e < l {
        EntryStays(cat, h, e, l, target, t);
      } else {
        EntryLanded(cat, h, l, e, target, t);
      }
    }
  }

  /** And a due turn that could not see an alert means that there are two. */
  lemma UnseenMeansTwo(cat: Catalog, h: History, i: nat, j: nat, l: nat, r: nat, target: TargetId, t: Instant)
    returns (a: nat, b: nat)
    requires Valid(cat, h) && AlertsAt(h, i, target, t) && Unseen(cat, h, i, j, l, r, target, t)
    ensures a < b <= j && AlertsAt(h, a, target, t) && AlertsAt(h, b, target, t)
  {
    Reachable(cat, h, r);
    ParkedIsRead(cat, h.worlds[r].sys, target, t);
    if !Parked(h.worlds[r].sys, target, t) {
      a, b := i, j;
    } else if r <= i {
      a := ParkedSince(cat, h, 0, r, target, t);
      b := i;
    } else if !Parked(h.worlds[i + 1].sys, target, t) {
      a := i;
      b := ParkedSince(cat, h, i + 1, r, target, t);
    } else {
      a := i;
      b := ParkedAgain(cat, h, i, l, r, target, t);
    }
  }

  /** The run left the parked state and is in it again: an alert came between. */
  lemma ParkedAgain(cat: Catalog, h: History, i: nat, l: nat, r: nat, target: TargetId, t: Instant) returns (b: nat)
    requires Valid(cat, h) && r < |h.worlds| && Left(h, i, l, r, target, t) && Parked(h.worlds[r].sys, target, t)
    ensures i < b < r && AlertsAt(h, b, target, t)
  {
    var e :| i < e < r && e < |h.moves| && LeavesAt(h, e, target, t);
    b := ParkedSince(cat, h, e + 1, r, target, t);
  }

  /** One alert per gap, exactly: in any run, an instant is given up twice if and only if, after a turn
      that gave it up, some scan takes a due turn on it whose readings did not show that it was parked: it
      read the runs before, or the first turn parked nothing, or the run had left the parked state
      because an entry landed since the scan listed the log or a stale scan reopened it.  A second alert
      needs that, and it follows from that as soon as no scan owes the instant's alert. */
  lemma SecondAlertIff(cat: Catalog, h: History, n: nat, target: TargetId, t: Instant)
    requires Valid(cat, h) && n < |h.worlds|
    ensures TwoTurns(h, n, target, t) <==> SomeUnseen(cat, h, n, target, t)
    ensures TwoAlerts(h, n, target, t) ==> SomeUnseen(cat, h, n, target, t)
    ensures NoneOwed(h.worlds[n], target, t) ==>
              (TwoAlerts(h, n, target, t) <==> SomeUnseen(cat, h, n, target, t))
  {
    TwoAlertsAreTwoTurns(cat, h, n, target, t);
    if TwoTurns(h, n, target, t) {
      var i, j :| 0 <= i < j < n && AlertsAt(h, i, target, t) && AlertsAt(h, j, target, t);
      var l, r := SecondIsUnseen(cat, h, i, j, target, t);
      assert AlertUnseen(cat, h, i, j, l, r, target, t);
      if NoneOwed(h.worlds[n], target, t) {
        ToldUnlessOwed(cat, h, i, n, target, t);
        ToldUnlessOwed(cat, h, j, n, target, t);
      }
    }
    if i: nat, j: nat, l: nat, r: nat :| j < n && AlertUnseen(cat, h, i, j, l, r, target, t) {
      var a, b := UnseenMeansTwo(cat, h, i, j, l, r, target, t);
    }
    ToldAreTurns(h, n, target, t);
  }

  lemma ToldAreTurns(h: History, n: nat, target: TargetId, t: Instant)
    ensures TwoTold(h, n, target, t) ==> TwoTurns(h, n, target, t)
  {
    if TwoTold(h, n, target, t) {
      var i, j :| 0 <= i < j < n && Told(h, i, n, target, t) && Told(h, j, n, target, t);
      assert AlertsAt(h, i, target, t) && AlertsAt(h, j, target, t);
    }
  }

  ghost predicate SomeUnseen(cat: Catalog, h: History, n: nat, target: TargetId, t: Instant) {
    exists i: nat, j: nat, l: nat, r: nat :: j < n && AlertUnseen(cat, h, i, j, l, r, target, t)
  }

  /** Turn `i` gives the instant up, and the due turn `j` need not see what it did. */
  ghost predicate AlertUnseen(cat: Catalog, h: History, i: nat, j: nat, l: nat, r: nat, target: TargetId, t: Instant) {
    AlertsAt(h, i, target, t) && Unseen(cat, h, i, j, l, r, target, t)
  }

  // ---------------------------------------------------------------- scans one at a time

  function ScanOf(m: Move): Option<nat> {
    if m.Other? then None else Some(m.scan)
  }

  /** No scan makes a move between two moves of another. */
  predicate OneAtATime(h: History) {
    forall l, i, k :: 0 <= l < i < k < |h.moves| && ScanOf(h.moves[l]) == ScanOf(h.moves[k]) ==>
      ScanOf(h.moves[l]).None? || ScanOf(h.moves[i]).None? || ScanOf(h.moves[i]) == ScanOf(h.moves[l])
  }

  /** Then a scan's readings come after every earlier turn of another scan on the instant. */
  lemma ReadsAfter(cat: Catalog, h: History, i: nat, j: nat, l: nat)
    requires Valid(cat, h) && OneAtATime(h) && i < j < |h.moves| && l < j
    requires h.moves[i].Turn? && h.moves[j].Turn? && h.moves[i].t == h.moves[j].t
    requires h.moves[l] == ReadRuns(h.moves[j].scan)
             || (h.moves[l].ListLog? && h.moves[l].scan == h.moves[j].scan)
    ensures i < l
  {
    TurnsOnce(cat, h, i, j);
    assert ScanOf(h.moves[l]) == ScanOf(h.moves[j]) && ScanOf(h.moves[i]) != ScanOf(h.moves[j]);
  }

  /** And no scan reopens a parked run: what it read is older than the parking only if another scan's
      turn came between. */
  lemma SoloNeverReopens(cat: Catalog, h: History, e: nat, target: TargetId, t: Instant)
    requires Valid(cat, h) && OneAtATime(h) && e < |h.moves| && Parked(h.worlds[e].sys, target, t)
    ensures !Reopens(h.worlds[e], h.moves[e], target, t)
  {
    if Reopens(h.worlds[e], h.moves[e], target, t) {
      var l, r := Reads(cat, h, e, h.moves[e].scan);
      Reachable(cat, h, r);
      ParkedIsRead(cat, h.worlds[r].sys, target, t);
      var b := ParkedSince(cat, h, r, e, target, t);
      ReadsAfter(cat, h, b, e, r);
    }
  }

  /** Between the first turn, at `i`, and the runs read at `r`, the run left the parked state after an
      entry landed since the log was listed at `l`. */
  ghost predicate LeftForEntry(h: History, i: nat, l: nat, r: nat, target: TargetId, t: Instant)
    requires |h.worlds| == |h.moves| + 1
  {
    exists e :: i < e < r && e < |h.moves| && LeavesAt(h, e, target, t) && LandedIn(h, l, e, target, t)
  }

  /** Turn `i` gave the instant up and parked nothing, or an entry of it landed between the two readings
      of a later scan that takes the due turn `j`. */
  ghost predicate SoloUnseen(cat: Catalog, h: History, i: nat, j: nat, l: nat, r: nat, target: TargetId, t: Instant) {
    && AlertsAt(h, i, target, t) && i < l < r < j < |h.moves| && |h.worlds| == |h.moves| + 1
    && DueTurn(h.worlds[j], h.moves[j], target, t) && ReadAt(h, j, h.moves[j].scan, l, r)
    && (!Parked(h.worlds[i + 1].sys, target, t) || LeftForEntry(h, i, l, r, target, t))
  }

  lemma SoloIsUnseen(cat: Catalog, h: History, i: nat, j: nat, l: nat, r: nat, target: TargetId, t: Instant)
    requires Valid(cat, h) && OneAtATime(h)
    ensures SoloUnseen(cat, h, i, j, l, r, target, t) <==> AlertUnseen(cat, h, i, j, l, r, target, t)
  {
    if AlertUnseen(cat, h, i, j, l, r, target, t) {
      ReadsAfter(cat, h, i, j, l);
      if Left(h, i, l, r, target, t) {
        var e :| i < e < r && e < |h.moves| && LeavesAt(h, e, target, t)
          && (LandedIn(h, l, e, target, t) || Reopens(h.worlds[e], h.moves[e], target, t));
        SoloNeverReopens(cat, h, e, target, t);
      }
    }
    if SoloUnseen(cat, h, i, j, l, r, target, t) && LeftForEntry(h, i, l, r, target, t) {
      assert Left(h, i, l, r, target, t);
    }
  }

  /** Scans run one at a time, as deployed: an instant is given up twice if and only if a turn that gave it
      up parked nothing, or an entry of it landed between a later scan's two readings; and only then has
      it a second alert. */
  lemma OneAtATimeIff(cat: Catalog, h: History, n: nat, target: TargetId, t: Instant)
    requires Valid(cat, h) && OneAtATime(h) && n < |h.worlds|
    ensures TwoTurns(h, n, target, t) <==> SomeSolo(cat, h, n, target, t)
    ensures TwoAlerts(h, n, target, t) ==> SomeSolo(cat, h, n, target, t)
    ensures NoneOwed(h.worlds[n], target, t) ==> (TwoAlerts(h, n, target, t) <==> SomeSolo(cat, h, n, target, t))
  {
    SecondAlertIff(cat, h, n, target, t);
    SomeSoloIsUnseen(cat, h, n, target, t);
  }

  lemma SomeSoloIsUnseen(cat: Catalog, h: History, n: nat, target: TargetId, t: Instant)
    requires Valid(cat, h) && OneAtATime(h)
    ensures SomeSolo(cat, h, n, target, t) <==> SomeUnseen(cat, h, n, target, t)
  {
    forall i: nat, j: nat, l: nat, r: nat
      ensures SoloUnseen(cat, h, i, j, l, r, target, t) <==> AlertUnseen(cat, h, i, j, l, r, target, t)
    {
      SoloIsUnseen(cat, h, i, j, l, r, target, t);
    }
  }

  ghost predicate SomeSolo(cat: Catalog, h: History, n: nat, target: TargetId, t: Instant) {
    exists i: nat, j: nat, l: nat, r: nat :: j < n && SoloUnseen(cat, h, i, j, l, r, target, t)
  }

  /** A turn that gives the instant up parks nothing exactly when it read no run, and meanwhile other work
      made one that is not parked. */
  lemma ParksNothingIff(cat: Catalog, w: World, m: Move, target: TargetId, t: Instant)
    requires WorldOk(cat, w) && AlertTurn(w, m, target, t)
    ensures !Parked(Next(cat, w, m).sys, target, t) <==>
      && FindRun(w.scans[m.scan].base.value, target, t).None?
      && HasRun(w.sys, target, t) && !Parked(w.sys, target, t)
  {
    var base, q := w.scans[m.scan].base.value, Next(cat, w, m).sys;
    var i := FindRun(base, target, t);
    if i.Some? {
      assert ParkedRun(q.ledger.runs[i.value], target, t);
    } else if FindRun(w.sys.ledger.runs, target, t).None? {
      assert ParkedRun(q.ledger.runs[|w.sys.ledger.runs|], target, t);
    } else {
      assert q.ledger == w.sys.ledger;
    }
  }

  // ---------------------------------------------------------------- scans on current readings

  /** Nothing about the instant changed from `l` to `k`: neither that it is logged nor its run. */
  ghost predicate Steady(h: History, l: nat, k: nat, target: TargetId, t: Instant)
    requires k < |h.worlds|
  {
    forall i :: l <= i <= k ==> SameInstant(h.worlds[l].sys, h.worlds[i].sys, target, t)
  }

  ghost predicate SameInstant(p: System, q: System, target: TargetId, t: Instant) {
    && (HasEntry(p.bronze, target, t) <==> HasEntry(q.bronze, target, t))
    && RunOn(p.ledger.runs, target, t) == RunOn(q.ledger.runs, target, t)
  }

  /** Every turn on the instant acts on current readings: nothing about it changed since its scan listed
      the log. */
  ghost predicate ReadingsCurrent(h: History, n: nat, target: TargetId, t: Instant)
    requires |h.worlds| == |h.moves| + 1
  {
    forall k, l, r :: 0 <= k < n && k < |h.moves| && OnInstant(h, k, target, t)
                      && ReadAt(h, k, h.moves[k].scan, l, r) ==>
                        Steady(h, l, k, target, t)
  }

  ghost predicate OnInstant(h: History, k: nat, target: TargetId, t: Instant)
    requires k < |h.moves| < |h.worlds|
  {
    var m := h.moves[k];
    m.Turn? && m.t == t && m.scan in h.worlds[k].scans && h.worlds[k].scans[m.scan].view.target == target
  }

  /** Such an alerting turn finds the run not parked, and parks it. */
  lemma CurrentAlertParks(cat: Catalog, h: History, n: nat, i: nat, target: TargetId, t: Instant)
    requires Valid(cat, h) && i < n && AlertsAt(h, i, target, t) && ReadingsCurrent(h, n, target, t)
    ensures !Parked(h.worlds[i].sys, target, t) && Parked(h.worlds[i + 1].sys, target, t)
  {
    var m := h.moves[i];
    var l, r := Reads(cat, h, i, m.scan);
    assert OnInstant(h, i, target, t);
    assert SameInstant(h.worlds[l].sys, h.worlds[r].sys, target, t);
    assert SameInstant(h.worlds[l].sys, h.worlds[i].sys, target, t);
    Reachable(cat, h, i);
    ParkedIsRead(cat, h.worlds[i].sys, target, t);
    assert Moves(cat, h, i);
    AlertParks(cat, h.worlds[i], m, target, t);
  }

  lemma AlertParks(cat: Catalog, w: World, m: Move, target: TargetId, t: Instant)
    requires AlertTurn(w, m, target, t)
    requires RunOn(w.scans[m.scan].base.value, target, t) == RunOn(w.sys.ledger.runs, target, t)
    requires Kept(w.scans[m.scan].base.value, w.sys.ledger.runs)
    ensures Parked(Next(cat, w, m).sys, target, t)
  {
    var base, q := w.scans[m.scan].base.value, Next(cat, w, m).sys;
    var i := FindRun(base, target, t);
    var r := if i.Some? then i.value else |w.sys.ledger.runs|;
    assert ParkedRun(q.ledger.runs[r], target, t);
  }

  lemma ParkedChanges(cat: Catalog, p: System, q: System, target: TargetId, t: Instant)
    requires Inv(cat, p) && Inv(cat, q) && Parked(p, target, t) != Parked(q, target, t)
    ensures RunOn(p.ledger.runs, target, t) != RunOn(q.ledger.runs, target, t)
  {
    ParkedIsRead(cat, p, target, t);
    ParkedIsRead(cat, q, target, t);
  }

  /** Scans whose turns act on current readings raise at most one alert per instant, whatever captures,
      backfills, processing and reconcile do between them; and a parked instant has its one alert unless
      a scan still owes it. */
  lemma CurrentScansAlertOnce(cat: Catalog, h: History, n: nat, target: TargetId, t: Instant)
    requires Valid(cat, h) && n < |h.worlds| && ReadingsCurrent(h, n, target, t)
    ensures !TwoAlerts(h, n, target, t)
    ensures Parked(h.worlds[n].sys, target, t) && NoneOwed(h.worlds[n], target, t) ==>
              HasAlert(h.worlds[n], target, t)
  {
    AlertIffTold(cat, h, n, target, t);
    SecondAlertIff(cat, h, n, target, t);
    forall i: nat, j: nat, l: nat, r: nat | i < j < n && AlertsAt(h, i, target, t)
      ensures !AlertUnseen(cat, h, i, j, l, r, target, t)
    {
      CurrentIsSeen(cat, h, n, i, j, l, r, target, t);
    }
  }

  lemma CurrentIsSeen(cat: Catalog, h: History, n: nat, i: nat, j: nat, l: nat, r: nat, target: TargetId, t: Instant)
    requires Valid(cat, h) && i < j < n < |h.worlds| && ReadingsCurrent(h, n, target, t) && AlertsAt(h, i, target, t)
    ensures !Unseen(cat, h, i, j, l, r, target, t)
  {
    CurrentAlertParks(cat, h, n, i, target, t);
    if DueTurn(h.worlds[j], h.moves[j], target, t) && ReadAt(h, j, h.moves[j].scan, l, r) {
      assert OnInstant(h, j, target, t);
      AlertMoves(cat, h, i, target, t);
      SteadyBetween(h, l, j, i, target, t);
      NeverLeft(cat, h, n, i, j, l, r, target, t);
    }
  }

  lemma AlertMoves(cat: Catalog, h: History, i: nat, target: TargetId, t: Instant)
    requires Valid(cat, h) && i < |h.moves|
    requires Parked(h.worlds[i].sys, target, t) != Parked(h.worlds[i + 1].sys, target, t)
    ensures !SameInstant(h.worlds[i].sys, h.worlds[i + 1].sys, target, t)
  {
    Reachable(cat, h, i);
    Reachable(cat, h, i + 1);
    ParkedChanges(cat, h.worlds[i].sys, h.worlds[i + 1].sys, target, t);
  }

  lemma SteadyBetween(h: History, l: nat, j: nat, i: nat, target: TargetId, t: Instant)
    requires i < j < |h.worlds| && Steady(h, l, j, target, t)
    ensures l <= i ==> SameInstant(h.worlds[i].sys, h.worlds[i + 1].sys, target, t)
  {
    if l <= i {
      assert SameInstant(h.worlds[l].sys, h.worlds[i].sys, target, t);
      assert SameInstant(h.worlds[l].sys, h.worlds[i + 1].sys, target, t);
    }
  }

  lemma NeverLeft(cat: Catalog, h: History, n: nat, i: nat, j: nat, l: nat, r: nat, target: TargetId, t: Instant)
    requires Valid(cat, h) && i < j < n < |h.worlds| && ReadingsCurrent(h, n, target, t) && l < r < j
    requires DueTurn(h.worlds[j], h.moves[j], target, t) && Steady(h, l, j, target, t)
    requires var s := h.worlds[j].scans[h.moves[j].scan]; IsListing(h.worlds[l].sys.bronze, s.view, s.since)
    ensures !Left(h, i, l, r, target, t)
  {
    forall e: nat | i < e < r && LeavesAt(h, e, target, t)
      ensures !LandedIn(h, l, e, target, t) && !Reopens(h.worlds[e], h.moves[e], target, t)
    {
      NothingLanded(cat, h, j, l, e, target, t);
      NotReopened(cat, h, n, e, target, t);
    }
  }

  lemma NothingLanded(cat: Catalog, h: History, j: nat, l: nat, e: nat, target: TargetId, t: Instant)
    requires Valid(cat, h) && e <= j < |h.moves| && l < j && DueTurn(h.worlds[j], h.moves[j], target, t)
    requires var s := h.worlds[j].scans[h.moves[j].scan]; IsListing(h.worlds[l].sys.bronze, s.view, s.since)
    requires Steady(h, l, j, target, t)
    ensures !LandedIn(h, l, e, target, t)
  {
    forall i | l <= i < e ensures !Lands(h.moves[i], target, t) {
      assert SameInstant(h.worlds[l].sys, h.worlds[i + 1].sys, target, t);
      assert Moves(cat, h, i);
      LandedIsLogged(cat, h.worlds[i], h.moves[i], target, t);
    }
  }

  lemma LandedIsLogged(cat: Catalog, w: World, m: Move, target: TargetId, t: Instant)
    requires Possible(w, m)
    ensures Lands(m, target, t) ==> HasEntry(Next(cat, w, m).sys.bronze, target, t)
  {
    assert Lands(m, target, t) ==> m.action.entry.id in Next(cat, w, m).sys.bronze.log;
  }

  lemma NotReopened(cat: Catalog, h: History, n: nat, e: nat, target: TargetId, t: Instant)
    requires Valid(cat, h) && e < n < |h.worlds| && ReadingsCurrent(h, n, target, t)
    requires Parked(h.worlds[e].sys, target, t)
    ensures !Reopens(h.worlds[e], h.moves[e], target, t)
  {
    if Reopens(h.worlds[e], h.moves[e], target, t) {
      var l, r := Reads(cat, h, e, h.moves[e].scan);
      assert OnInstant(h, e, target, t);
      BaseIsCurrent(cat, h, l, r, e, target, t);
    }
  }

  /** A steady instant is parked now exactly if the scan read it so. */
  lemma BaseIsCurrent(cat: Catalog, h: History, l: nat, r: nat, e: nat, target: TargetId, t: Instant)
    requires Valid(cat, h) && l <= r <= e < |h.worlds| && Steady(h, l, e, target, t)
    ensures ReadParked(h.worlds[r].sys.ledger.runs, target, t) <==> Parked(h.worlds[e].sys, target, t)
  {
    assert SameInstant(h.worlds[l].sys, h.worlds[r].sys, target, t);
    assert SameInstant(h.worlds[l].sys, h.worlds[e].sys, target, t);
    Reachable(cat, h, e);
    ParkedIsRead(cat, h.worlds[e].sys, target, t);
  }
}
