/** Gap scans among all the other workers.

A scan lists the capture log, then reads the target's runs, and then takes one turn per expected
instant, a turn that gives the instant up being followed by the alert; everything else may happen
between any two of these, and a scan may stop after any of them.  Only a scan gives an instant up,
opens it for backfill or raises the alert.
*/
module Scans {
  import opened Types
  import opened Ledger
  import opened System
  import Gaps
  import Invariant
  import Traces

  /** One call of `detect_gaps`: its configuration and what it listed, the runs it read, the instants
      it has dealt with, and the one whose alert it has still to raise. */
  datatype Scanner = Scanner(
    view: Gaps.Scan,
    since: Instant,
    base: Option<seq<Run>>,
    done: set<Instant>,
    owed: Option<Instant>)

  datatype World = World(sys: System, scans: map<nat, Scanner>)

  datatype Move =
    | Other(action: Action)
    | ListLog(scan: nat, view: Gaps.Scan, since: Instant)
    | ReadRuns(scan: nat)
    | Turn(scan: nat, t: Instant)
    | Tell(scan: nat)

  // ---------------------------------------------------------------- moves

  predicate RunAt(run: Run, target: TargetId, t: Instant) {
    run.target == target && run.scheduledFor == t
  }

  ghost predicate HasEntry(b: Bronze, target: TargetId, t: Instant) {
    exists c :: c in b.log && c.target == target && c.scheduledFor == t
  }

  /** The listing of the log since an instant: the newest entry of each logged instant. */
  ghost predicate IsListing(b: Bronze, view: Gaps.Scan, since: Instant) {
    && (forall t :: t in view.entries <==> since <= t && HasEntry(b, view.target, t))
    && (forall t :: t in view.entries ==> Newest(b, view.target, t, view.entries[t]))
  }

  ghost predicate Newest(b: Bronze, target: TargetId, t: Instant, e: CaptureEntry) {
    && Logged(b, e) && e.id.target == target && e.id.scheduledFor == t
    && forall c :: c in b.log && c.target == target && c.scheduledFor == t ==> c.attempt <= e.id.attempt
  }

  /** What a scan alone does. */
  predicate OfScans(a: Action) {
    a.Mark? || (a.AckEmpty? && a.state != Scheduled) || (a.Report? && a.event.kind == UnrecoverableGap)
  }

  ghost predicate Possible(w: World, m: Move) {
    match m
    case Other(a) => Enabled(w.sys, a) && !OfScans(a)
    case ListLog(id, view, since) => id !in w.scans && IsListing(w.sys.bronze, view, since)
    case ReadRuns(id) => id in w.scans && w.scans[id].base.None?
    case Turn(id, t) =>
      && id in w.scans && w.scans[id].base.Some? && |w.scans[id].base.value| <= |w.sys.ledger.runs|
      && w.scans[id].owed.None?
      && t !in w.scans[id].done && w.scans[id].since < t <= w.scans[id].view.now
    case Tell(id) => id in w.scans && w.scans[id].owed.Some?
  }

  ghost function Next(cat: Catalog, w: World, m: Move): World
    requires Possible(w, m)
  {
    match m
    case Other(a) => w.(sys := Apply(cat, w.sys, a))
    case ListLog(id, view, since) => w.(scans := w.scans[id := Scanner(view, since, None, {}, None)])
    case ReadRuns(id) => w.(scans := w.scans[id := w.scans[id].(base := Some(w.sys.ledger.runs))])
    case Turn(id, t) =>
      var s := w.scans[id];
      var owed := if Gaps.Raises(s.view, s.base.value, t) then Some(t) else None;
      World(w.sys.(ledger := Gaps.Settle(s.view, s.base.value, w.sys.ledger, t).0),
            w.scans[id := s.(done := s.done + {t}, owed := owed)])
    case Tell(id) =>
      var s := w.scans[id];
      World(w.sys.(ledger := Gaps.Tell(s.view, w.sys.ledger, s.owed.value)), w.scans[id := s.(owed := None)])
  }

  // ---------------------------------------------------------------- moves are store steps

  /** The store call a turn makes, if any, apart from the alert. */
  function TurnAction(c: Gaps.Scan, base: seq<Run>, t: Instant): Option<Action> {
    var seen := FindRun(base, c.target, t);
    if c.Tolerated(t) then None
    else if t in c.entries then
      if seen.None? || base[seen.value].capture.None? then Some(Ack(c.entries[t], Reconciled, c.now)) else None
    else
      var lost := if c.Recoverable(t) then MissingCapture else Unrecoverable;
      if seen.None? then Some(AckEmpty(c.target, t, lost, Backfilled, c.now))
      else if (if c.Recoverable(t) then base[seen.value].state in {Scheduled, Failed}
               else base[seen.value].state != Unrecoverable)
      then Some(Mark(seen.value, lost, c.now))
      else None
  }

  /** The store call of a move: reading makes none. */
  function ActionOf(w: World, m: Move): Option<Action>
    requires m.Turn? ==> m.scan in w.scans && w.scans[m.scan].base.Some?
    requires m.Tell? ==> m.scan in w.scans && w.scans[m.scan].owed.Some?
  {
    match m
    case Other(a) => Some(a)
    case Turn(id, t) => TurnAction(w.scans[id].view, w.scans[id].base.value, t)
    case Tell(id) =>
      Some(Report(w.scans[id].view.target, Gaps.Alert(w.scans[id].owed.value), w.scans[id].view.now))
    case _ => None
  }

  /** What a scan's view still is later: its listed entries stay logged, its runs stay runs. */
  ghost predicate ViewOk(sys: System, s: Scanner) {
    && (forall t :: t in s.view.entries ==>
          && Logged(sys.bronze, s.view.entries[t]) && s.view.entries[t].id.target == s.view.target
          && s.view.entries[t].id.scheduledFor == t)
    && (s.base.Some? ==> Kept(s.base.value, sys.ledger.runs))
  }

  /** Every run of `base` is still there, with its target and instant. */
  ghost predicate Kept(base: seq<Run>, runs: seq<Run>) {
    && |base| <= |runs|
    && forall r :: 0 <= r < |base| ==> runs[r].target == base[r].target && runs[r].scheduledFor == base[r].scheduledFor
  }

  /** Every move is one step of the system or leaves it as it is. */
  lemma MoveIsStep(cat: Catalog, w: World, m: Move)
    requires Possible(w, m) && (m.Turn? ==> ViewOk(w.sys, w.scans[m.scan]))
    ensures match ActionOf(w, m)
      case None => Next(cat, w, m).sys == w.sys
      case Some(a) => Enabled(w.sys, a) && Next(cat, w, m).sys == Apply(cat, w.sys, a)
  {
  }

  /** A turn, with its alert if it owes one, is the turn of the undisturbed scan. */
  lemma TurnIsStep(cat: Catalog, w: World, id: nat, t: Instant)
    requires Possible(w, Turn(id, t))
    ensures var v, s := Next(cat, w, Turn(id, t)), w.scans[id];
      var after := if v.scans[id].owed.Some? then Next(cat, v, Tell(id)) else v;
      after.sys.ledger == Gaps.Step(s.view, s.base.value, w.sys.ledger, t).0 && after.scans[id].owed.None?
  {
  }

  // ---------------------------------------------------------------- runs of the world

  datatype History = History(worlds: seq<World>, moves: seq<Move>)

  ghost predicate Valid(cat: Catalog, h: History) {
    && |h.worlds| == |h.moves| + 1
    && Traces.Start(h.worlds[0].sys) && h.worlds[0].scans == map[]
    && forall i :: 0 <= i < |h.moves| ==> Moves(cat, h, i)
  }

  /** Move `i` of the history was possible and led where it went on. */
  ghost predicate Moves(cat: Catalog, h: History, i: nat)
    requires i < |h.moves| && |h.worlds| == |h.moves| + 1
  {
    Possible(h.worlds[i], h.moves[i]) && h.worlds[i + 1] == Next(cat, h.worlds[i], h.moves[i])
  }

  /** The history one move longer. */
  ghost function Then(cat: Catalog, h: History, m: Move): (r: History)
    requires Valid(cat, h) && Possible(h.worlds[|h.moves|], m)
    ensures Valid(cat, r) && r.moves == h.moves + [m] && r.worlds == h.worlds + [Next(cat, h.worlds[|h.moves|], m)]
  {
    var r := History(h.worlds + [Next(cat, h.worlds[|h.moves|], m)], h.moves + [m]);
    assert forall i :: 0 <= i < |h.moves| ==> (Moves(cat, r, i) <==> Moves(cat, h, i));
    assert Moves(cat, r, |h.moves|);
    r
  }

  ghost predicate WorldOk(cat: Catalog, w: World) {
    Inv(cat, w.sys) && forall id :: id in w.scans ==> ViewOk(w.sys, w.scans[id])
  }

  lemma ViewStays(p: System, q: System, s: Scanner)
    requires ViewOk(p, s) && |p.ledger.silver.rows| == |p.ledger.silver.occurrences|
    requires |q.ledger.silver.rows| == |q.ledger.silver.occurrences| && Grows(p, q)
    ensures ViewOk(q, s)
  {
    if s.base.Some? {
      forall r | 0 <= r < |s.base.value|
        ensures q.ledger.runs[r].target == s.base.value[r].target
        ensures q.ledger.runs[r].scheduledFor == s.base.value[r].scheduledFor
      {
        assert RunGrows(p.ledger.runs[r], q.ledger.runs[r]);
      }
    }
  }

  lemma MoveKeeps(cat: Catalog, w: World, m: Move)
    requires WorldOk(cat, w) && Possible(w, m)
    ensures WorldOk(cat, Next(cat, w, m)) && Grows(w.sys, Next(cat, w, m).sys)
  {
    var v := Next(cat, w, m);
    MoveIsStep(cat, w, m);
    match ActionOf(w, m)
    case None => Invariant.KeepsOutside(cat, w.sys, w.sys);
    case Some(a) => Invariant.StepKeeps(cat, w.sys, a);
    forall id | id in v.scans ensures ViewOk(v.sys, v.scans[id]) {
      if id in w.scans {
        ViewStays(w.sys, v.sys, w.scans[id]);
      }
    }
  }

  /** Every state of every run, scans included, satisfies the system's invariant. */
  lemma {:induction false} Reachable(cat: Catalog, h: History, i: nat)
    requires Valid(cat, h) && i < |h.worlds|
    ensures WorldOk(cat, h.worlds[i])
  {
    if i > 0 {
      Reachable(cat, h, i - 1);
      assert Moves(cat, h, i - 1);
      MoveKeeps(cat, h.worlds[i - 1], h.moves[i - 1]);
    }
  }

  /** Forgetting the scans, a history is a run of the system: everything proved of runs holds with scans
      among the workers. */
  lemma {:induction false} IsRun(cat: Catalog, h: History, n: nat) returns (tr: Traces.Trace)
    requires Valid(cat, h) && n < |h.worlds|
    ensures Traces.Valid(cat, tr) && tr.states[|tr.actions|] == h.worlds[n].sys
  {
    if n == 0 {
      tr := Traces.Trace([h.worlds[0].sys], []);
    } else {
      tr := IsRun(cat, h, n - 1);
      var w, m := h.worlds[n - 1], h.moves[n - 1];
      assert Moves(cat, h, n - 1);
      Reachable(cat, h, n - 1);
      MoveIsStep(cat, w, m);
      if ActionOf(w, m).Some? {
        tr := Traces.Then(cat, tr, ActionOf(w, m).value);
      }
    }
  }

  /** What no move takes back: log entries, runs and events. */
  ghost predicate Onward(p: System, q: System) {
    && (forall c :: c in p.bronze.log ==> c in q.bronze.log)
    && Kept(p.ledger.runs, q.ledger.runs) && p.ledger.events <= q.ledger.events
  }

  lemma ActionOnward(cat: Catalog, sys: System, a: Action)
    requires Enabled(sys, a)
    ensures Onward(sys, Apply(cat, sys, a))
  {
  }

  lemma MoveOnward(cat: Catalog, w: World, m: Move)
    requires WorldOk(cat, w) && Possible(w, m)
    ensures Onward(w.sys, Next(cat, w, m).sys)
  {
    MoveIsStep(cat, w, m);
    if ActionOf(w, m).Some? {
      ActionOnward(cat, w.sys, ActionOf(w, m).value);
    }
  }

  lemma OnwardTransitive(p: System, q: System, r: System)
    requires Onward(p, q) && Onward(q, r)
    ensures Onward(p, r)
  {
  }

  lemma {:induction false} OnwardAlong(cat: Catalog, h: History, i: nat, j: nat)
    requires Valid(cat, h) && i <= j < |h.worlds|
    ensures Onward(h.worlds[i].sys, h.worlds[j].sys)
    decreases j
  {
    if i < j {
      OnwardAlong(cat, h, i, j - 1);
      assert Moves(cat, h, j - 1);
      Reachable(cat, h, j - 1);
      MoveOnward(cat, h.worlds[j - 1], h.moves[j - 1]);
      OnwardTransitive(h.worlds[i].sys, h.worlds[j - 1].sys, h.worlds[j].sys);
    }
  }

  /** The two reads of scan `id`, as it is at point `k`: it listed at `l` and read the runs at `r`. */
  ghost predicate ReadAt(h: History, k: nat, id: nat, l: nat, r: nat)
    requires |h.worlds| == |h.moves| + 1
  {
    && l < r < k < |h.worlds| && id in h.worlds[k].scans
    && var s := h.worlds[k].scans[id];
       && h.moves[l] == ListLog(id, s.view, s.since) && IsListing(h.worlds[l].sys.bronze, s.view, s.since)
       && h.moves[r] == ReadRuns(id) && s.base == Some(h.worlds[r].sys.ledger.runs)
  }

  lemma {:induction false} ListedAt(cat: Catalog, h: History, k: nat, id: nat) returns (l: nat)
    requires Valid(cat, h) && k < |h.worlds| && id in h.worlds[k].scans
    ensures var s := h.worlds[k].scans[id];
      l < k && h.moves[l] == ListLog(id, s.view, s.since) && IsListing(h.worlds[l].sys.bronze, s.view, s.since)
  {
    assert k > 0 ==> Moves(cat, h, k - 1);
    if id in h.worlds[k - 1].scans {
      l := ListedAt(cat, h, k - 1, id);
    } else {
      l := k - 1;
    }
  }

  lemma {:induction false} Reads(cat: Catalog, h: History, k: nat, id: nat) returns (l: nat, r: nat)
    requires Valid(cat, h) && k < |h.worlds| && id in h.worlds[k].scans && h.worlds[k].scans[id].base.Some?
    ensures ReadAt(h, k, id, l, r)
  {
    assert k > 0 ==> Moves(cat, h, k - 1);
    if id in h.worlds[k - 1].scans && h.worlds[k - 1].scans[id].base.Some? {
      l, r := Reads(cat, h, k - 1, id);
    } else {
      l := ListedAt(cat, h, k - 1, id);
      r := k - 1;
    }
  }
}
