/** Create-only capture under racing writers.

Each writer of `Bronze.capture` is cut at its calls to shared storage: list the instant's
entries, put the blob, create the entry.  A schedule is any sequence of such steps by any number
of writers; a crashed writer is one the schedule never picks again.
*/
module CaptureRace {
  import opened Types

  const MAX_COLLISIONS := 5

  /** A fetch result; `body` is the content address of its bytes. */
  datatype Fetched = Fetched(
    url: Url,
    status: int,
    notModified: bool,
    body: Sha,
    at: Instant,
    validators: Option<Validators>)

  /** What a 304 and `content_changed` refer to: the run's previous attempt, or a given entry. */
  datatype Baseline = SameRun | Given(entry: Option<CaptureEntry>)

  datatype Request = Request(
    target: TargetId,
    t: Instant,
    force: bool,
    transport: Transport,
    baseline: Baseline,
    result: Fetched)

  datatype Phase =
    | Looking
    | Storing(planned: CaptureEntry)
    | Poised(planned: CaptureEntry)
    | Done(entry: CaptureEntry, created: bool)
    | NotCaptured
    | GaveUp

  /** `blockers` are the keys other writers took first; `seen` is the log when the call began. */
  datatype Writer = Writer(request: Request, phase: Phase, stored: bool, blockers: seq<CaptureId>, seen: set<CaptureId>)

  datatype Race = Race(
    log: map<CaptureId, CaptureEntry>,
    blobs: set<Sha>,
    writers: map<WorkerId, Writer>,
    author: map<CaptureId, WorkerId>)

  datatype Move = Begin(writer: WorkerId, request: Request) | Go(writer: WorkerId)

  // ---------------------------------------------------------------- listing

  /** Entry ids of the instant with an attempt above `n`. */
  predicate Has(log: map<CaptureId, CaptureEntry>, target: TargetId, t: Instant, n: nat) {
    CaptureId(target, t, n) in log
  }

  ghost predicate IsHighest(log: map<CaptureId, CaptureEntry>, target: TargetId, t: Instant, n: nat) {
    && (n > 0 ==> Has(log, target, t, n))
    && forall c :: c in log && c.target == target && c.scheduledFor == t ==> c.attempt <= n
  }

  lemma {:induction false} HighestExists(log: map<CaptureId, CaptureEntry>, target: TargetId, t: Instant)
    ensures exists n: nat :: IsHighest(log, target, t, n)
    decreases |log|
  {
    if c :| c in log {
      var rest := map d | d in log && d != c :: log[d];
      assert rest.Keys == log.Keys - {c};
      HighestExists(rest, target, t);
      var n: nat :| IsHighest(rest, target, t, n);
      if c.target == target && c.scheduledFor == t && c.attempt > n {
        assert IsHighest(log, target, t, c.attempt);
      } else {
        assert IsHighest(log, target, t, n);
      }
    } else {
      assert IsHighest(log, target, t, 0);
    }
  }

  /** The newest attempt number of the instant, 0 when it has none. */
  ghost function Highest(log: map<CaptureId, CaptureEntry>, target: TargetId, t: Instant): (n: nat)
    ensures IsHighest(log, target, t, n)
  {
    HighestExists(log, target, t);
    var n: nat :| IsHighest(log, target, t, n);
    n
  }

  ghost function Newest(log: map<CaptureId, CaptureEntry>, target: TargetId, t: Instant): Option<CaptureEntry> {
    var n := Highest(log, target, t);
    if n == 0 then None else Some(log[CaptureId(target, t, n)])
  }

  // ---------------------------------------------------------------- one writer's steps

  function Compared(q: Request, newest: Option<CaptureEntry>): Option<CaptureEntry> {
    if q.baseline.SameRun? then newest else q.baseline.entry
  }

  /** A 304 needs a baseline of the same resource; otherwise the capture is refused. */
  predicate Acceptable(q: Request, previous: Option<CaptureEntry>) {
    q.result.notModified ==> previous.Some? && previous.value.url == q.result.url
  }

  function Plan(q: Request, attempt: nat, previous: Option<CaptureEntry>): CaptureEntry
    requires Acceptable(q, previous)
  {
    var sha := if q.result.notModified then previous.value.payload else q.result.body;
    CaptureEntry(CaptureId(q.target, q.t, attempt), q.result.at, q.result.url, q.result.status, sha,
                 previous.None? || previous.value.payload != sha, q.transport,
                 if q.result.notModified then previous.value.validators else q.result.validators)
  }

  /** List the instant and decide: answer with what is there, refuse, or plan the next attempt. */
  ghost function Look(r: Race, w: Writer): Phase {
    var q := w.request;
    var newest := Newest(r.log, q.target, q.t);
    var previous := Compared(q, newest);
    if newest.Some? && !q.force && w.blockers == [] then Done(newest.value, false)
    else if !Acceptable(q, previous) then NotCaptured
    else
      var entry := Plan(q, Highest(r.log, q.target, q.t) + 1, previous);
      if q.result.notModified || w.stored then Poised(entry) else Storing(entry)
  }

  ghost function Advance(r: Race, id: WorkerId): Race
    requires id in r.writers
  {
    var w := r.writers[id];
    match w.phase
    case Looking => r.(writers := r.writers[id := w.(phase := Look(r, w))])
    case Storing(e) =>
      r.(blobs := r.blobs + {e.payload}, writers := r.writers[id := w.(phase := Poised(e), stored := true)])
    case Poised(e) =>
      if e.id !in r.log then
        r.(log := r.log[e.id := e],
           author := r.author[e.id := id],
           writers := r.writers[id := w.(phase := Done(e, true))])
      else
        var blockers := w.blockers + [e.id];
        r.(writers := r.writers[id := w.(blockers := blockers,
                                         phase := if |blockers| == MAX_COLLISIONS then GaveUp else Looking)])
    case Done(_, _) => r
    case NotCaptured => r
    case GaveUp => r
  }

  ghost predicate Allowed(r: Race, m: Move) {
    match m
    case Begin(id, q) =>
      id !in r.writers && (q.baseline.Given? && q.baseline.entry.Some? ==> q.baseline.entry.value in r.log.Values)
    case Go(id) => id in r.writers
  }

  ghost function Step(r: Race, m: Move): Race
    requires Allowed(r, m)
  {
    match m
    case Begin(id, q) => r.(writers := r.writers[id := Writer(q, Looking, false, [], r.log.Keys)])
    case Go(id) => Advance(r, id)
  }

  // ---------------------------------------------------------------- what every step keeps

  /** Attempt numbers have no holes: every attempt but the first has its predecessor. */
  ghost predicate NoHoles(log: map<CaptureId, CaptureEntry>) {
    forall c {:trigger Prior(c)} :: c in log ==> c.attempt >= 1 && (c.attempt > 1 ==> Prior(c) in log)
  }

  function Prior(c: CaptureId): CaptureId {
    c.(attempt := if c.attempt > 0 then c.attempt - 1 else 0)
  }

  ghost predicate Complete(r: Race) {
    forall c :: c in r.log ==>
      r.log[c].id == c && r.log[c].payload in r.blobs && c in r.author && r.author[c] in r.writers
  }

  /** What the entry says: it belongs to this fetch; a 304 carries the payload and validators of the
      same resource's baseline; and the changed flag is measured against that baseline, which is
      the given one or the attempt just before. */
  ghost predicate Describes(log: map<CaptureId, CaptureEntry>, q: Request, e: CaptureEntry) {
    && e.id.target == q.target && e.id.scheduledFor == q.t && e.id.attempt >= 1
    && (e.id.attempt > 1 ==> Prior(e.id) in log)
    && e.fetchedAt == q.result.at && e.url == q.result.url && e.status == q.result.status && e.transport == q.transport
    && var previous :=
         if q.baseline.Given? then q.baseline.entry
         else if e.id.attempt > 1 then Some(log[Prior(e.id)]) else None;
       && (e.contentChanged <==> (previous.Some? ==> previous.value.payload != e.payload))
       && if q.result.notModified
          then
            && previous.Some? && previous.value.url == e.url
            && e.payload == previous.value.payload && e.validators == previous.value.validators
          else e.payload == q.result.body && e.validators == q.result.validators
  }

  ghost predicate BlockersOk(r: Race, id: WorkerId, w: Writer) {
    && |w.blockers| <= MAX_COLLISIONS
    && (forall i :: 0 <= i < |w.blockers| ==>
          && w.blockers[i] in r.log && w.blockers[i] !in w.seen && w.blockers[i] in r.author
          && r.author[w.blockers[i]] != id)
    && (forall i, j :: 0 <= i < j < |w.blockers| ==> w.blockers[i] != w.blockers[j])
  }

  ghost predicate PhaseOk(r: Race, id: WorkerId, w: Writer) {
    match w.phase
    case Looking => |w.blockers| < MAX_COLLISIONS
    case Storing(e) => PlanOk(r, w, e) && e.payload == w.request.result.body
    case Poised(e) => PlanOk(r, w, e) && e.payload in r.blobs
    case Done(e, created) =>
      && e.id in r.log && r.log[e.id] == e && e.id.target == w.request.target && e.id.scheduledFor == w.request.t
      && (!created ==> !w.request.force && w.blockers == [])
      && (created ==> e.id in r.author && r.author[e.id] == id && Describes(r.log, w.request, e) && e.id !in w.seen)
    case NotCaptured =>
      && w.request.result.notModified
      && (w.request.baseline.Given? ==>
            !(w.request.baseline.entry.Some? && w.request.baseline.entry.value.url == w.request.result.url))
    case GaveUp => |w.blockers| == MAX_COLLISIONS
  }

  /** A planned entry was free when its writer listed, and its predecessor is in place. */
  ghost predicate PlanOk(r: Race, w: Writer, e: CaptureEntry) {
    && |w.blockers| < MAX_COLLISIONS && Describes(r.log, w.request, e) && e.id !in w.seen && e.id !in w.blockers
  }

  ghost predicate WriterOk(r: Race, id: WorkerId, w: Writer) {
    && w.seen <= r.log.Keys && BlockersOk(r, id, w) && PhaseOk(r, id, w)
    && (w.stored ==> w.request.result.body in r.blobs)
    && (w.request.baseline.Given? && w.request.baseline.entry.Some? ==>
          w.request.baseline.entry.value.payload in r.blobs)
    && (forall c :: c in r.author && r.author[c] == id ==> w.phase.Done? && w.phase.created && w.phase.entry.id == c)
  }

  ghost predicate Inv(r: Race) {
    && NoHoles(r.log) && Complete(r) && r.author.Keys == r.log.Keys
    && forall id :: id in r.writers ==> WriterOk(r, id, r.writers[id])
  }

  /** The log only grows, and no entry is ever overwritten. */
  ghost predicate Grows(r: Race, s: Race) {
    && (forall c :: c in r.log ==> c in s.log && s.log[c] == r.log[c])
    && r.blobs <= s.blobs && (forall c :: c in r.author ==> c in s.author && s.author[c] == r.author[c])
  }

  lemma OtherWriterOk(r: Race, s: Race, id: WorkerId, w: Writer)
    requires WriterOk(r, id, w) && Grows(r, s)
    requires forall c :: c in s.author && s.author[c] == id ==> c in r.author && r.author[c] == id
    ensures WriterOk(s, id, w)
  {
  }

  /** A step of writer `id` that keeps the shared state growing leaves all other writers in order. */
  lemma OthersOk(r: Race, s: Race, id: WorkerId)
    requires Inv(r) && Grows(r, s) && s.writers.Keys == r.writers.Keys + {id}
    requires forall other :: other in r.writers && other != id ==> s.writers[other] == r.writers[other]
    requires forall c :: c in s.author && c !in r.author ==> s.author[c] == id
    ensures forall other :: other in s.writers && other != id ==> WriterOk(s, other, s.writers[other])
  {
    forall other | other in s.writers && other != id ensures WriterOk(s, other, s.writers[other]) {
      assert WriterOk(r, other, r.writers[other]);
      OtherWriterOk(r, s, other, r.writers[other]);
    }
  }

  /** What looking decides is in order: the answer is in the log, or the plan is free to create. */
  lemma LookOk(r: Race, id: WorkerId, w: Writer)
    requires WriterOk(r, id, w) && Complete(r) && w.phase.Looking?
    ensures PhaseOk(r, id, w.(phase := Look(r, w)))
  {
  }

  /** One writer moved, the shared state grew by what it did, and that writer is in order. */
  lemma OneMoved(r: Race, s: Race, id: WorkerId)
    requires Inv(r) && Grows(r, s) && id in r.writers && id in s.writers && s.writers == r.writers[id := s.writers[id]]
    requires forall c :: c in s.author && c !in r.author ==> s.author[c] == id
    requires NoHoles(s.log) && Complete(s) && s.author.Keys == s.log.Keys && WriterOk(s, id, s.writers[id])
    ensures Inv(s)
  {
    OthersOk(r, s, id);
  }

  lemma StoredWriterOk(r: Race, s: Race, id: WorkerId, w: Writer)
    requires WriterOk(r, id, w) && w.phase.Storing? && s.log == r.log && s.author == r.author
    requires s.blobs == r.blobs + {w.phase.planned.payload}
    ensures WriterOk(s, id, w.(phase := Poised(w.phase.planned), stored := true))
  {
  }

  lemma CreatedWriterOk(r: Race, s: Race, id: WorkerId, w: Writer)
    requires WriterOk(r, id, w) && w.phase.Poised? && w.phase.planned.id !in r.log && r.author.Keys == r.log.Keys
    requires var e := w.phase.planned;
      s.log == r.log[e.id := e] && s.author == r.author[e.id := id] && s.blobs == r.blobs
    ensures WriterOk(s, id, w.(phase := Done(w.phase.planned, true)))
  {
  }

  lemma BlockedWriterOk(r: Race, id: WorkerId, w: Writer)
    requires WriterOk(r, id, w) && w.phase.Poised? && w.phase.planned.id in r.log && r.author.Keys == r.log.Keys
    ensures var blockers := w.blockers + [w.phase.planned.id];
            WriterOk(r, id, w.(blockers := blockers, phase := if |blockers| == MAX_COLLISIONS then GaveUp else Looking))
  {
  }

  lemma CreatedLog(r: Race, s: Race, id: WorkerId, e: CaptureEntry)
    requires NoHoles(r.log) && Complete(r) && r.author.Keys == r.log.Keys && e.id !in r.log && id in r.writers
    requires e.payload in r.blobs && e.id.attempt >= 1 && (e.id.attempt > 1 ==> Prior(e.id) in r.log)
    requires s == r.(log := r.log[e.id := e], author := r.author[e.id := id], writers := s.writers)
    requires s.writers.Keys == r.writers.Keys
    ensures Grows(r, s) && NoHoles(s.log) && Complete(s) && s.author.Keys == s.log.Keys
  {
    forall c | c in s.log ensures c.attempt >= 1 && (c.attempt > 1 ==> Prior(c) in s.log) {
      var prior := Prior(c);
    }
  }

  lemma SameLog(r: Race, s: Race)
    requires NoHoles(r.log) && Complete(r) && r.author.Keys == r.log.Keys
    requires s == r.(blobs := s.blobs, writers := s.writers) && r.blobs <= s.blobs && s.writers.Keys == r.writers.Keys
    ensures Grows(r, s) && NoHoles(s.log) && Complete(s) && s.author.Keys == s.log.Keys
  {
  }

  lemma AdvancedLog(r: Race, id: WorkerId, w: Writer)
    requires NoHoles(r.log) && Complete(r) && r.author.Keys == r.log.Keys && id in r.writers
    requires w == r.writers[id] && WriterOk(r, id, w)
    ensures var s := Advance(r, id); Grows(r, s) && NoHoles(s.log) && Complete(s) && s.author.Keys == s.log.Keys
  {
    var s := Advance(r, id);
    assert s.writers.Keys == r.writers.Keys;
    if w.phase.Poised? && w.phase.planned.id !in r.log {
      CreatedLog(r, s, id, w.phase.planned);
    } else {
      SameLog(r, s);
    }
  }

  lemma MovedWriterOk(r: Race, s: Race, id: WorkerId, w: Writer)
    requires Complete(r) && r.author.Keys == r.log.Keys && id in r.writers && w == r.writers[id] && WriterOk(r, id, w)
    requires s == Advance(r, id)
    ensures WriterOk(s, id, s.writers[id])
  {
    if w.phase.Looking? {
      LookOk(r, id, w);
    } else if w.phase.Storing? {
      StoredWriterOk(r, s, id, w);
    } else if w.phase.Poised? {
      if w.phase.planned.id in r.log {
        BlockedWriterOk(r, id, w);
      } else {
        CreatedWriterOk(r, s, id, w);
      }
    }
  }

  lemma OnlyItsOwn(r: Race, id: WorkerId)
    requires id in r.writers
    ensures var s := Advance(r, id);
      && id in s.writers && s.writers == r.writers[id := s.writers[id]]
      && forall c :: c in s.author && c !in r.author ==> s.author[c] == id
  {
  }

  lemma AdvanceKeeps(r: Race, id: WorkerId)
    requires Inv(r) && id in r.writers
    ensures Inv(Advance(r, id)) && Grows(r, Advance(r, id))
  {
    var w, s := r.writers[id], Advance(r, id);
    assert WriterOk(r, id, w);
    AdvancedLog(r, id, w);
    OnlyItsOwn(r, id);
    MovedWriterOk(r, s, id, w);
    OneMoved(r, s, id);
  }

  lemma BeginKeeps(r: Race, m: Move)
    requires Inv(r) && Allowed(r, m) && m.Begin?
    ensures Inv(Step(r, m)) && Grows(r, Step(r, m))
  {
    var s := Step(r, m);
    forall id | id in s.writers ensures WriterOk(s, id, s.writers[id]) {
      if id != m.writer {
        OtherWriterOk(r, s, id, r.writers[id]);
      }
    }
  }

  // ---------------------------------------------------------------- every schedule

  const EMPTY := Race(map[], {}, map[], map[])

  ghost predicate Schedule(states: seq<Race>, moves: seq<Move>) {
    && |states| == |moves| + 1 && states[0] == EMPTY
    && forall i :: 0 <= i < |moves| ==> Allowed(states[i], moves[i]) && states[i + 1] == Step(states[i], moves[i])
  }

  lemma {:induction false} AllStates(states: seq<Race>, moves: seq<Move>, i: nat)
    requires Schedule(states, moves) && i < |states|
    ensures Inv(states[i])
  {
    if i > 0 {
      AllStates(states, moves, i - 1);
      StepKeeps(states[i - 1], moves[i - 1]);
    }
  }

  lemma StepKeeps(r: Race, m: Move)
    requires Inv(r) && Allowed(r, m)
    ensures Inv(Step(r, m)) && Grows(r, Step(r, m))
  {
    if m.Begin? {
      BeginKeeps(r, m);
    } else {
      AdvanceKeeps(r, m.writer);
    }
  }

  lemma {:induction false} NoHolesBelow(log: map<CaptureId, CaptureEntry>, c: CaptureId, n: nat)
    requires NoHoles(log) && c in log && 1 <= n <= c.attempt
    ensures c.(attempt := n) in log
    decreases c.attempt
  {
    if n < c.attempt {
      NoHolesBelow(log, Prior(c), n);
    }
  }

  /** At every point of every schedule the attempts of an instant are exactly 1 to n, and every
      entry's payload is stored. */
  lemma AttemptsAreInitial(states: seq<Race>, moves: seq<Move>, i: nat, target: TargetId, t: Instant, n: nat)
    requires Schedule(states, moves) && i < |states|
    ensures CaptureId(target, t, n) in states[i].log <==> 1 <= n <= Highest(states[i].log, target, t)
    ensures forall c :: c in states[i].log ==> states[i].log[c].id == c && states[i].log[c].payload in states[i].blobs
  {
    AllStates(states, moves, i);
    var log := states[i].log;
    var h := Highest(log, target, t);
    if 1 <= n <= h {
      NoHolesBelow(log, CaptureId(target, t, h), n);
    }
  }

  lemma {:induction false} GrowsAlong(states: seq<Race>, moves: seq<Move>, i: nat, j: nat)
    requires Schedule(states, moves) && i <= j < |states|
    ensures Grows(states[i], states[j])
    decreases j
  {
    if i < j {
      GrowsAlong(states, moves, i, j - 1);
      AllStates(states, moves, j - 1);
      StepKeeps(states[j - 1], moves[j - 1]);
    }
  }

  lemma StillDescribes(log: map<CaptureId, CaptureEntry>, after: map<CaptureId, CaptureEntry>, q: Request,
                       e: CaptureEntry)
    requires Describes(log, q, e) && forall c :: c in log ==> c in after && after[c] == log[c]
    ensures Describes(after, q, e)
  {
  }

  /** Every acknowledged capture keeps its own entry: once a writer reported a created entry, that
      very entry, which says what it fetched, is in the log at every later point, and no other
      writer's acknowledged entry has its key. */
  lemma AcknowledgedIsKept(states: seq<Race>, moves: seq<Move>, i: nat, j: nat, a: WorkerId, b: WorkerId)
    requires Schedule(states, moves) && i <= j < |states|
    requires a in states[i].writers && states[i].writers[a].phase.Done? && states[i].writers[a].phase.created
    ensures var e := states[i].writers[a].phase.entry;
      && e.id in states[j].log && states[j].log[e.id] == e
      && Describes(states[j].log, states[i].writers[a].request, e)
      && e.id !in states[i].writers[a].seen
      && (a != b && b in states[j].writers && states[j].writers[b].phase.Done? && states[j].writers[b].phase.created ==>
            states[j].writers[b].phase.entry.id != e.id)
  {
    AllStates(states, moves, i);
    AllStates(states, moves, j);
    GrowsAlong(states, moves, i, j);
    var w := states[i].writers[a];
    assert WriterOk(states[i], a, w);
    StillDescribes(states[i].log, states[j].log, w.request, w.phase.entry);
    if b in states[j].writers {
      assert WriterOk(states[j], b, states[j].writers[b]);
    }
  }

  /** A writer that answers with an entry it did not create was not forced and met no other writer's entry
      on the way, and the entry is the instant's; one that refuses was given a 304 that its baseline, if it
      had one, does not explain. */
  lemma AnswersMean(states: seq<Race>, moves: seq<Move>, i: nat, a: WorkerId)
    requires Schedule(states, moves) && i < |states| && a in states[i].writers
    ensures var w := states[i].writers[a];
      && (w.phase.Done? && !w.phase.created ==>
            && !w.request.force && w.blockers == [] && w.phase.entry.id in states[i].log
            && w.phase.entry.id.target == w.request.target && w.phase.entry.id.scheduledFor == w.request.t)
      && (w.phase.NotCaptured? ==>
            && w.request.result.notModified
            && (w.request.baseline.Given? && w.request.baseline.entry.Some? ==>
                  w.request.baseline.entry.value.url != w.request.result.url))
  {
    AllStates(states, moves, i);
    assert WriterOk(states[i], a, states[i].writers[a]);
  }

  /** Giving up means five entries of other writers landed since the call began. */
  lemma GivingUpMeansFiveOthers(states: seq<Race>, moves: seq<Move>, i: nat, a: WorkerId)
    returns (landed: set<CaptureId>)
    requires Schedule(states, moves) && i < |states|
    requires a in states[i].writers && states[i].writers[a].phase.GaveUp?
    ensures |landed| == 5
    ensures forall c :: c in landed ==> c in states[i].log && c !in states[i].writers[a].seen
                                        && c in states[i].author && states[i].author[c] != a
  {
    AllStates(states, moves, i);
    var w := states[i].writers[a];
    assert WriterOk(states[i], a, w);
    landed := set k | 0 <= k < |w.blockers| :: w.blockers[k];
    DistinctCount(w.blockers);
  }

  lemma {:induction false} DistinctCount(s: seq<CaptureId>)
    requires forall i, j :: 0 <= i < j < |s| ==> s[i] != s[j]
    ensures |set k | 0 <= k < |s| :: s[k]| == |s|
  {
    if s != [] {
      var init := s[..|s| - 1];
      DistinctCount(init);
      assert (set k | 0 <= k < |s| :: s[k]) == (set k | 0 <= k < |init| :: init[k]) + {s[|s| - 1]};
    }
  }
}
