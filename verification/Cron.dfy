/** Five-field cron expressions and their firing instants.

Instants are seconds; a firing instant is a whole minute whose local time matches.
*/
module Cron {
  import opened Types

  const MINUTE := 60
  const DAY := 86400

  datatype Result<+T> = Success(value: T) | Failure

  // ---------------------------------------------------------------- fields

  datatype Span = Every | One(n: int) | Between(a: int, b: int)
  datatype Part = Part(span: Span, step: int)

  /** Bounds of a part; a single value with a step runs to the end of the field. */
  function Bounds(p: Part, lo: int, hi: int): (int, int) {
    match p.span
    case Every => (lo, hi)
    case One(n) => (n, if p.step != 1 then hi else n)
    case Between(a, b) => (a, b)
  }

  predicate PartOk(p: Part, lo: int, hi: int) {
    p.step >= 1 && lo <= Bounds(p, lo, hi).0 <= Bounds(p, lo, hi).1 <= hi
  }

  /** `v` is one of a, a + step, a + 2 step, ... */
  predicate OnGrid(a: int, step: int, v: int)
    requires step >= 1
    decreases v - a
  {
    v == a || (v > a && OnGrid(a, step, v - step))
  }

  /** `v` is one of the values the part names. */
  predicate Names(p: Part, lo: int, hi: int, v: int)
    requires PartOk(p, lo, hi)
  {
    v <= Bounds(p, lo, hi).1 && OnGrid(Bounds(p, lo, hi).0, p.step, v)
  }

  /** `values` plus the values of the grid up to b. */
  method AddRange(values: set<int>, a: int, b: int, step: int) returns (all: set<int>)
    requires step >= 1
    ensures forall v :: v in all <==> v in values || (v <= b && OnGrid(a, step, v))
  {
    all := values;
    var v := a;
    while v <= b
      invariant OnGrid(a, step, v) && v >= a
      invariant forall u :: v - step < u < v ==> !OnGrid(a, step, u)
      invariant forall u :: u in all <==> u in values || (u < v && u <= b && OnGrid(a, step, u))
      decreases b - v
    {
      all := all + {v};
      v := v + step;
    }
    assert forall u :: u < v && u <= b && OnGrid(a, step, u) <==> u <= b && OnGrid(a, step, u);
  }

  ghost predicate Steps(a: int, step: int, v: int, k: nat) {
    v == a + k * step
  }

  /** The grid is every `step`-th number from `a` on. */
  lemma {:induction false} GridMeans(a: int, step: int, v: int)
    requires step >= 1
    ensures OnGrid(a, step, v) <==> exists k: nat :: Steps(a, step, v, k)
    decreases v - a
  {
    assert Steps(a, step, a, 0);
    if v > a {
      var before := v - step;
      GridMeans(a, step, before);
      if k: nat :| Steps(a, step, before, k) {
        assert (k + 1) * step == k * step + step;
        assert Steps(a, step, v, k + 1);
      }
      if k: nat :| Steps(a, step, v, k) {
        assert (k - 1) * step == k * step - step;
        assert k > 0 ==> Steps(a, step, before, k - 1);
      }
    }
  }

  /** What a part may say: a step of at least one, within the field. */
  ghost predicate Valid(p: Part, lo: int, hi: int) {
    && p.step >= 1
    && match p.span
       case Every => lo <= hi
       case One(n) => lo <= n <= hi
       case Between(a, b) => lo <= a && a <= b && b <= hi
  }

  /** The values it means: every `step`-th of the field, or of the range; a single value is meant alone, or
      with a step from there to the end of the field. */
  ghost predicate Means(p: Part, lo: int, hi: int, v: int)
    requires p.step >= 1
  {
    match p.span
    case Every => lo <= v <= hi && exists k: nat :: Steps(lo, p.step, v, k)
    case One(n) => if p.step == 1 then v == n else n <= v <= hi && exists k: nat :: Steps(n, p.step, v, k)
    case Between(a, b) => a <= v <= b && exists k: nat :: Steps(a, p.step, v, k)
  }

  lemma NamesMeans(p: Part, lo: int, hi: int)
    ensures PartOk(p, lo, hi) <==> Valid(p, lo, hi)
    ensures PartOk(p, lo, hi) ==> forall v :: Names(p, lo, hi, v) <==> Means(p, lo, hi, v)
  {
    if PartOk(p, lo, hi) {
      forall v ensures Names(p, lo, hi, v) <==> Means(p, lo, hi, v) {
        GridMeans(Bounds(p, lo, hi).0, p.step, v);
      }
    }
  }

  /** A comma list: the union of its parts, refused if any part is out of range. */
  method Field(parts: seq<Part>, lo: int, hi: int) returns (values: Result<set<int>>)
    ensures values.Failure? <==> exists i :: 0 <= i < |parts| && !PartOk(parts[i], lo, hi)
    ensures values.Success? ==>
      forall v :: v in values.value <==>
                    exists i :: 0 <= i < |parts| && PartOk(parts[i], lo, hi) && Names(parts[i], lo, hi, v)
    ensures values.Failure? <==> exists i :: 0 <= i < |parts| && !Valid(parts[i], lo, hi)
    ensures values.Success? ==>
      forall v :: v in values.value <==>
                    exists i :: 0 <= i < |parts| && Valid(parts[i], lo, hi) && Means(parts[i], lo, hi, v)
  {
    forall i | 0 <= i < |parts|
      ensures PartOk(parts[i], lo, hi) <==> Valid(parts[i], lo, hi)
      ensures PartOk(parts[i], lo, hi) ==> forall v :: Names(parts[i], lo, hi, v) <==> Means(parts[i], lo, hi, v)
    {
      NamesMeans(parts[i], lo, hi);
    }
    var found: set<int> := {};
    for n := 0 to |parts|
      invariant forall i :: 0 <= i < n ==> PartOk(parts[i], lo, hi)
      invariant forall v :: v in found <==> exists i :: 0 <= i < n && Names(parts[i], lo, hi, v)
    {
      var p := parts[n];
      if p.step < 1 {
        return Failure;
      }
      var (a, b) := Bounds(p, lo, hi);
      if !(lo <= a <= b <= hi) {
        return Failure;
      }
      ghost var before := found;
      found := AddRange(found, a, b, p.step);
      forall v ensures v in found <==> exists i :: 0 <= i < n + 1 && Names(parts[i], lo, hi, v) {
        assert v in found <==> v in before || Names(parts[n], lo, hi, v);
      }
    }
    return Success(found);
  }

  // ---------------------------------------------------------------- expressions

  /** The text of one field: the star alone, or a comma list of parts. */
  datatype FieldText = Star | List(parts: seq<Part>)

  function PartsOf(f: FieldText): seq<Part> {
    match f
    case Star => [Part(Every, 1)]
    case List(parts) => parts
  }

  predicate FieldOk(f: FieldText, lo: int, hi: int) {
    forall i :: 0 <= i < |PartsOf(f)| ==> PartOk(PartsOf(f)[i], lo, hi)
  }

  /** Value `v` is named by some part of the field. */
  predicate InField(f: FieldText, lo: int, hi: int, v: int) {
    exists i :: 0 <= i < |PartsOf(f)| && PartOk(PartsOf(f)[i], lo, hi) && Names(PartsOf(f)[i], lo, hi, v)
  }

  datatype CronExpression = CronExpression(
    minutes: set<int>,
    hours: set<int>,
    days: set<int>,
    months: set<int>,
    weekdays: set<int>,
    dayRestricted: bool,
    weekdayRestricted: bool)

  /** `values` are exactly those the field names. */
  ghost predicate Spells(f: FieldText, lo: int, hi: int, values: set<int>) {
    FieldOk(f, lo, hi) && forall v :: v in values <==> InField(f, lo, hi, v)
  }

  /** Sunday, named 0 or 7, is weekday 0. */
  predicate WeekdayNamed(f: FieldText, w: int) {
    (w != 7 && InField(f, 0, 7, w)) || (w == 0 && InField(f, 0, 7, 7))
  }

  /** The expression that five fields spell: minute, hour, day, month, weekday. */
  ghost predicate Parsed(fs: seq<FieldText>, cron: CronExpression) {
    && |fs| == 5
    && Spells(fs[0], 0, 59, cron.minutes) && Spells(fs[1], 0, 23, cron.hours)
    && Spells(fs[2], 1, 31, cron.days) && Spells(fs[3], 1, 12, cron.months)
    && FieldOk(fs[4], 0, 7) && (forall w :: w in cron.weekdays <==> WeekdayNamed(fs[4], w))
    && cron.dayRestricted == !fs[2].Star? && cron.weekdayRestricted == !fs[4].Star?
  }

  predicate FieldsOk(fs: seq<FieldText>) {
    && |fs| == 5 && FieldOk(fs[0], 0, 59) && FieldOk(fs[1], 0, 23) && FieldOk(fs[2], 1, 31)
    && FieldOk(fs[3], 1, 12) && FieldOk(fs[4], 0, 7)
  }

  /** Weekday 7 is Sunday too. */
  function FoldSunday(values: set<int>): (folded: set<int>)
    ensures forall w :: w in folded <==> (w != 7 && w in values) || (w == 0 && 7 in values)
  {
    var folded := set d | d in values :: if d == 7 then 0 else d;
    assert 7 in values ==> 0 in folded;
    assert forall w :: w in values && w != 7 ==> w in folded;
    folded
  }

  /** `CronExpression.parse`. */
  method Parse(fs: seq<FieldText>) returns (cron: Result<CronExpression>)
    ensures cron.Success? <==> FieldsOk(fs)
    ensures cron.Success? ==> Parsed(fs, cron.value)
  {
    if |fs| != 5 {
      return Failure;
    }
    var minutes := Field(PartsOf(fs[0]), 0, 59);
    var hours := Field(PartsOf(fs[1]), 0, 23);
    var days := Field(PartsOf(fs[2]), 1, 31);
    var months := Field(PartsOf(fs[3]), 1, 12);
    var weekdays := Field(PartsOf(fs[4]), 0, 7);
    if minutes.Failure? || hours.Failure? || days.Failure? || months.Failure? || weekdays.Failure? {
      return Failure;
    }
    var folded := FoldSunday(weekdays.value);
    return Success(CronExpression(minutes.value, hours.value, days.value, months.value, folded,
                                  fs[2] != Star, fs[4] != Star));
  }

  // ---------------------------------------------------------------- matching

  /** A local wall-clock reading; Sunday is weekday 0. */
  datatype Civil = Civil(minute: int, hour: int, day: int, month: int, weekday: int)

  /** A time zone, as the wall-clock reading it gives each instant. */
  datatype Zone = Zone(local: Instant -> Civil)

  predicate Matches(cron: CronExpression, local: Civil) {
    && local.minute in cron.minutes && local.hour in cron.hours && local.month in cron.months
    && var dayOk, weekdayOk := local.day in cron.days, local.weekday in cron.weekdays;
       if cron.dayRestricted && cron.weekdayRestricted then dayOk || weekdayOk else dayOk && weekdayOk
  }

  /** Counting by one from `a` reaches everything from `a` on. */
  lemma {:induction false} ByOne(a: int, v: int)
    requires a <= v
    ensures OnGrid(a, 1, v)
    decreases v - a
  {
    if a < v {
      ByOne(a, v - 1);
    }
  }

  lemma StarNamesAll(lo: int, hi: int, v: int)
    requires lo <= v <= hi
    ensures InField(Star, lo, hi, v)
  {
    ByOne(lo, v);
    assert PartsOf(Star)[0] == Part(Every, 1);
  }

  /** What an expression matches, told from its text alone, as Vixie cron reads it: a day field that is
      the star puts no condition on the day, and when neither is, either may match. */
  lemma MatchesText(fs: seq<FieldText>, cron: CronExpression, local: Civil)
    requires Parsed(fs, cron) && 1 <= local.day <= 31 && 0 <= local.weekday <= 6
    ensures Matches(cron, local) <==>
      && InField(fs[0], 0, 59, local.minute) && InField(fs[1], 0, 23, local.hour) && InField(fs[3], 1, 12, local.month)
      && (|| (fs[2].Star? && fs[4].Star?)
          || (!fs[2].Star? && InField(fs[2], 1, 31, local.day))
          || (!fs[4].Star? && WeekdayNamed(fs[4], local.weekday)))
  {
    if fs[2].Star? {
      StarNamesAll(1, 31, local.day);
    }
    if fs[4].Star? {
      StarNamesAll(0, 7, local.weekday);
    }
  }

  /** `is_firing_instant`: a whole minute whose local time matches. */
  predicate Fires(cron: CronExpression, zone: Zone, t: Instant) {
    t % MINUTE == 0 && Matches(cron, zone.local(t))
  }

  function Floor(t: Instant): Instant {
    t - t % MINUTE
  }

  ghost predicate Ascending(ts: seq<Instant>) {
    forall i, j :: 0 <= i < j < |ts| ==> ts[i] < ts[j]
  }

  /** `ts` is exactly the firing instants after `start` and up to `end`, in order. */
  ghost predicate FiringIn(cron: CronExpression, zone: Zone, start: Instant, end: Instant, ts: seq<Instant>) {
    Ascending(ts) && forall t :: t in ts <==> start < t <= end && Fires(cron, zone, t)
  }

  lemma BetweenMinutes(cron: CronExpression, zone: Zone, t: Instant, u: Instant)
    requires t % MINUTE == 0 && t < u < t + MINUTE
    ensures !Fires(cron, zone, u)
  {
  }

  /** `cron_instants`: minute by minute over (start, end]. */
  method Instants(cron: CronExpression, zone: Zone, start: Instant, end: Instant) returns (ts: seq<Instant>)
    ensures FiringIn(cron, zone, start, end, ts)
    ensures forall t :: t in ts <==> start < t <= end && t % 60 == 0 && Matches(cron, zone.local(t))
  {
    ts := [];
    var t := Floor(start) + MINUTE;
    forall u | start < u < t ensures !Fires(cron, zone, u) {
      BetweenMinutes(cron, zone, t - MINUTE, u);
    }
    while t <= end
      invariant t % MINUTE == 0 && start < t
      invariant Ascending(ts)
      invariant forall u :: u in ts <==> start < u <= end && u < t && Fires(cron, zone, u)
      decreases end - t
    {
      if Matches(cron, zone.local(t)) {
        assert forall i :: 0 <= i < |ts| ==> ts[i] in ts;
        ts := ts + [t];
      }
      forall u | t < u < t + MINUTE ensures !Fires(cron, zone, u) {
        BetweenMinutes(cron, zone, t, u);
      }
      t := t + MINUTE;
    }
  }
}
