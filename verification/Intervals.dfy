/** Delivery intervals of local days, and the cadence that fires at their starts. */
module Intervals {
  import opened Types
  import opened Cron

  datatype Interval = Interval(start: Instant, end: Instant)
  {
    predicate Holds(x: Instant) {
      start <= x < end
    }
  }

  /** When each local day begins. */
  type Midnights = int -> Instant

  /** Days follow one another. */
  ghost predicate Increasing(midnight: Midnights) {
    forall d :: midnight(d) < midnight(d + 1)
  }

  /** Every midnight lies on the grid of `step`. */
  ghost predicate Aligned(midnight: Midnights, step: int)
    requires step > 0
  {
    forall d :: midnight(d) % step == 0
  }

  /** `local_day_intervals`: the day cut into steps, refused when they do not tile it. */
  function DayIntervals(midnight: Midnights, d: int, step: int): (r: Result<seq<Interval>>)
    requires step > 0 && Increasing(midnight)
  {
    var start, span := midnight(d), midnight(d + 1) - midnight(d);
    if span % step != 0 then Failure
    else
      Success(seq(span / step,
                  i requires 0 <= i < span / step => Interval(start + i * step, start + (i + 1) * step)))
  }

  /** `interval_for_index`: indexes are 1-based. */
  function ForIndex(midnight: Midnights, d: int, index: int, step: int): (r: Result<Interval>)
    requires step > 0 && Increasing(midnight)
  {
    match DayIntervals(midnight, d, step)
    case Failure => Failure
    case Success(all) => if 1 <= index <= |all| then Success(all[index - 1]) else Failure
  }

  lemma Positive(n: int, step: int)
    requires step > 0 && n * step > 0
    ensures n > 0
  {
  }

  /** A day is cut exactly when some number of steps fills it; then the intervals follow one another from
      midnight to midnight, each of one step. */
  lemma DayIsCut(midnight: Midnights, d: int, step: int)
    requires step > 0 && Increasing(midnight)
    ensures DayIntervals(midnight, d, step).Success? <==>
      exists n: int :: n * step == midnight(d + 1) - midnight(d)
    ensures DayIntervals(midnight, d, step).Success? ==>
      var all := DayIntervals(midnight, d, step).value;
      && all != [] && all[0].start == midnight(d) && all[|all| - 1].end == midnight(d + 1)
      && (forall i :: 0 <= i < |all| ==> all[i].end == all[i].start + step)
      && (forall i :: 0 < i < |all| ==> all[i].start == all[i - 1].end)
  {
    var span := midnight(d + 1) - midnight(d);
    assert midnight(d) < midnight(d + 1);
    Divides(span, step);
    if n: int :| n * step == span {
      ExactMultiple(n, step);
    }
    if span % step == 0 {
      assert span / step * step == span;
      var all := DayIntervals(midnight, d, step).value;
      forall i | 0 <= i < |all| ensures all[i].end == all[i].start + step {
        InOrder(i, i, step);
      }
      Positive(span / step, step);
    }
  }

  /** An index counts the day's intervals from one, and none is beyond the day. */
  lemma IndexMeans(midnight: Midnights, d: int, index: int, step: int)
    requires step > 0 && Increasing(midnight) && Aligned(midnight, step)
    ensures ForIndex(midnight, d, index, step).Success? <==>
      1 <= index && midnight(d) + index * step <= midnight(d + 1)
    ensures ForIndex(midnight, d, index, step).Success? ==>
      ForIndex(midnight, d, index, step).value
      == Interval(midnight(d) + (index - 1) * step, midnight(d) + index * step)
  {
    DayTiles(midnight, d, step);
    var all := DayIntervals(midnight, d, step).value;
    if index <= |all| {
      InOrder(index, |all|, step);
    } else {
      InOrder(|all| + 1, index, step);
      InOrder(|all|, |all|, step);
    }
  }

  // ---------------------------------------------------------------- every instant is in one day

  lemma {:induction false} DaysApart(midnight: Midnights, d: int, e: int)
    requires Increasing(midnight) && d <= e
    ensures midnight(d) + (e - d) <= midnight(e)
    decreases e - d
  {
    if d < e {
      DaysApart(midnight, d, e - 1);
      assert midnight(e - 1) < midnight(e - 1 + 1);
    }
  }

  /** The day of `x`, searched upwards from a day that begins no later. */
  lemma {:induction false} DayFrom(midnight: Midnights, low: int, x: Instant) returns (d: int)
    requires Increasing(midnight) && midnight(low) <= x
    ensures midnight(d) <= x < midnight(d + 1)
    decreases x - midnight(low)
  {
    if x < midnight(low + 1) {
      d := low;
    } else {
      d := DayFrom(midnight, low + 1, x);
    }
  }

  lemma DayOf(midnight: Midnights, x: Instant) returns (d: int)
    requires Increasing(midnight)
    ensures midnight(d) <= x < midnight(d + 1)
  {
    var low := if midnight(0) <= x then 0 else x - midnight(0);
    if low < 0 {
      DaysApart(midnight, low, 0);
    }
    d := DayFrom(midnight, low, x);
  }

  lemma OneDay(midnight: Midnights, d: int, e: int, x: Instant)
    requires Increasing(midnight) && midnight(d) <= x < midnight(d + 1) && midnight(e) <= x < midnight(e + 1)
    ensures d == e
  {
    if d < e {
      DaysApart(midnight, d + 1, e);
    } else if e < d {
      DaysApart(midnight, e + 1, d);
    }
  }

  // ---------------------------------------------------------------- the days' intervals tile time

  lemma Divides(n: int, step: int)
    requires step > 0
    ensures n == n / step * step + n % step
  {
  }

  lemma InOrder(i: int, j: int, step: int)
    requires step > 0 && i <= j
    ensures i * step <= j * step && (i + 1) * step == i * step + step
  {
  }

  /** Aligned midnights make every day divisible, and its intervals reach from midnight to midnight. */
  lemma DayTiles(midnight: Midnights, d: int, step: int)
    requires step > 0 && Increasing(midnight) && Aligned(midnight, step)
    ensures DayIntervals(midnight, d, step).Success?
    ensures var all := DayIntervals(midnight, d, step).value; |all| * step == midnight(d + 1) - midnight(d)
  {
    var a, b := midnight(d), midnight(d + 1);
    Divides(a, step);
    Divides(b, step);
    var k := b / step - a / step;
    assert b - a == k * step;
    ExactMultiple(k, step);
  }

  lemma ExactMultiple(k: int, step: int)
    requires step > 0
    ensures (k * step) % step == 0 && (k * step) / step == k
  {
    Divides(k * step, step);
    var r := (k * step) % step;
    assert (k - (k * step) / step) * step == r;
    if k - (k * step) / step >= 1 {
      InOrder(1, k - (k * step) / step, step);
    } else if k - (k * step) / step <= -1 {
      InOrder(k - (k * step) / step, -1, step);
    }
  }

  /** Interval `i` (from 0) of day `d`. */
  function Slot(midnight: Midnights, d: int, i: nat, step: int): Interval {
    Interval(midnight(d) + i * step, midnight(d) + (i + 1) * step)
  }

  /** Every instant lies in an interval of some local day. */
  lemma InSomeInterval(midnight: Midnights, step: int, x: Instant) returns (d: int, i: nat)
    requires step > 0 && Increasing(midnight) && Aligned(midnight, step)
    ensures var all := DayIntervals(midnight, d, step); all.Success? && i < |all.value| && all.value[i].Holds(x)
  {
    d := DayOf(midnight, x);
    DayTiles(midnight, d, step);
    var all := DayIntervals(midnight, d, step).value;
    i := (x - midnight(d)) / step;
    Divides(x - midnight(d), step);
    InOrder(i, i, step);
    if |all| <= i {
      InOrder(|all|, i, step);
    }
    assert all[i] == Slot(midnight, d, i, step);
  }

  /** And in only one. */
  lemma InOneInterval(midnight: Midnights, step: int, x: Instant, d: int, i: nat, e: int, j: nat)
    requires step > 0 && Increasing(midnight) && Aligned(midnight, step)
    requires var all := DayIntervals(midnight, d, step); all.Success? && i < |all.value| && all.value[i].Holds(x)
    requires var all := DayIntervals(midnight, e, step); all.Success? && j < |all.value| && all.value[j].Holds(x)
    ensures d == e && i == j
  {
    SlotInDay(midnight, step, x, d, i);
    SlotInDay(midnight, step, x, e, j);
    OneDay(midnight, d, e, x);
    if i < j {
      InOrder(i + 1, j, step);
    } else if j < i {
      InOrder(j + 1, i, step);
    }
  }

  lemma SlotInDay(midnight: Midnights, step: int, x: Instant, d: int, i: nat)
    requires step > 0 && Increasing(midnight) && Aligned(midnight, step)
    requires var all := DayIntervals(midnight, d, step); all.Success? && i < |all.value| && all.value[i].Holds(x)
    ensures midnight(d) <= x < midnight(d + 1) && DayIntervals(midnight, d, step).value[i] == Slot(midnight, d, i, step)
  {
    DayTiles(midnight, d, step);
    var all := DayIntervals(midnight, d, step).value;
    assert all[i] == Slot(midnight, d, i, step);
    InOrder(0, i, step);
    InOrder(i + 1, |all|, step);
  }

  /** (day, index) to interval is one to one ... */
  lemma IndexIsInjective(midnight: Midnights, step: int, d: int, k: int, e: int, l: int)
    requires step > 0 && Increasing(midnight) && Aligned(midnight, step)
    requires ForIndex(midnight, d, k, step).Success? && ForIndex(midnight, d, k, step) == ForIndex(midnight, e, l, step)
    ensures d == e && k == l
  {
    var x := ForIndex(midnight, d, k, step).value.start;
    var all := DayIntervals(midnight, d, step).value;
    assert all[k - 1] == Slot(midnight, d, k - 1, step);
    InOrder(k - 1, k - 1, step);
    InOneInterval(midnight, step, x, d, k - 1, e, l - 1);
  }

  /** ... and onto the grid: each step of the grid is an interval of some day. */
  lemma IndexIsOnto(midnight: Midnights, step: int, g: int) returns (d: int, k: int)
    requires step > 0 && Increasing(midnight) && Aligned(midnight, step)
    ensures ForIndex(midnight, d, k, step) == Success(Interval(g * step, (g + 1) * step))
  {
    var i: nat;
    d, i := InSomeInterval(midnight, step, g * step);
    SlotInDay(midnight, step, g * step, d, i);
    k := i + 1;
    Divides(midnight(d), step);
    OnGrid(midnight(d) / step, i, g, step);
  }

  lemma OnGrid(m: int, i: int, g: int, step: int)
    requires step > 0 && m * step + i * step <= g * step < m * step + (i + 1) * step
    ensures m + i == g && m * step + i * step == g * step && m * step + (i + 1) * step == (g + 1) * step
  {
    assert m * step + i * step == (m + i) * step && m * step + (i + 1) * step == (m + i + 1) * step;
    if m + i < g {
      InOrder(m + i + 1, g, step);
    } else if g < m + i {
      InOrder(g + 1, m + i, step);
    }
  }

  // ---------------------------------------------------------------- the quarter-hour cadence

  const QUARTER := 900

  /** The cadence that fires every fifteen minutes of every day. */
  const EVERY_QUARTER := CronExpression(
    {0, 15, 30, 45}, set h | 0 <= h <= 23, set d | 1 <= d <= 31, set m | 1 <= m <= 12, set w | 0 <= w <= 6,
    false, false)

  /** A reading is in range, and its minute is that of the instant plus the offset. */
  ghost predicate Reads(local: Civil, shifted: int) {
    && local.minute == shifted / MINUTE % 60 && 0 <= local.hour <= 23
    && 1 <= local.day <= 31 && 1 <= local.month <= 12 && 0 <= local.weekday <= 6
  }

  /** A zone whose offsets are whole quarters of an hour. */
  ghost predicate QuarterZone(zone: Zone, offset: Instant -> int) {
    forall t :: offset(t) % QUARTER == 0 && Reads(zone.local(t), t + offset(t))
  }

  lemma WholeMinutes(m: int, o: int)
    ensures (m * MINUTE + o * QUARTER) / MINUTE == m + 15 * o
  {
    assert m * MINUTE + o * QUARTER == (m + 15 * o) * MINUTE;
  }

  lemma QuarterOfHour(m: int, o: int)
    ensures (m + 15 * o) % 60 in {0, 15, 30, 45} <==> m % 15 == 0
  {
    var x := m + 15 * o;
    var q, r := x / 60, x % 60;
    assert x == 15 * (4 * q) + r;
    assert m == 15 * (4 * q - o) + r;
  }

  lemma QuarterMultiple(m: int)
    ensures (m * MINUTE) % QUARTER == 0 <==> m % 15 == 0
  {
    var a, b := m / 15, m % 15;
    assert m * MINUTE == a * QUARTER + b * MINUTE;
  }

  lemma QuarterMinute(m: int, o: int)
    ensures (m * MINUTE + o * QUARTER) / MINUTE % 60 in {0, 15, 30, 45} <==> (m * MINUTE) % QUARTER == 0
  {
    WholeMinutes(m, o);
    QuarterOfHour(m, o);
    QuarterMultiple(m);
  }

  lemma Factor(x: int, n: int) returns (k: int)
    requires n > 0 && x % n == 0
    ensures x == k * n
  {
    k := x / n;
  }

  lemma QuarterFires(zone: Zone, offset: Instant -> int, t: Instant)
    requires QuarterZone(zone, offset)
    ensures Fires(EVERY_QUARTER, zone, t) <==> t % QUARTER == 0
  {
    assert Reads(zone.local(t), t + offset(t));
    var o := Factor(offset(t), QUARTER);
    WholeQuarters(t);
    if t % MINUTE == 0 {
      var m := Factor(t, MINUTE);
      QuarterMinute(m, o);
    }
  }

  lemma WholeQuarters(t: Instant)
    ensures t % QUARTER == 0 ==> t % MINUTE == 0
  {
    if t % QUARTER == 0 {
      var k := Factor(t, QUARTER);
      assert t == (15 * k) * MINUTE;
    }
  }

  /** Ascending lists of the same instants are the same list. */
  lemma {:induction false} SameInstants(a: seq<Instant>, b: seq<Instant>)
    requires Cron.Ascending(a) && Cron.Ascending(b) && forall t :: t in a <==> t in b
    ensures a == b
  {
    if a == [] {
      assert forall i :: 0 <= i < |b| ==> b[i] in a;
    } else {
      assert a[0] in b && a[|a| - 1] in b;
      var last := a[|a| - 1];
      assert b[|b| - 1] in b && b[|b| - 1] in a;
      assert b[|b| - 1] == last;
      var c, d := a[..|a| - 1], b[..|b| - 1];
      forall t ensures t in c <==> t in d {
        assert t in a <==> t in c || t == last;
        assert t in b <==> t in d || t == last;
      }
      SameInstants(c, d);
    }
  }

  /** The firing instants of the quarter-hour cadence in a local day are exactly the starts of that
      day's intervals, in order: 92, 96 or 100 of them, as the day has. */
  lemma FiresAtStarts(zone: Zone, offset: Instant -> int, midnight: Midnights, d: int, ts: seq<Instant>)
    requires QuarterZone(zone, offset) && Increasing(midnight) && Aligned(midnight, QUARTER)
    requires FiringIn(EVERY_QUARTER, zone, midnight(d) - MINUTE, midnight(d + 1) - MINUTE, ts)
    ensures var all := DayIntervals(midnight, d, QUARTER);
      all.Success? && |ts| == |all.value| && forall i :: 0 <= i < |ts| ==> ts[i] == all.value[i].start
  {
    DayTiles(midnight, d, QUARTER);
    var all := DayIntervals(midnight, d, QUARTER).value;
    var starts := seq(|all|, i requires 0 <= i < |all| => midnight(d) + i * QUARTER);
    forall t ensures t in ts <==> t in starts {
      QuarterFires(zone, offset, t);
      StartsOfDay(midnight, d, starts, t);
    }
    SameInstants(ts, starts);
  }

  lemma StartsOfDay(midnight: Midnights, d: int, starts: seq<Instant>, t: Instant)
    requires midnight(d) % QUARTER == 0 && midnight(d + 1) % QUARTER == 0
    requires |starts| * QUARTER == midnight(d + 1) - midnight(d)
    requires forall i :: 0 <= i < |starts| ==> starts[i] == midnight(d) + i * QUARTER
    ensures t in starts <==> midnight(d) - MINUTE < t <= midnight(d + 1) - MINUTE && t % QUARTER == 0
  {
    if midnight(d) - MINUTE < t <= midnight(d + 1) - MINUTE && t % QUARTER == 0 {
      var i := (t - midnight(d)) / QUARTER;
      assert starts[i] == t;
    }
  }
}
