/** The intended instant of a scheduled capture. */
module Schedule {
  import opened Types
  import opened Cron

  const WINDOW := 62 * DAY

  /** The last firing instant at or before `now`. */
  ghost predicate IsLatest(cron: CronExpression, zone: Zone, now: Instant, t: Instant) {
    Fires(cron, zone, t) && t <= now && forall u :: t < u <= now ==> !Fires(cron, zone, u)
  }

  /** How far back whole days must go to cover the window. */
  function Reach(window: nat): int {
    (window + DAY - 1) / DAY * DAY
  }

  ghost predicate Silent(cron: CronExpression, zone: Zone, after: Instant, upto: Instant) {
    forall t :: after < t <= upto ==> !Fires(cron, zone, t)
  }

  /** `latest_instant`: day by day backwards, yet the answer is the maximum over all the days
      searched, and there is none exactly when no instant fires in them. */
  method Latest(cron: CronExpression, zone: Zone, now: Instant, window: nat) returns (latest: Option<Instant>)
    ensures latest.Some? ==> IsLatest(cron, zone, now, latest.value) && Floor(now) - Reach(window) < latest.value
    ensures latest.None? <==> Silent(cron, zone, Floor(now) - Reach(window), now)
  {
    var end := Floor(now);
    var searched: nat := 0;
    while searched < window
      invariant end == Floor(now) - searched && searched % DAY == 0 && searched <= Reach(window)
      invariant Silent(cron, zone, end, now)
      decreases window - searched
    {
      var start := end - DAY;
      var found := Instants(cron, zone, start, end);
      if found != [] {
        var last := found[|found| - 1];
        assert last in found;
        forall t | last < t <= now ensures !Fires(cron, zone, t) {
          assert t in found <==> start < t <= end && Fires(cron, zone, t);
        }
        return Some(last);
      }
      forall t | start < t <= now ensures !Fires(cron, zone, t) {
        assert t in found <==> start < t <= end && Fires(cron, zone, t);
      }
      end := start;
      searched := searched + DAY;
    }
    return None;
  }

  /** The controller's tick is usable: it fires, and lies within the last day. */
  predicate Ticked(cron: CronExpression, zone: Zone, now: Instant, tick: Option<Instant>) {
    tick.Some? && now - DAY <= tick.value <= now && Fires(cron, zone, tick.value)
  }

  /** The rule, in seconds: the tick, if it is a firing minute of the last day; else the newest firing minute
      of the last 62 days; else this minute. */
  ghost predicate IntendedAt(cron: CronExpression, zone: Zone, now: Instant, tick: Option<Instant>, t: Instant) {
    var minute := now - now % 60;
    if tick.Some? && now - 86400 <= tick.value <= now && tick.value % 60 == 0 && Matches(cron, zone.local(tick.value))
    then t == tick.value
    else if exists u :: minute - 62 * 86400 < u <= now && u % 60 == 0 && Matches(cron, zone.local(u))
    then
      && t <= now && t % 60 == 0 && Matches(cron, zone.local(t))
      && forall u :: t < u <= now && u % 60 == 0 ==> !Matches(cron, zone.local(u))
    else t == minute
  }

  lemma SilentMeans(cron: CronExpression, zone: Zone, now: Instant)
    ensures Silent(cron, zone, Floor(now) - WINDOW, now) <==>
      !exists u :: now - now % 60 - 62 * 86400 < u <= now && u % 60 == 0 && Matches(cron, zone.local(u))
  {
    assert forall u :: Fires(cron, zone, u) <==> u % 60 == 0 && Matches(cron, zone.local(u));
  }

  /** `intended_instant`: the controller's own tick, else the newest firing instant; so whenever
      either exists the answer fires at or before now, and it is otherwise a whole minute. */
  method Intended(cron: CronExpression, zone: Zone, now: Instant, tick: Option<Instant>) returns (t: Instant)
    ensures Ticked(cron, zone, now, tick) ==> t == tick.value
    ensures !Ticked(cron, zone, now, tick) && !Silent(cron, zone, Floor(now) - WINDOW, now) ==>
      IsLatest(cron, zone, now, t)
    ensures Fires(cron, zone, t) <==> Ticked(cron, zone, now, tick) || !Silent(cron, zone, Floor(now) - WINDOW, now)
    ensures t <= now && t % MINUTE == 0
    ensures IntendedAt(cron, zone, now, tick, t)
  {
    if tick.Some? && now - DAY <= tick.value <= now && tick.value % MINUTE == 0
       && Matches(cron, zone.local(tick.value)) {
      return tick.value;
    }
    var latest := Latest(cron, zone, now, WINDOW);
    SilentMeans(cron, zone, now);
    if latest.Some? {
      forall u | latest.value < u <= now && u % 60 == 0 ensures !Matches(cron, zone.local(u)) {
        assert !Fires(cron, zone, u);
      }
      return latest.value;
    }
    return Floor(now);
  }
}
