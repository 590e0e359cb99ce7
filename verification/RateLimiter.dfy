/** The token bucket in front of a source. */
module RateLimiter {

  /** The level after waiting `elapsed` from `tokens`. */
  function Refilled(capacity: real, rate: real, tokens: real, elapsed: real): real {
    if capacity < tokens + elapsed * rate then capacity else tokens + elapsed * rate
  }

  /** The bucket when a call returns. */
  datatype Level = Level(tokens: real, last: real)

  /** One call that reads the clock at `now`: it takes a token at once, or sleeps at least until
      one would be there and leaves the bucket empty. */
  ghost predicate Grants(capacity: real, rate: real, before: Level, now: real, after: Level)
    requires rate > 0.0
  {
    var level := Refilled(capacity, rate, before.tokens, now - before.last);
    && before.last <= now
    && if level < 1.0 then after.tokens == 0.0 && after.last >= now + (1.0 - level) / rate
       else after == Level(level - 1.0, now)
  }

  /** The environment's sleep: at least as long as asked. */
  method Sleep(now: real, wait: real) returns (woken: real)
    ensures woken >= now + wait
  {
    var extra: real := *;
    woken := now + wait + if extra > 0.0 then extra else 0.0;
  }

  class Bucket {
    const capacity: real
    const rate: real
    var tokens: real
    var last: real

    ghost predicate Valid()
      reads this
    {
      capacity >= 1.0 && rate > 0.0 && 0.0 <= tokens <= capacity
    }

    constructor (requests: nat, perSeconds: real, now: real)
      requires requests >= 1 && perSeconds > 0.0
      ensures Valid() && capacity == requests as real && rate == requests as real / perSeconds
      ensures tokens == capacity && last == now
    {
      capacity, rate := requests as real, requests as real / perSeconds;
      tokens, last := requests as real, now;
      assert requests as real / perSeconds > 0.0;
    }

    method Acquire(now: real)
      requires Valid() && last <= now
      modifies this`tokens, this`last
      ensures Valid() && Grants(capacity, rate, old(Level(tokens, last)), now, Level(tokens, last))
      ensures Spends(capacity, rate, old(Level(tokens, last)), now, Level(tokens, last))
    {
      ghost var before := Level(tokens, last);
      Refills(capacity, rate, before, now);
      tokens := Refilled(capacity, rate, tokens, now - last);
      last := now;
      if tokens < 1.0 {
        var wait := (1.0 - tokens) / rate;
        last := Sleep(now, wait);
        Waits(capacity, rate, before, now, tokens, last);
        tokens := 0.0;
      } else {
        AtOnce(capacity, rate, before, now, tokens);
        tokens := tokens - 1.0;
      }
    }
  }

  /** The bucket after a call at `now`: with a whole token earned, up to what the bucket holds, the call
      returns at once and spends that one; with less it waits until the missing part is earned, and leaves
      nothing. */
  ghost predicate Spends(capacity: real, rate: real, before: Level, now: real, after: Level)
    requires rate > 0.0
  {
    var earned := before.tokens + (now - before.last) * rate;
    if earned >= capacity then after == Level(capacity - 1.0, now)
    else if earned >= 1.0 then after == Level(earned - 1.0, now)
    else after.tokens == 0.0 && (after.last - now) * rate >= 1.0 - earned
  }

  lemma Refills(capacity: real, rate: real, before: Level, now: real)
    requires rate > 0.0 && before.last <= now && 0.0 <= before.tokens <= capacity
    ensures 0.0 <= Refilled(capacity, rate, before.tokens, now - before.last) <= capacity
  {
    assert (now - before.last) * rate >= 0.0;
  }

  lemma AtOnce(capacity: real, rate: real, before: Level, now: real, level: real)
    requires capacity >= 1.0 && rate > 0.0 && before.last <= now
    requires level == Refilled(capacity, rate, before.tokens, now - before.last) && level >= 1.0
    ensures Grants(capacity, rate, before, now, Level(level - 1.0, now))
    ensures Spends(capacity, rate, before, now, Level(level - 1.0, now))
  {
  }

  lemma Waits(capacity: real, rate: real, before: Level, now: real, level: real, woken: real)
    requires capacity >= 1.0 && rate > 0.0 && before.last <= now
    requires level == Refilled(capacity, rate, before.tokens, now - before.last)
    requires level < 1.0 && woken >= now + (1.0 - level) / rate
    ensures Grants(capacity, rate, before, now, Level(0.0, woken))
    ensures Spends(capacity, rate, before, now, Level(0.0, woken))
  {
    var wait := (1.0 - level) / rate;
    assert wait * rate == 1.0 - level;
    assert (woken - now - wait) * rate >= 0.0;
  }

  // ---------------------------------------------------------------- the rate bound

  /** Levels at the return of consecutive calls, at whatever times they were made. */
  ghost predicate History(capacity: real, rate: real, levels: seq<Level>, calls: seq<real>)
    requires rate > 0.0
  {
    && |calls| + 1 == |levels| && 0.0 <= levels[0].tokens <= capacity
    && forall k :: 0 <= k < |calls| ==> Grants(capacity, rate, levels[k], calls[k], levels[k + 1])
  }

  /** A call costs one token of what time refills, leaves room for one, and takes no time back. */
  lemma CallCosts(capacity: real, rate: real, before: Level, now: real, after: Level)
    requires capacity >= 1.0 && rate > 0.0 && 0.0 <= before.tokens <= capacity
    requires Grants(capacity, rate, before, now, after)
    ensures 0.0 <= after.tokens <= capacity - 1.0 && before.last <= after.last
    ensures after.tokens <= before.tokens + (after.last - before.last) * rate - 1.0
  {
  }

  /** From the return of call `i` to the return of call `j`. */
  lemma {:induction false} CallsCost(capacity: real, rate: real, levels: seq<Level>, calls: seq<real>, i: nat, j: nat)
    requires capacity >= 1.0 && rate > 0.0 && History(capacity, rate, levels, calls) && i <= j < |levels|
    ensures 0.0 <= levels[j].tokens <= capacity && (j > 0 ==> levels[j].tokens <= capacity - 1.0)
    ensures levels[j].tokens <= levels[i].tokens + (levels[j].last - levels[i].last) * rate - (j - i) as real
    decreases j
  {
    if j == 0 {
      assert (levels[j].last - levels[i].last) * rate == 0.0;
    } else {
      CallsCost(capacity, rate, levels, calls, if i < j then i else j - 1, j - 1);
      CallCosts(capacity, rate, levels[j - 1], calls[j - 1], levels[j]);
      if i < j {
        var (x, y, z) := (levels[i].last, levels[j - 1].last, levels[j].last);
        assert (z - x) * rate == (z - y) * rate + (y - x) * rate;
      } else {
        assert (levels[j].last - levels[i].last) * rate == 0.0;
      }
    }
  }

  /** In every window of length `span`, at most capacity + span * rate calls return: whenever calls
      `i` to `j` all return within it, there are no more of them than that. */
  lemma RateBound(capacity: real, rate: real, levels: seq<Level>, calls: seq<real>, i: nat, j: nat, span: real)
    requires capacity >= 1.0 && rate > 0.0 && History(capacity, rate, levels, calls)
    requires 1 <= i <= j < |levels| && levels[j].last - levels[i].last <= span
    ensures (j - i + 1) as real <= capacity + span * rate
  {
    CallsCost(capacity, rate, levels, calls, i, j);
    CallsCost(capacity, rate, levels, calls, i, i);
    assert (span - (levels[j].last - levels[i].last)) * rate >= 0.0;
  }

  /** The calls that return between `from` and `to`. */
  ghost function Returning(levels: seq<Level>, from: real, to: real): set<nat> {
    set k: nat | 1 <= k < |levels| && from <= levels[k].last <= to
  }

  lemma {:induction false} AtMost(s: set<nat>, low: nat, high: int)
    requires low <= high + 1 && forall k :: k in s ==> low <= k <= high
    ensures |s| <= high - low + 1
    decreases high - low + 1
  {
    if low > high {
      assert s == {};
    } else {
      AtMost(s - {high}, low, high - 1);
    }
  }

  lemma {:induction false} FirstAndLast(levels: seq<Level>, from: real, to: real, n: nat)
    returns (first: nat, last: nat)
    requires n <= |levels| && exists k: nat :: k < n && k in Returning(levels, from, to)
    ensures first in Returning(levels, from, to) && last in Returning(levels, from, to) && first <= last < n
    ensures forall k: nat :: k in Returning(levels, from, to) && k < n ==> first <= k <= last
  {
    if exists k: nat :: k < n - 1 && k in Returning(levels, from, to) {
      first, last := FirstAndLast(levels, from, to, n - 1);
      if n - 1 in Returning(levels, from, to) {
        last := n - 1;
      }
    } else {
      first, last := n - 1, n - 1;
    }
  }

  /** The same bound as a count: however many calls were made and whenever, at most
      capacity + span * rate of them return in a window of length `span`. */
  lemma WindowBound(capacity: real, rate: real, levels: seq<Level>, calls: seq<real>, from: real, span: real)
    requires capacity >= 1.0 && rate > 0.0 && span >= 0.0 && History(capacity, rate, levels, calls)
    ensures |Returning(levels, from, from + span)| as real <= capacity + span * rate
  {
    var s := Returning(levels, from, from + span);
    if exists k: nat :: k < |levels| && k in s {
      var first, last := FirstAndLast(levels, from, from + span, |levels|);
      AtMost(s, first, last);
      RateBound(capacity, rate, levels, calls, first, last, span);
    } else {
      assert s == {};
      assert span * rate >= 0.0;
    }
  }
}
