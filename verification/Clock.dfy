/**
 * Spending a duration in working time. The reference is a clock that walks minute by minute and
 * counts working minutes only; the loop over dated windows is proved to land where the clock does.
 */
module Clock {
  import opened Common
  import opened Calendar

  /** Walk from `t` until `n` minutes are spent; beyond `limit` every minute counts. */
  ghost function Walk(c: MachineCalendar, t: int, n: nat, limit: int): int
    decreases limit - t, n
  {
    if n == 0 then t
    else if limit <= t then t + n
    else Walk(c, t + 1, if Works(c, t) then n - 1 else n, limit)
  }

  function AtLeastOne(n: int): nat {
    if n < 1 then 1 else n
  }

  /** The end of a job of `n` minutes that starts at `s`. */
  ghost function EndOf(c: MachineCalendar, s: int, n: int): int {
    Walk(c, s, AtLeastOne(n), Horizon(c, s))
  }

  lemma {:induction false} WalkIdle(c: MachineCalendar, a: int, b: int, n: nat, limit: int)
    requires a <= b <= limit && n > 0
    requires forall t :: a <= t < b ==> !Works(c, t)
    ensures Walk(c, a, n, limit) == Walk(c, b, n, limit)
    decreases b - a
  {
    if a < b {
      WalkIdle(c, a + 1, b, n, limit);
    }
  }

  lemma {:induction false} WalkWorking(c: MachineCalendar, a: int, b: int, n: nat, limit: int)
    requires a <= b <= limit && b - a <= n
    requires forall t :: a <= t < b ==> Works(c, t)
    ensures Walk(c, a, n, limit) == Walk(c, b, n - (b - a), limit)
    decreases b - a
  {
    if a < b {
      WalkWorking(c, a + 1, b, n - 1, limit);
    }
  }

  /** Consume the duration inside the working windows only, in window order. */
  method MachineEndForDuration(c: MachineCalendar, start: int, totalMinutes: int) returns (end: int)
    requires c.Valid()
    ensures end == EndOf(c, start, totalMinutes)
  {
    var remaining := AtLeastOne(totalMinutes);
    var current := start;
    var windows := MachineWindows(c, start);
    ghost var limit := Horizon(c, start);
    for i := 0 to |windows|
      invariant start <= current && remaining > 0
      invariant forall j :: 0 <= j < i ==> windows[j].end <= current
      invariant Walk(c, current, remaining, limit) == EndOf(c, start, totalMinutes)
    {
      var w := windows[i];
      assert w in windows;
      if current < w.end {
        IdleBefore(c, start, windows, i, current);
        SpendInWindow(c, start, w, Max(current, w.start), remaining);
        if current < w.start {
          current := w.start;
        }
        var consumed := Min(remaining, w.end - current);
        current := current + consumed;
        remaining := remaining - consumed;
        if remaining <= 0 {
          return current;
        }
      }
    }
    HorizonReached(c, start, windows, current);
    end := current + remaining;
  }

  /** No minute between the clock and the next window is working time. */
  lemma IdleBefore(c: MachineCalendar, at: int, ws: seq<Window>, i: nat, current: int)
    requires c.Valid() && at <= current && i < |ws| && SortedByStart(ws)
    requires forall w :: w in ws <==> IsWindow(c, at, w)
    requires forall j :: 0 <= j < i ==> ws[j].end <= current
    requires current < ws[i].end
    ensures ws[i].end <= Horizon(c, at)
    ensures forall n: nat :: n > 0 ==>
      Walk(c, current, n, Horizon(c, at)) == Walk(c, Max(current, ws[i].start), n, Horizon(c, at))
  {
    assert ws[i] in ws;
    WindowIsWorking(c, at, ws[i], ws[i].end - 1);
    assert forall w :: w in ws ==> w.end <= current || ws[i].start <= w.start;
    forall t | current <= t < ws[i].start
      ensures !Works(c, t)
    {
      if Works(c, t) {
        var w := WorkingIsListed(c, at, t);
        assert false;
      }
    }
    forall n: nat | n > 0
      ensures Walk(c, current, n, Horizon(c, at)) == Walk(c, Max(current, ws[i].start), n, Horizon(c, at))
    {
      WalkIdle(c, current, Max(current, ws[i].start), n, Horizon(c, at));
    }
  }

  lemma SpendInWindow(c: MachineCalendar, at: int, w: Window, current: int, n: nat)
    requires c.Valid() && IsWindow(c, at, w) && w.start <= current < w.end
    ensures var k := Min(n, w.end - current);
      Walk(c, current, n, Horizon(c, at)) == Walk(c, current + k, n - k, Horizon(c, at))
  {
    forall t | current <= t < w.end
      ensures Works(c, t) && w.end <= Horizon(c, at)
    {
      WindowIsWorking(c, at, w, t);
    }
    assert w.end <= Horizon(c, at) by { WindowIsWorking(c, at, w, current); }
    WalkWorking(c, current, current + Min(n, w.end - current), n, Horizon(c, at));
  }

  lemma HorizonReached(c: MachineCalendar, at: int, ws: seq<Window>, current: int)
    requires c.Valid() && at <= current
    requires forall w :: w in ws <==> IsWindow(c, at, w)
    requires forall j :: 0 <= j < |ws| ==> ws[j].end <= current
    ensures Horizon(c, at) <= current
  {
    if c.AnyEnabled() {
      var last := Day(at) + DAYS_AHEAD;
      var s := if c.morning.enabled && WindowOn(c.morning, last).end == Horizon(c, at) then c.morning
               else if c.afternoon.enabled && WindowOn(c.afternoon, last).end == Horizon(c, at) then c.afternoon
               else c.night;
      assert OnDay(c, last, WindowOn(s, last));
      assert WindowOn(s, last) in ws;
    }
  }

  // ---- the end is monotone in the start, for every duration ----

  lemma {:induction false} WalkGrowsWithWork(c: MachineCalendar, t: int, m: nat, n: nat, limit: int)
    requires m <= n
    ensures t + m <= Walk(c, t, m, limit) <= Walk(c, t, n, limit)
    decreases limit - t, n
  {
    if n > 0 && t < limit {
      if m > 0 {
        WalkGrowsWithWork(c, t + 1, if Works(c, t) then m - 1 else m, if Works(c, t) then n - 1 else n, limit);
      } else {
        WalkGrowsWithWork(c, t + 1, 0, if Works(c, t) then n - 1 else n, limit);
      }
    }
  }

  lemma {:induction false} WalkGrowsWithLimit(c: MachineCalendar, t: int, n: nat, h: int, k: int)
    requires h <= k
    ensures Walk(c, t, n, h) <= Walk(c, t, n, k)
    decreases k - t, n
  {
    if n > 0 && t < k {
      if t < h {
        WalkGrowsWithLimit(c, t + 1, if Works(c, t) then n - 1 else n, h, k);
      } else {
        WalkGrowsWithWork(c, t, n, n, k);
      }
    }
  }

  lemma {:induction false} WalkGrowsWithStart(c: MachineCalendar, s: int, t: int, n: nat, limit: int)
    requires s <= t
    ensures Walk(c, s, n, limit) <= Walk(c, t, n, limit)
    decreases t - s
  {
    if s < t {
      WalkGrowsWithStart(c, s + 1, t, n, limit);
      if n > 0 && s < limit && Works(c, s) {
        WalkGrowsWithWork(c, s + 1, n - 1, n, limit);
      }
    }
  }

  /** Starting later never ends earlier, whatever the duration, also past the 30-day horizon. */
  lemma EndIsMonotone(c: MachineCalendar, s: int, t: int, n: int)
    requires s <= t
    ensures EndOf(c, s, n) <= EndOf(c, t, n)
  {
    HorizonIsMonotone(c, s, t);
    WalkGrowsWithStart(c, s, t, AtLeastOne(n), Horizon(c, s));
    WalkGrowsWithLimit(c, t, AtLeastOne(n), Horizon(c, s), Horizon(c, t));
  }

  // ---- exactly the requested working minutes are spent, unless the dated windows run out ----

  lemma {:induction false} WalkSpends(c: MachineCalendar, t: int, n: nat, limit: int)
    requires n > 0
    ensures var e := Walk(c, t, n, limit);
      if n <= WorkCount(c, t, limit)
      then t < e <= limit && WorkCount(c, t, e) == n && Works(c, e - 1)
      else e == Max(t, limit) + n - WorkCount(c, t, limit)
    decreases limit - t
  {
    if t < limit {
      var m: nat := if Works(c, t) then n - 1 else n;
      if m > 0 {
        WalkSpends(c, t + 1, m, limit);
      } else {
        assert WorkCount(c, t, t + 1) == 1 + WorkCount(c, t + 1, t + 1);
      }
    }
  }

  /**
   * Up to the working minutes left before the horizon, the interval holds exactly the requested
   * minutes and its last minute is in shift; past that, the shortfall is added as plain minutes.
   */
  lemma ExactWorkingMinutes(c: MachineCalendar, s: int, n: int)
    requires c.Valid()
    ensures var e, k, left := EndOf(c, s, n), AtLeastOne(n), WorkCount(c, s, Horizon(c, s));
      if k <= left
      then s < e <= Horizon(c, s) && WorkCount(c, s, e) == k && Works(c, e - 1)
      else e == Max(s, Horizon(c, s)) + k - left
  {
    WalkSpends(c, s, AtLeastOne(n), Horizon(c, s));
  }

  /** A job of at most 30 days' working minutes is always spent exactly. */
  lemma ThirtyDayJobsAreExact(c: MachineCalendar, s: int, n: int, day: int)
    requires c.Valid() && c.AnyEnabled() && AtLeastOne(n) <= DAYS_AHEAD * DailyMinutes(c, day)
    ensures s < EndOf(c, s, n) <= Horizon(c, s)
    ensures WorkCount(c, s, EndOf(c, s, n)) == AtLeastOne(n) && Works(c, EndOf(c, s, n) - 1)
  {
    ThirtyDaysBeforeHorizon(c, s, day);
    ExactWorkingMinutes(c, s, n);
  }

  /**
   * The 30-day bound is real: with a single one-minute shift, a job of 33 minutes started on
   * day 0 ends outside the shift, with fewer than 33 working minutes inside it.
   */
  lemma PastHorizonIsNotExact()
    ensures var c := MachineCalendar(Shift(0, 1, true), Shift(0, 0, false), Shift(0, 0, false));
      WorkCount(c, 0, EndOf(c, 0, 33)) < 33 && !Works(c, EndOf(c, 0, 33) - 1)
  {
    var c := MachineCalendar(Shift(0, 1, true), Shift(0, 0, false), Shift(0, 0, false));
    var zero, one, h := 0, 1, Horizon(c, 0);
    var base := zero * MINUTES_PER_DAY;
    assert h == 30 * MINUTES_PER_DAY + 1;
    assert WorkCount(c, zero, one) == 1 + WorkCount(c, one, one);
    NoWorkNoCount(c, one, MINUTES_PER_DAY);
    WorkCountSplits(c, zero, one, MINUTES_PER_DAY);
    assert DailyMinutes(c, zero) == 1;
    WholeDays(c, zero, 30);
    WorkCountSplits(c, zero, 30 * MINUTES_PER_DAY, h);
    assert WorkCount(c, h - 1, h) == 1 + WorkCount(c, h, h);
    ExactWorkingMinutes(c, zero, 33);
    NoWorkNoCount(c, h, h + 2);
    WorkCountSplits(c, zero, h, h + 2);
  }
}
