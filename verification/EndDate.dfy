/**
 * End dates that skip whole holidays. Times are microseconds and days are counted as in `date.toordinal`,
 * day d lasting from d * DAY to (d + 1) * DAY; one fixed offset from UTC.
 */
module EndDate {
  import opened Common

  const SECOND := 1_000_000
  const DAY := 86_400_000_000

  /** Company settings: weekdays off (0 is Monday) and single days off. */
  datatype Settings = Settings(weekly: seq<int>, dates: seq<int>)

  function DateOf(t: int): int {
    t / DAY
  }

  /** Time since midnight. */
  function ClockOf(t: int): int {
    t % DAY
  }

  function Weekday(d: int): int {
    (d + 6) % 7
  }

  predicate IsHoliday(d: int, s: Settings) {
    Weekday(d) in s.weekly || d in s.dates
  }

  // ---- some day is worked on ----

  /** All single holidays are before this day. */
  function AfterDates(dates: seq<int>): (h: int)
    ensures forall i :: 0 <= i < |dates| ==> dates[i] < h
  {
    if dates == [] then 0 else Max(AfterDates(dates[..|dates| - 1]), dates[|dates| - 1] + 1)
  }

  /** The first day with weekday `w` after all single holidays. */
  function SureDay(s: Settings, w: int): (d: int)
    requires 0 <= w < 7
    ensures AfterDates(s.dates) <= d && Weekday(d) == w
  {
    var h := AfterDates(s.dates);
    h + (w - Weekday(h)) % 7
  }

  /** How far a day with weekday `w` can be from day `d`, at most. */
  ghost function Ahead(d: int, s: Settings, w: int): nat
    requires 0 <= w < 7
  {
    if d < SureDay(s, w) then 7 + SureDay(s, w) - d else (w - Weekday(d)) % 7
  }

  lemma HolidayIsCloser(d: int, s: Settings, w: int)
    requires 0 <= w < 7 && w !in s.weekly && IsHoliday(d, s)
    ensures Ahead(d + 1, s, w) < Ahead(d, s, w)
  {
    if d >= SureDay(s, w) {
      assert Weekday(d) != w;
    }
  }

  /** The search for a working day ends, from every day, exactly when the week has one. */
  lemma WorkExistsExactly(s: Settings, from: int)
    ensures (exists d :: from <= d && !IsHoliday(d, s)) <==> (exists w :: 0 <= w < 7 && w !in s.weekly)
  {
    if w :| 0 <= w < 7 && w !in s.weekly {
      var sure := SureDay(s, w);
      var d := if sure < from then sure + 7 * (from - sure) else sure;
      assert Weekday(d) == w && from <= d;
      assert d !in s.dates;
      assert !IsHoliday(d, s);
    }
    if d :| from <= d && !IsHoliday(d, s) {
      assert 0 <= Weekday(d) < 7 && Weekday(d) !in s.weekly;
    }
  }

  // ---- working time ----

  /** Working time between `a` and `b`: all of it but what falls on holidays. */
  ghost function Worked(a: int, b: int, s: Settings): int
    requires a <= b
    decreases DateOf(b) - DateOf(a)
  {
    if DateOf(a) == DateOf(b) then (if IsHoliday(DateOf(a), s) then 0 else b - a)
    else (if IsHoliday(DateOf(a), s) then 0 else DAY - ClockOf(a)) + Worked((DateOf(a) + 1) * DAY, b, s)
  }

  lemma {:induction false} WorkedAdds(a: int, b: int, c: int, s: Settings)
    requires a <= b <= c
    ensures Worked(a, c, s) == Worked(a, b, s) + Worked(b, c, s)
    decreases DateOf(b) - DateOf(a)
  {
    if DateOf(a) != DateOf(b) {
      WorkedAdds((DateOf(a) + 1) * DAY, b, c, s);
    }
  }

  lemma {:induction false} WorkedIsPositive(a: int, b: int, s: Settings)
    requires a <= b
    ensures 0 <= Worked(a, b, s)
    ensures a < b && !IsHoliday(DateOf(a), s) ==> 0 < Worked(a, b, s)
    decreases DateOf(b) - DateOf(a)
  {
    if DateOf(a) != DateOf(b) {
      WorkedIsPositive((DateOf(a) + 1) * DAY, b, s);
    }
  }

  /** From midnight of the first of some holidays to a point of the working day after them. */
  lemma {:induction false} HolidaysTakeNothing(d: int, e: int, x: int, s: Settings)
    requires d <= e && 0 <= x < DAY && !IsHoliday(e, s) && forall k :: d <= k < e ==> IsHoliday(k, s)
    ensures Worked(d * DAY, e * DAY + x, s) == x
    decreases e - d
  {
    assert DateOf(d * DAY) == d && DateOf(e * DAY + x) == e;
    if d < e {
      HolidaysTakeNothing(d + 1, e, x, s);
    }
  }

  lemma WorkedAcross(from: int, e: int, x: int, s: Settings)
    requires DateOf(from) < e && 0 <= x < DAY && !IsHoliday(DateOf(from), s) && !IsHoliday(e, s)
    requires forall k :: DateOf(from) < k < e ==> IsHoliday(k, s)
    ensures from <= e * DAY + x && Worked(from, e * DAY + x, s) == DAY - ClockOf(from) + x
  {
    assert DateOf(e * DAY + x) == e;
    HolidaysTakeNothing(DateOf(from) + 1, e, x, s);
  }

  // ---- the end date ----

  /** `t` is `start` pushed day by day to the first working day. */
  ghost predicate IsPushed(start: int, t: int, s: Settings) {
    && start <= t && ClockOf(t) == ClockOf(start) && !IsHoliday(DateOf(t), s)
    && forall k :: DateOf(start) <= k < DateOf(t) ==> IsHoliday(k, s)
  }

  lemma PushedIsUnique(start: int, t: int, u: int, s: Settings)
    requires IsPushed(start, t, s) && IsPushed(start, u, s)
    ensures t == u
  {
    assert DateOf(start) <= DateOf(t) && DateOf(start) <= DateOf(u);
  }

  /** What is left of the second `t` falls into. */
  function Fraction(t: int): int {
    t % SECOND
  }

  /** The job passes the midnight after its first day by more than the fraction of a second it started with. */
  predicate LosesFraction(first: int, duration: int) {
    DAY - ClockOf(first) + Fraction(first) < duration
  }

  /** The end of a job that starts working at `first`: on a working day, after exactly that much working time. */
  ghost predicate IsEnd(first: int, duration: int, end: int, s: Settings) {
    && first <= end && !IsHoliday(DateOf(end), s)
    && Worked(first, end, s) ==
         if duration <= 0 then 0
         else if LosesFraction(first, duration) then duration - Fraction(first)
         else duration
  }

  /** Only one moment is the end, so `IsEnd` says all there is to say. */
  lemma EndIsUnique(first: int, duration: int, a: int, b: int, s: Settings)
    requires IsEnd(first, duration, a, s) && IsEnd(first, duration, b, s)
    ensures a == b
  {
    var lo, hi := if a < b then a else b, if a < b then b else a;
    WorkedAdds(first, lo, hi, s);
    WorkedIsPositive(lo, hi, s);
  }

  /** What `calculate_end_date` promises: the end of the job that starts at the first working moment. */
  ghost predicate IsEndDate(start: Option<int>, duration: int, end: Option<int>, s: Settings) {
    && (start.None? <==> end.None?)
    && (start.Some? ==> exists first :: IsPushed(start.value, first, s) && IsEnd(first, duration, end.value, s))
  }

  /** There is one possible end date for every start and duration. */
  lemma EndDateIsUnique(start: Option<int>, duration: int, a: Option<int>, b: Option<int>, s: Settings)
    requires IsEndDate(start, duration, a, s) && IsEndDate(start, duration, b, s)
    ensures a == b
  {
    if start.Some? {
      var first :| IsPushed(start.value, first, s) && IsEnd(first, duration, a.value, s);
      var other :| IsPushed(start.value, other, s) && IsEnd(other, duration, b.value, s);
      PushedIsUnique(start.value, first, other, s);
      EndIsUnique(first, duration, a.value, b.value, s);
    }
  }

  /** Two seconds of work from half a second before midnight end after a second and a half. */
  lemma FractionIsLost(end: Option<int>)
    requires IsEndDate(Some(4 * DAY - SECOND / 2), 2 * SECOND, end, Settings([], []))
    ensures end == Some(4 * DAY - SECOND / 2 + 2 * SECOND - SECOND / 2)
  {
    var s, first, e := Settings([], []), 4 * DAY - SECOND / 2, 4 * DAY + SECOND;
    assert IsPushed(first, first, s);
    assert DateOf(first) == 3 && DateOf(e) == 4 && DateOf(4 * DAY) == 4;
    assert Worked(4 * DAY, e, s) == SECOND;
    assert IsEnd(first, 2 * SECOND, e, s);
    EndDateIsUnique(Some(first), 2 * SECOND, end, Some(e), s);
  }

  method PushToWorkingDay(start: int, s: Settings) returns (t: int)
    requires exists w :: 0 <= w < 7 && w !in s.weekly
    ensures IsPushed(start, t, s)
  {
    ghost var w :| 0 <= w < 7 && w !in s.weekly;
    t := start;
    while IsHoliday(DateOf(t), s)
      invariant start <= t && ClockOf(t) == ClockOf(start)
      invariant forall k :: DateOf(start) <= k < DateOf(t) ==> IsHoliday(k, s)
      decreases Ahead(DateOf(t), s, w)
    {
      HolidayIsCloser(DateOf(t), s, w);
      assert DateOf(t + DAY) == DateOf(t) + 1;
      t := t + DAY;
    }
  }

  /** State of the work loop: everything up to `from` is accounted for, and `current` is `from` moved over holidays. */
  ghost predicate Accounted(first: int, from: int, current: int, remaining: int, duration: int, s: Settings) {
    && 0 < remaining && first <= from <= current && ClockOf(current) == ClockOf(from)
    && !IsHoliday(DateOf(from), s) && (forall k :: DateOf(from) < k <= DateOf(current) ==> IsHoliday(k, s))
    && (DateOf(from) < DateOf(current) ==> DAY - ClockOf(from) <= remaining)
    && (from == first ==> remaining == duration)
    && (from != first ==> (ClockOf(from) == 0 && LosesFraction(first, duration)
        && Worked(first, from, s) + remaining == duration - Fraction(first)))
  }

  lemma MidnightIsWhole(t: int)
    requires ClockOf(t) == 0
    ensures Fraction(t) == 0
  {
    assert t == DAY * DateOf(t);
    assert t == SECOND * (86_400 * DateOf(t));
  }

  lemma FinishesToday(first: int, from: int, current: int, remaining: int, duration: int, s: Settings)
    requires Accounted(first, from, current, remaining, duration, s) && DateOf(current + remaining) == DateOf(current)
    ensures IsEnd(first, duration, current + remaining, s)
  {
    assert from == current;
    WorkedAdds(first, from, from + remaining, s);
    assert Fraction(first) >= 0;
  }

  lemma FinishesAtMidnight(first: int, from: int, current: int, remaining: int, duration: int, s: Settings)
    requires Accounted(first, from, current, remaining, duration, s) && DateOf(current + remaining) != DateOf(current)
    requires !IsHoliday(DateOf(current) + 1, s) && remaining <= DAY - ClockOf(current) + Fraction(current)
    ensures IsEnd(first, duration, current + remaining, s)
  {
    var next, x := DateOf(current) + 1, remaining - (DAY - ClockOf(current));
    SameClockSameFraction(from, current);
    assert Fraction(current) <= ClockOf(current) by { FractionWithinClock(current); }
    assert current + remaining == next * DAY + x && 0 <= x;
    if from != first {
      MidnightIsWhole(from);
    }
    WorkedAcross(from, next, x, s);
    WorkedAdds(first, from, current + remaining, s);
  }

  lemma FractionWithinClock(t: int)
    ensures Fraction(t) <= ClockOf(t) && Fraction(t) == ClockOf(t) % SECOND
  {
    assert t == SECOND * (86_400 * DateOf(t)) + ClockOf(t);
  }

  lemma SameClockSameFraction(t: int, u: int)
    requires ClockOf(t) == ClockOf(u)
    ensures Fraction(t) == Fraction(u)
  {
    FractionWithinClock(t);
    FractionWithinClock(u);
  }

  lemma SkipsHoliday(first: int, from: int, current: int, remaining: int, duration: int, s: Settings)
    requires Accounted(first, from, current, remaining, duration, s) && DateOf(current + remaining) != DateOf(current)
    requires IsHoliday(DateOf(current) + 1, s)
    ensures DateOf(current + DAY) == DateOf(current) + 1
    ensures Accounted(first, from, current + DAY, remaining, duration, s)
  {
  }

  lemma StartsNextDay(first: int, from: int, current: int, remaining: int, duration: int, s: Settings)
    requires Accounted(first, from, current, remaining, duration, s)
    requires !IsHoliday(DateOf(current) + 1, s) && DAY - ClockOf(current) + Fraction(current) < remaining
    ensures var midnight := (DateOf(current) + 1) * DAY;
      Accounted(first, midnight, midnight, remaining - (DAY - ClockOf(current) + Fraction(current)), duration, s)
  {
    var next := DateOf(current) + 1;
    SameClockSameFraction(from, current);
    if from != first {
      MidnightIsWhole(from);
    }
    WorkedAcross(from, next, 0, s);
    WorkedAdds(first, from, next * DAY, s);
    assert DateOf(next * DAY) == next && ClockOf(next * DAY) == 0;
  }

  /**
   * The end is found; with a fraction of a second at the start, that fraction is lost exactly when a midnight is passed
   * by more than it.
   */
  method CalculateEndDate(start: Option<int>, duration: int, s: Settings) returns (end: Option<int>)
    requires exists w :: 0 <= w < 7 && w !in s.weekly
    ensures IsEndDate(start, duration, end, s)
  {
    if start.None? {
      return None;
    }
    var current := PushToWorkingDay(start.value, s);
    var remaining := duration;
    ghost var w :| 0 <= w < 7 && w !in s.weekly;
    ghost var first, from := current, current;
    while remaining > 0
      invariant IsPushed(start.value, first, s)
      invariant if duration <= 0 then remaining == duration && current == first
        else Accounted(first, from, current, remaining, duration, s)
      decreases remaining, Ahead(DateOf(current) + 1, s, w)
    {
      var tentative := current + remaining;
      if DateOf(tentative) == DateOf(current) {
        FinishesToday(first, from, current, remaining, duration, s);
        return Some(tentative);
      }
      var next := DateOf(current) + 1;
      if IsHoliday(next, s) {
        HolidayIsCloser(next, s, w);
        SkipsHoliday(first, from, current, remaining, duration, s);
        current := current + DAY;
      } else {
        var untilMidnight := DAY - (ClockOf(current) - Fraction(current));
        if untilMidnight >= remaining {
          FinishesAtMidnight(first, from, current, remaining, duration, s);
          return Some(tentative);
        }
        StartsNextDay(first, from, current, remaining, duration, s);
        remaining := remaining - untilMidnight;
        current := next * DAY;
        from := current;
      }
    }
    return Some(current);
  }
}
