/**
 * A machine's working time: three daily shifts, the dated windows the scheduler expands them into,
 * and the per-minute reading both must agree with.
 * Time is a whole number of minutes at a fixed offset; day `d` is [d * 1440, (d + 1) * 1440).
 */
module Calendar {
  import opened Common

  const MINUTES_PER_DAY := 1440
  const DAYS_AHEAD := 30

  /** One shift of the day: `start` and `end` are minutes after midnight. */
  datatype Shift = Shift(start: nat, end: nat, enabled: bool) {
    ghost predicate Valid() {
      start < MINUTES_PER_DAY && end < MINUTES_PER_DAY
    }

    /**
     * The minute `m` of some day belongs to this shift; a shift whose end is not after its start runs past midnight.
     */
    predicate Covers(m: int) {
      enabled && if start < end then start <= m < end else start <= m || m < end
    }
  }

  datatype MachineCalendar = MachineCalendar(morning: Shift, afternoon: Shift, night: Shift) {
    ghost predicate Valid() {
      morning.Valid() && afternoon.Valid() && night.Valid()
    }

    function Shifts(): seq<Shift> {
      [morning, afternoon, night]
    }

    predicate AnyEnabled() {
      morning.enabled || afternoon.enabled || night.enabled
    }
  }

  function Day(t: int): int {
    t / MINUTES_PER_DAY
  }

  /** The per-minute calendar: minute `t` is working time. */
  predicate Works(c: MachineCalendar, t: int) {
    var m := t % MINUTES_PER_DAY;
    c.morning.Covers(m) || c.afternoon.Covers(m) || c.night.Covers(m)
  }

  /** With no shift enabled (or no machine at all) the scheduler does not restrict the start. */
  predicate Usable(c: MachineCalendar, t: int) {
    c.AnyEnabled() ==> Works(c, t)
  }

  datatype Window = Window(start: int, end: int)

  function WindowOn(s: Shift, day: int): Window {
    var base := day * MINUTES_PER_DAY;
    Window(base + s.start, base + s.end + if s.end <= s.start then MINUTES_PER_DAY else 0)
  }

  /** Window `w` is one of the enabled shifts of day `day`. */
  predicate OnDay(c: MachineCalendar, day: int, w: Window) {
    || (c.morning.enabled && w == WindowOn(c.morning, day))
    || (c.afternoon.enabled && w == WindowOn(c.afternoon, day))
    || (c.night.enabled && w == WindowOn(c.night, day))
  }

  /** The dated windows around `at`: every enabled shift of every day from yesterday to 30 days ahead. */
  ghost predicate IsWindow(c: MachineCalendar, at: int, w: Window) {
    exists day :: Day(at) - 1 <= day <= Day(at) + DAYS_AHEAD && OnDay(c, day, w)
  }

  /** Where the dated windows end: the latest end of a window of the last day, or `at` itself when there is none. */
  function Horizon(c: MachineCalendar, at: int): int {
    if !c.AnyEnabled() then at
    else
      var last := Day(at) + DAYS_AHEAD;
      var low := last * MINUTES_PER_DAY;
      var m := if c.morning.enabled then WindowOn(c.morning, last).end else low;
      var a := if c.afternoon.enabled then WindowOn(c.afternoon, last).end else low;
      var n := if c.night.enabled then WindowOn(c.night, last).end else low;
      Max(m, Max(a, n))
  }

  // ---- building the windows ----

  ghost predicate SortedByStart(ws: seq<Window>) {
    forall i, j :: 0 <= i < j < |ws| ==> ws[i].start <= ws[j].start
  }

  /** Insertion after every window that does not start later: the place a stable sort gives it. */
  function Insert(w: Window, ws: seq<Window>): (r: seq<Window>)
    requires SortedByStart(ws)
    ensures SortedByStart(r) && forall x :: x in r <==> x == w || x in ws
  {
    if ws == [] then [w]
    else
      var front, last := ws[..|ws| - 1], ws[|ws| - 1];
      assert forall x :: x in ws <==> x in front || x == last;
      if w.start < last.start then
        var r := Insert(w, front);
        assert forall i :: 0 <= i < |r| ==> r[i] in r;
        assert forall i :: 0 <= i < |front| ==> ws[i] == front[i];
        r + [last]
      else ws + [w]
  }

  function SortByStart(ws: seq<Window>): (r: seq<Window>)
    ensures SortedByStart(r) && forall x :: x in r <==> x in ws
  {
    if ws == [] then []
    else
      assert forall x :: x in ws <==> x in ws[..|ws| - 1] || x == ws[|ws| - 1];
      Insert(ws[|ws| - 1], SortByStart(ws[..|ws| - 1]))
  }

  method MachineWindows(c: MachineCalendar, at: int) returns (ws: seq<Window>)
    ensures SortedByStart(ws)
    ensures forall w :: w in ws <==> IsWindow(c, at, w)
  {
    var anchor := Day(at) - 1;
    var windows: seq<Window> := [];
    for offset := 0 to DAYS_AHEAD + 2
      invariant forall w :: w in windows ==> IsWindow(c, at, w)
      invariant forall day, w :: anchor <= day < anchor + offset && OnDay(c, day, w) ==> w in windows
    {
      var base := anchor + offset;
      ghost var before := windows;
      for k := 0 to 3
        invariant forall w :: w in before ==> w in windows
        invariant forall w :: w in windows ==> IsWindow(c, at, w)
        invariant forall i :: 0 <= i < k && c.Shifts()[i].enabled ==> WindowOn(c.Shifts()[i], base) in windows
      {
        var entry := c.Shifts()[k];
        if entry.enabled {
          assert OnDay(c, base, WindowOn(entry, base));
          windows := windows + [WindowOn(entry, base)];
        }
      }
      assert c.Shifts()[0] == c.morning && c.Shifts()[1] == c.afternoon && c.Shifts()[2] == c.night;
    }
    ws := SortByStart(windows);
  }

  // ---- the windows agree with the per-minute calendar ----

  lemma MinuteOfWindow(s: Shift, day: int, t: int)
    requires s.Valid() && s.enabled
    requires WindowOn(s, day).start <= t < WindowOn(s, day).end
    ensures s.Covers(t % MINUTES_PER_DAY)
  {
    var m := t - day * MINUTES_PER_DAY;
    if m < MINUTES_PER_DAY {
      assert t % MINUTES_PER_DAY == m;
    } else {
      assert t % MINUTES_PER_DAY == m - MINUTES_PER_DAY;
    }
  }

  lemma CoveringDay(s: Shift, t: int) returns (day: int)
    requires s.Valid() && s.Covers(t % MINUTES_PER_DAY)
    ensures Day(t) - 1 <= day <= Day(t)
    ensures WindowOn(s, day).start <= t < WindowOn(s, day).end
  {
    assert t == Day(t) * MINUTES_PER_DAY + t % MINUTES_PER_DAY;
    day := if WindowOn(s, Day(t)).start <= t then Day(t) else Day(t) - 1;
  }

  /** Every listed window consists of working minutes and ends by the horizon. */
  lemma WindowIsWorking(c: MachineCalendar, at: int, w: Window, t: int)
    requires c.Valid() && IsWindow(c, at, w) && w.start <= t < w.end
    ensures Works(c, t) && w.end <= Horizon(c, at)
  {
    var day :| Day(at) - 1 <= day <= Day(at) + DAYS_AHEAD && OnDay(c, day, w);
    if c.morning.enabled && w == WindowOn(c.morning, day) {
      MinuteOfWindow(c.morning, day, t);
    } else if c.afternoon.enabled && w == WindowOn(c.afternoon, day) {
      MinuteOfWindow(c.afternoon, day, t);
    } else {
      MinuteOfWindow(c.night, day, t);
    }
  }

  lemma WorkingLiesOnDay(c: MachineCalendar, t: int) returns (day: int, w: Window)
    requires c.Valid() && Works(c, t)
    ensures Day(t) - 1 <= day <= Day(t) && OnDay(c, day, w) && w.start <= t < w.end
  {
    var s := if c.morning.Covers(t % MINUTES_PER_DAY) then c.morning
             else if c.afternoon.Covers(t % MINUTES_PER_DAY) then c.afternoon
             else c.night;
    day := CoveringDay(s, t);
    w := WindowOn(s, day);
  }

  /**
   * A working minute before the horizon lies in a listed window, even where the last night spills into a day of its
   * own.
   */
  lemma WorkingIsListed(c: MachineCalendar, at: int, t: int) returns (w: Window)
    requires c.Valid() && at <= t && Works(c, t) && (t < Horizon(c, at) || Day(t) <= Day(at) + DAYS_AHEAD)
    ensures IsWindow(c, at, w) && w.start <= t < w.end
  {
    var day, v := WorkingLiesOnDay(c, t);
    w := v;
    var last := Day(at) + DAYS_AHEAD;
    if last < day {
      assert Day(t) == last + 1;
      var s := if c.morning.enabled && WindowOn(c.morning, last).end == Horizon(c, at) then c.morning
               else if c.afternoon.enabled && WindowOn(c.afternoon, last).end == Horizon(c, at) then c.afternoon
               else c.night;
      w := WindowOn(s, last);
      assert OnDay(c, last, w);
    }
  }

  lemma HorizonIsMonotone(c: MachineCalendar, a: int, b: int)
    requires a <= b
    ensures Horizon(c, a) <= Horizon(c, b)
  {
    assert Day(a) <= Day(b);
  }

  // ---- counting working minutes ----

  ghost function WorkCount(c: MachineCalendar, a: int, b: int): nat
    decreases b - a
  {
    if b <= a then 0 else (if Works(c, a) then 1 else 0) + WorkCount(c, a + 1, b)
  }

  lemma {:induction false} WorkCountSplits(c: MachineCalendar, a: int, m: int, b: int)
    requires a <= m <= b
    ensures WorkCount(c, a, b) == WorkCount(c, a, m) + WorkCount(c, m, b)
    decreases m - a
  {
    if a < m {
      WorkCountSplits(c, a + 1, m, b);
    }
  }

  lemma {:induction false} WorkCountRepeatsDaily(c: MachineCalendar, a: int, b: int, days: int)
    ensures WorkCount(c, a + days * MINUTES_PER_DAY, b + days * MINUTES_PER_DAY) == WorkCount(c, a, b)
    decreases b - a
  {
    if a < b {
      assert (a + days * MINUTES_PER_DAY) % MINUTES_PER_DAY == a % MINUTES_PER_DAY;
      WorkCountRepeatsDaily(c, a + 1, b, days);
    }
  }

  /** Working minutes of day `day`; the same for every day. */
  ghost function DailyMinutes(c: MachineCalendar, day: int): nat {
    WorkCount(c, day * MINUTES_PER_DAY, (day + 1) * MINUTES_PER_DAY)
  }

  lemma EveryDayIsTheSame(c: MachineCalendar, d: int, e: int)
    ensures DailyMinutes(c, d) == DailyMinutes(c, e)
  {
    WorkCountRepeatsDaily(c, d * MINUTES_PER_DAY, (d + 1) * MINUTES_PER_DAY, e - d);
  }

  lemma {:induction false} WholeDays(c: MachineCalendar, day: int, n: nat)
    ensures WorkCount(c, day * MINUTES_PER_DAY, (day + n) * MINUTES_PER_DAY) == n * DailyMinutes(c, day)
    decreases n
  {
    if n > 0 {
      var m, k := n - 1, DailyMinutes(c, day);
      WholeDays(c, day, m);
      EveryDayIsTheSame(c, day, day + m);
      WorkCountSplits(c, day * MINUTES_PER_DAY, (day + m) * MINUTES_PER_DAY, (day + n) * MINUTES_PER_DAY);
      assert n * k == m * k + k;
    }
  }

  lemma {:induction false} NoWorkNoCount(c: MachineCalendar, a: int, b: int)
    requires forall t :: a <= t < b ==> !Works(c, t)
    ensures WorkCount(c, a, b) == 0
    decreases b - a
  {
    if a < b {
      NoWorkNoCount(c, a + 1, b);
    }
  }

  /** The dated windows hold at least 30 whole days of working minutes after any starting point. */
  lemma ThirtyDaysBeforeHorizon(c: MachineCalendar, at: int, day: int)
    requires c.Valid() && c.AnyEnabled()
    ensures WorkCount(c, at, Horizon(c, at)) >= DAYS_AHEAD * DailyMinutes(c, day)
  {
    var d := Day(at) + 1;
    var lo, hi, h := d * MINUTES_PER_DAY, (d + DAYS_AHEAD) * MINUTES_PER_DAY, Horizon(c, at);
    WholeDays(c, d, DAYS_AHEAD);
    EveryDayIsTheSame(c, d, day);
    assert at <= lo <= h;
    WorkCountSplits(c, at, lo, h);
    if h < hi {
      forall t | h <= t < hi
        ensures !Works(c, t)
      {
        if Works(c, t) {
          assert Day(t) <= Day(at) + DAYS_AHEAD;
          var w := WorkingIsListed(c, at, t);
          WindowIsWorking(c, at, w, t);
        }
      }
      NoWorkNoCount(c, h, hi);
      WorkCountSplits(c, lo, h, hi);
    } else {
      WorkCountSplits(c, lo, hi, h);
    }
  }
}
