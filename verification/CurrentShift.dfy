/**
 * The dashboard's own reading of the shift settings: which shift is running now, or which starts
 * next. It agrees with the scheduler's windows exactly when some shift is enabled (or by accident).
 */
module CurrentShift {
  import opened Common
  import opened Calendar
  import opened Board
  import opened ShiftConfig

  function ShiftFor(c: MachineCalendar, k: ShiftKey): Shift {
    match k
    case Morning => c.morning
    case Afternoon => c.afternoon
    case Night => c.night
  }

  /** With nothing enabled the dashboard falls back to the morning shift. */
  function Effective(c: MachineCalendar): (r: MachineCalendar)
    ensures r.AnyEnabled()
    ensures c.AnyEnabled() ==> r == c
    ensures c.Valid() ==> r.Valid()
  {
    if c.AnyEnabled() then c else c.(morning := c.morning.(enabled := true))
  }

  /** The occurrence of a shift that could contain `now`. */
  function BuildWindow(s: Shift, now: int): Window {
    var base, m := Day(now) * MINUTES_PER_DAY, now % MINUTES_PER_DAY;
    var start, end := base + s.start, base + s.end;
    if s.start < s.end then
      if m < s.start then Window(start - MINUTES_PER_DAY, end - MINUTES_PER_DAY) else Window(start, end)
    else
      if m < s.end then Window(start - MINUTES_PER_DAY, end) else Window(start, end + MINUTES_PER_DAY)
  }

  lemma BuiltWindow(s: Shift, now: int) returns (day: int)
    requires s.Valid() && s.enabled
    ensures Day(now) - 1 <= day <= Day(now) && BuildWindow(s, now) == WindowOn(s, day)
    ensures BuildWindow(s, now).start <= now < BuildWindow(s, now).end <==> s.Covers(now % MINUTES_PER_DAY)
  {
    var m := now % MINUTES_PER_DAY;
    assert now == Day(now) * MINUTES_PER_DAY + m;
    day := if m < (if s.start < s.end then s.start else s.end) then Day(now) - 1 else Day(now);
  }

  /** The next start of a shift strictly after `now`, and its end. */
  function NextWindow(s: Shift, now: int): Window {
    var today := Day(now) * MINUTES_PER_DAY + s.start;
    WindowOn(s, if today <= now then Day(now) + 1 else Day(now))
  }

  /** No occurrence of the shift starts between `now` and its next start. */
  lemma NextWindowIsNext(s: Shift, now: int, day: int)
    requires s.Valid() && now < WindowOn(s, day).start
    ensures now < NextWindow(s, now).start <= WindowOn(s, day).start
  {
    assert now == Day(now) * MINUTES_PER_DAY + now % MINUTES_PER_DAY;
  }

  /** The calendar the dashboard works from: the given settings, normalised in three-shift mode. */
  function DashboardCalendar(raw: RawConfig): (c: MachineCalendar)
    ensures c.Valid()
  {
    NormalizedIsValid(raw, None, true, Some("3"));
    CalendarFrom(Normalized(raw, None, true, Some("3")))
  }

  /** The first shift of the day's list that is running at `now`. */
  method RunningShift(c: MachineCalendar, now: int) returns (r: Option<(ShiftKey, Window)>)
    requires c.Valid()
    ensures r.Some? <==> Works(c, now)
    ensures r.Some? ==> (ShiftFor(c, r.value.0).enabled && r.value.1.start <= now < r.value.1.end
      && IsWindow(c, now, r.value.1))
  {
    for i := 0 to 3
      invariant forall j :: 0 <= j < i ==> !ShiftFor(c, KEYS[j]).Covers(now % MINUTES_PER_DAY)
    {
      var s := ShiftFor(c, KEYS[i]);
      if s.enabled {
        ghost var day := BuiltWindow(s, now);
        var w := BuildWindow(s, now);
        if w.start <= now < w.end {
          assert OnDay(c, day, w);
          return Some((KEYS[i], w));
        }
      }
    }
    assert KEYS[0] == Morning && KEYS[1] == Afternoon && KEYS[2] == Night;
    r := None;
  }

  /** The shift that starts next. */
  method NextShift(c: MachineCalendar, now: int) returns (key: ShiftKey, w: Window)
    requires c.AnyEnabled()
    ensures ShiftFor(c, key).enabled && w == NextWindow(ShiftFor(c, key), now)
    ensures forall k: ShiftKey :: ShiftFor(c, k).enabled ==> w.start <= NextWindow(ShiftFor(c, k), now).start
  {
    var best: Option<(ShiftKey, Window)> := None;
    for i := 0 to 3
      invariant best.None? ==> forall j :: 0 <= j < i ==> !ShiftFor(c, KEYS[j]).enabled
      invariant best.Some? ==> (ShiftFor(c, best.value.0).enabled
        && best.value.1 == NextWindow(ShiftFor(c, best.value.0), now))
      invariant best.Some? ==> forall j :: 0 <= j < i && ShiftFor(c, KEYS[j]).enabled ==>
        best.value.1.start <= NextWindow(ShiftFor(c, KEYS[j]), now).start
    {
      var s := ShiftFor(c, KEYS[i]);
      if s.enabled {
        var candidate := NextWindow(s, now);
        if best.None? || candidate.start < best.value.1.start {
          best := Some((KEYS[i], candidate));
        }
      }
    }
    assert KEYS[0] == Morning && KEYS[1] == Afternoon && KEYS[2] == Night;
    key, w := best.value.0, best.value.1;
  }

  /** The running shift, or the next one to start. */
  method GetCurrentShiftWindow(raw: RawConfig, now: int) returns (key: ShiftKey, w: Window, active: bool)
    ensures var c := Effective(DashboardCalendar(raw));
      && ShiftFor(c, key).enabled
      && (active <==> Works(c, now))
      && (active ==> w.start <= now < w.end)
      && (!active ==> Aligned(c, now, w.start))
      && IsWindow(c, now, w)
  {
    var c := Effective(DashboardCalendar(raw));
    var running := RunningShift(c, now);
    if running.Some? {
      return running.value.0, running.value.1, true;
    }
    key, w := NextShift(c, now);
    active := false;
    NextStartIsAligned(c, now, key, w);
  }

  lemma NextStartIsAligned(c: MachineCalendar, now: int, key: ShiftKey, w: Window)
    requires c.Valid() && !Works(c, now)
    requires ShiftFor(c, key).enabled && w == NextWindow(ShiftFor(c, key), now)
    requires forall k: ShiftKey :: ShiftFor(c, k).enabled ==> w.start <= NextWindow(ShiftFor(c, k), now).start
    ensures Aligned(c, now, w.start) && IsWindow(c, now, w)
  {
    var s := ShiftFor(c, key);
    var day := if Day(now) * MINUTES_PER_DAY + s.start <= now then Day(now) + 1 else Day(now);
    assert OnDay(c, day, w);
    NextWindowIsNext(s, now, Day(now) + 1);
    WindowIsWorking(c, now, w, w.start);
    forall t | now <= t < w.start
      ensures !Works(c, t)
    {
      if Works(c, t) {
        var d, v := WorkingLiesOnDay(c, t);
        assert OnDay(c, d, v);
        var k := if c.morning.enabled && v == WindowOn(c.morning, d) then Morning
                 else if c.afternoon.enabled && v == WindowOn(c.afternoon, d) then Afternoon else Night;
        if v.start <= now {
          MinuteOfWindow(ShiftFor(c, k), d, now);
        } else {
          NextWindowIsNext(ShiftFor(c, k), now, d);
        }
        assert false;
      }
    }
  }

  /**
   * The dashboard is given the factory's normalised settings and normalises them again in three-shift
   * mode; it still reads the very calendar a machine on factory shifts is scheduled by.
   */
  lemma DashboardReadsTheSchedulersCalendar(m: MachineSettings, f: Option<FactorySettings>)
    requires ParseBool(m.useFactoryShifts, true)
    ensures ValidSettings(FactoryShifts(f)) && ValidSettings(MachineShifts(Some(m), f))
    ensures DashboardCalendar(StoredAgain(FactoryShifts(f))) == CalendarFrom(MachineShifts(Some(m), f))
  {
    MachineShiftsAreValid(Some(m), f);
    NormalizingTwice(FactoryShifts(f), None, true, Some("3"));
  }

  /**
   * The two calendars agree on every minute exactly when a shift is enabled or the fallback morning shift lasts all
   * day.
   */
  lemma CalendarsAgreeExactly(c: MachineCalendar)
    requires c.Valid()
    ensures (forall now :: Works(Effective(c), now) <==> Usable(c, now)) <==>
      (c.AnyEnabled() || c.morning.start == c.morning.end)
  {
    if !c.AnyEnabled() && c.morning.start != c.morning.end {
      var outside: int := c.morning.end;
      assert outside % MINUTES_PER_DAY == outside;
      assert !Works(Effective(c), outside) && Usable(c, outside);
    }
  }
}
