/** The scheduling side of the work-order table: rows in id order, a row's id being its index. */
module Board {
  import opened Common
  import opened Calendar
  import opened Clock

  datatype Row = Row(
    parent: Option<nat>,
    stage: Option<nat>,
    machine: Option<nat>,
    status: Status,
    start: Option<int>,
    end: Option<int>
  ) {
    /** Counts as a booking: dated, and neither canceled, completed nor archived. */
    predicate Booked() {
      start.Some? && end.Some? && status != Canceled && status != Completed && status != Archived
    }

    predicate Overlaps(s: int, e: int) {
      Booked() && start.value < e && s < end.value
    }
  }

  /** Row `i` is a booking of `machine`, not excluded, that the slot [s, e) runs into. */
  predicate Blocks(rows: seq<Row>, i: int, machine: Option<nat>, exclude: set<nat>, s: int, e: int)
    requires 0 <= i < |rows|
  {
    i !in exclude && rows[i].machine == machine && rows[i].Overlaps(s, e)
  }

  predicate Free(rows: seq<Row>, machine: Option<nat>, exclude: set<nat>, s: int, e: int) {
    forall i :: 0 <= i < |rows| ==> !Blocks(rows, i, machine, exclude, s, e)
  }

  const NO_SHIFTS := MachineCalendar(Shift(0, 0, false), Shift(0, 0, false), Shift(0, 0, false))

  type Calendars = m: map<nat, MachineCalendar> | forall k :: k in m ==> m[k].Valid() witness map[]

  function CalendarOf(calendars: Calendars, machine: Option<nat>): (c: MachineCalendar)
    ensures c.Valid()
  {
    if machine.Some? && machine.value in calendars then calendars[machine.value] else NO_SHIFTS
  }

  /**
   * [s, e) is what the planner wants: in shift, not before `after`, free, spending exactly the
   * duration, and no earlier start in shift would have been free.
   */
  ghost predicate EarliestSlot(c: MachineCalendar, rows: seq<Row>, machine: Option<nat>, exclude: set<nat>,
                               duration: int, after: int, s: int, e: int) {
    && after <= s && Usable(c, s) && e == EndOf(c, s, duration)
    && Free(rows, machine, exclude, s, e)
    && forall t :: after <= t < s && Usable(c, t) ==> !Free(rows, machine, exclude, t, EndOf(c, t, duration))
  }

  /** There is only one such slot, so it does not depend on the order in which bookings are examined. */
  lemma EarliestSlotIsUnique(c: MachineCalendar, rows: seq<Row>, machine: Option<nat>, exclude: set<nat>,
                             duration: int, after: int, s: int, e: int, s': int, e': int)
    requires EarliestSlot(c, rows, machine, exclude, duration, after, s, e)
    requires EarliestSlot(c, rows, machine, exclude, duration, after, s', e')
    ensures s == s' && e == e'
  {
    assert s < s' ==> !Free(rows, machine, exclude, s, EndOf(c, s, duration));
    assert s' < s ==> !Free(rows, machine, exclude, s', EndOf(c, s', duration));
  }

  // ---- the query ----

  predicate Held(rows: seq<Row>, i: int, machine: Option<nat>, exclude: set<nat>)
    requires 0 <= i < |rows|
  {
    i !in exclude && rows[i].machine == machine && rows[i].Booked()
  }

  function Interval(r: Row): Window
    requires r.Booked()
  {
    Window(r.start.value, r.end.value)
  }

  /** The dated active rows of the machine that end at or after `from`, as intervals, oldest start first. */
  function ExistingBookings(rows: seq<Row>, machine: Option<nat>, exclude: set<nat>, from: int): (bs: seq<Window>)
    ensures forall i :: (0 <= i < |rows| && Held(rows, i, machine, exclude) && from <= rows[i].end.value) ==>
      Interval(rows[i]) in bs
    ensures forall b :: b in bs ==>
      (exists i :: 0 <= i < |rows| && Held(rows, i, machine, exclude) && b == Interval(rows[i]))
  {
    if rows == [] then []
    else
      var n := |rows| - 1;
      var front := rows[..n];
      var bs := ExistingBookings(front, machine, exclude, from);
      assert forall i :: 0 <= i < n ==> rows[i] == front[i];
      var r := rows[n];
      if Held(rows, n, machine, exclude) && from <= r.end.value then
        SortByStart(bs + [Interval(r)])
      else bs
  }

  predicate Collides(b: Window, s: int, e: int) {
    b.start < e && s < b.end
  }

  /** How many bookings still end after `t`: what the search loop uses up. */
  ghost function EndingAfter(bs: seq<Window>, t: int): nat {
    if bs == [] then 0 else EndingAfter(bs[1..], t) + if t < bs[0].end then 1 else 0
  }

  lemma {:induction false} PassingABookingEnd(bs: seq<Window>, s: int, t: int)
    requires s <= t
    ensures EndingAfter(bs, t) <= EndingAfter(bs, s)
    ensures (exists b :: b in bs && s < b.end <= t) ==> EndingAfter(bs, t) < EndingAfter(bs, s)
  {
    if bs != [] {
      PassingABookingEnd(bs[1..], s, t);
      assert forall b :: b in bs ==> b == bs[0] || b in bs[1..];
    }
  }

  method FirstConflict(bs: seq<Window>, s: int, e: int) returns (conflict: Option<Window>)
    ensures conflict.None? ==> forall b :: b in bs ==> !Collides(b, s, e)
    ensures conflict.Some? ==> conflict.value in bs && Collides(conflict.value, s, e)
  {
    for i := 0 to |bs|
      invariant forall j :: 0 <= j < i ==> !Collides(bs[j], s, e)
    {
      if Collides(bs[i], s, e) {
        return Some(bs[i]);
      }
    }
    return None;
  }

  /** `r` is the first usable minute at or after `at`. */
  ghost predicate Aligned(c: MachineCalendar, at: int, r: int) {
    at <= r && Usable(c, r) && forall t :: at <= t < r ==> !Usable(c, t)
  }

  /** Move a time into working hours: the first usable minute at or after it. */
  method AlignToMachineWindow(c: MachineCalendar, at: int) returns (r: int)
    requires c.Valid()
    ensures Aligned(c, at, r)
  {
    var windows := MachineWindows(c, at);
    for i := 0 to |windows|
      invariant forall j :: 0 <= j < i ==> windows[j].end <= at
    {
      var w := windows[i];
      assert w in windows;
      if w.start <= at < w.end {
        WindowIsWorking(c, at, w, at);
        return at;
      }
      if at < w.start {
        AlignedStart(c, at, windows, i);
        return w.start;
      }
    }
    if c.AnyEnabled() {
      HorizonReached(c, at, windows, at);
      assert false;
    }
    return at;
  }

  lemma AlignedStart(c: MachineCalendar, at: int, ws: seq<Window>, i: nat)
    requires c.Valid() && i < |ws| && SortedByStart(ws) && at < ws[i].start
    requires forall w :: w in ws <==> IsWindow(c, at, w)
    requires forall j :: 0 <= j < i ==> ws[j].end <= at
    ensures Works(c, ws[i].start)
    ensures c.AnyEnabled()
    ensures forall t :: at <= t < ws[i].start ==> !Works(c, t)
  {
    assert ws[i] in ws;
    var day :| Day(at) - 1 <= day <= Day(at) + DAYS_AHEAD && OnDay(c, day, ws[i]);
    WindowIsWorking(c, at, ws[i], ws[i].start);
    assert forall w :: w in ws ==> w.end <= at || ws[i].start <= w.start;
    forall t | at <= t < ws[i].start
      ensures !Works(c, t)
    {
      if Works(c, t) {
        var w := WorkingIsListed(c, at, t);
        assert false;
      }
    }
  }

  /**
   * The finite-capacity search: start from the aligned time and jump past every conflicting booking.
   * Holds for every duration and every calendar, also an empty one.
   */
  method FindNextAvailableSlot(calendars: Calendars, rows: seq<Row>, machine: Option<nat>, duration: int,
                               after: int, exclude: set<nat>) returns (s: int, e: int)
    ensures EarliestSlot(CalendarOf(calendars, machine), rows, machine, exclude, duration, after, s, e)
  {
    var c := CalendarOf(calendars, machine);
    var potential := AlignToMachineWindow(c, after);
    var bookings := ExistingBookings(rows, machine, exclude, potential);
    ghost var first := potential;
    while true
      invariant first <= potential
      invariant forall t :: after <= t < first ==> !Usable(c, t)
      invariant forall t :: first <= t < potential && Usable(c, t) ==>
        exists b :: b in bookings && Collides(b, t, EndOf(c, t, duration))
      decreases EndingAfter(bookings, potential)
    {
      ghost var was := potential;
      potential := AlignToMachineWindow(c, potential);
      var end := MachineEndForDuration(c, potential, duration);
      var conflict := FirstConflict(bookings, potential, end);
      if conflict.None? {
        BookingsDecide(c, rows, machine, exclude, duration, first, potential, bookings);
        return potential, end;
      }
      var b := conflict.value;
      SkippedStartsCollide(c, potential, b, duration);
      PassingABookingEnd(bookings, was, b.end);
      potential := Max(b.end, potential);
    }
  }

  /** Everything between a conflicting start and the end of the booking it hits collides with that booking too. */
  lemma SkippedStartsCollide(c: MachineCalendar, s: int, b: Window, duration: int)
    requires Collides(b, s, EndOf(c, s, duration))
    ensures forall t :: s <= t < b.end ==> Collides(b, t, EndOf(c, t, duration))
  {
    forall t | s <= t < b.end
      ensures Collides(b, t, EndOf(c, t, duration))
    {
      EndIsMonotone(c, s, t, duration);
    }
  }

  /** The fetched bookings decide freedom for every start at or after the time they were fetched from. */
  lemma BookingsDecide(c: MachineCalendar, rows: seq<Row>, machine: Option<nat>, exclude: set<nat>, duration: int,
                       from: int, s: int, bs: seq<Window>)
    requires from <= s && bs == ExistingBookings(rows, machine, exclude, from)
    ensures forall t :: from <= t <= s ==>
      (Free(rows, machine, exclude, t, EndOf(c, t, duration)) <==>
       forall b :: b in bs ==> !Collides(b, t, EndOf(c, t, duration)))
  {
    forall t | from <= t <= s
      ensures Free(rows, machine, exclude, t, EndOf(c, t, duration)) <==>
              forall b :: b in bs ==> !Collides(b, t, EndOf(c, t, duration))
    {
      var e := EndOf(c, t, duration);
      if !Free(rows, machine, exclude, t, e) {
        var i :| 0 <= i < |rows| && Blocks(rows, i, machine, exclude, t, e);
        assert Held(rows, i, machine, exclude) && Collides(Interval(rows[i]), t, e);
      }
      if b :| b in bs && Collides(b, t, e) {
        var i :| 0 <= i < |rows| && Held(rows, i, machine, exclude) && b == Interval(rows[i]);
        assert Blocks(rows, i, machine, exclude, t, e);
      }
    }
  }

  /** The slot of candidate `m` is [s, e). */
  ghost predicate SlotOf(calendars: Calendars, rows: seq<Row>, m: nat, duration: int, after: int, exclude: set<nat>,
                         s: int, e: int) {
    EarliestSlot(CalendarOf(calendars, Some(m)), rows, Some(m), exclude, duration, after, s, e)
  }

  /** The first candidate machine whose slot starts earliest. */
  method PickBestMachineSlot(calendars: Calendars, rows: seq<Row>, candidates: seq<nat>, duration: int,
                             after: int, exclude: set<nat>)
      returns (best: Option<nat>, s: int, e: int, ghost at: nat)
    ensures best.None? <==> candidates == []
    ensures best.Some? ==> at < |candidates| && candidates[at] == best.value
    ensures best.Some? ==> SlotOf(calendars, rows, best.value, duration, after, exclude, s, e)
    ensures best.Some? ==> (forall i, s', e' ::
      (0 <= i < |candidates| && SlotOf(calendars, rows, candidates[i], duration, after, exclude, s', e')) ==>
      if i < at then s < s' else s <= s')
  {
    best, s, e, at := None, after, after, 0;
    for k := 0 to |candidates|
      invariant best.None? <==> k == 0
      invariant best.Some? ==> at < k && candidates[at] == best.value
      invariant best.Some? ==> SlotOf(calendars, rows, best.value, duration, after, exclude, s, e)
      invariant best.Some? ==> (forall i, s', e' ::
        (0 <= i < k && SlotOf(calendars, rows, candidates[i], duration, after, exclude, s', e')) ==>
        if i < at then s < s' else s <= s')
    {
      var m := candidates[k];
      var slotStart, slotEnd := FindNextAvailableSlot(calendars, rows, Some(m), duration, after, exclude);
      forall s', e' | SlotOf(calendars, rows, m, duration, after, exclude, s', e')
        ensures s' == slotStart
      {
        EarliestSlotIsUnique(CalendarOf(calendars, Some(m)), rows, Some(m), exclude, duration, after, slotStart,
                             slotEnd, s', e');
      }
      if best.None? || slotStart < s {
        best, s, e, at := Some(m), slotStart, slotEnd, k;
      }
    }
  }
}
