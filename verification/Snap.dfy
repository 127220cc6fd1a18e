/** Snapping the scheduled tasks of a board to a grid of minutes. */
module Snap {
  import opened Common
  import opened Clock
  import opened Board
  import opened RouteOrder
  import opened Route
  import opened Reschedule

  // ---- the grid ----

  predicate OnGrid(t: int, step: nat)
    requires step > 0
  {
    (t % 60) % step == 0
  }

  /** Round a time up by the minute field of its hour. */
  function CeilToSnap(t: int, step: nat): (r: int)
    requires step > 0
    ensures t <= r < t + step
    ensures OnGrid(t, step) ==> r == t
  {
    var remainder := (t % 60) % step;
    if remainder == 0 then t else t + (step - remainder) % step
  }

  /** Steps for which rounding always lands on the grid. */
  predicate GridStep(step: nat)
    requires step > 0
  {
    60 % step <= 1 || step % 60 == 0
  }

  /** Steps that divide the hour: rounding gives the next grid point. */
  predicate DividesHour(step: nat)
    requires step > 0
  {
    60 % step == 0
  }

  lemma MulMonotone(a: int, b: int, c: nat)
    requires a <= b
    ensures a * c <= b * c
  {
  }

  lemma DivModUnique(x: int, q: int, step: nat, a: int)
    requires step > 0 && x == q * step + a && 0 <= a < step
    ensures x / step == q && x % step == a
  {
    var p := x / step;
    assert x == p * step + x % step;
    assert (p + 1) * step == p * step + step && (q + 1) * step == q * step + step;
    if p < q {
      MulMonotone(p + 1, q, step);
    } else if q < p {
      MulMonotone(q + 1, p, step);
    }
  }

  /** A minute off the grid is rounded to the next multiple of the step, counted from the start of its hour. */
  lemma CeilOfMinute(t: int, step: nat, k: nat, a: nat)
    requires step > 0 && t % 60 == k * step + a && 0 < a < step
    ensures CeilToSnap(t, step) == t - t % 60 + (k + 1) * step
  {
    DivModUnique(t % 60, k, step, a);
    DivModUnique(step - a, 0, step, step - a);
    assert (k + 1) * step == k * step + step;
  }

  lemma Quotient(x: nat, step: nat) returns (k: nat, a: nat)
    requires step > 0
    ensures x == k * step + a && a < step && a == x % step
  {
    k, a := x / step, x % step;
  }

  /** Minute `top` of the hour of `t`, or the next hour. */
  lemma MinuteOfHour(t: int, top: nat)
    requires top <= 60
    ensures (t - t % 60 + top) % 60 == if top == 60 then 0 else top
  {
  }

  lemma MultipleIsOnGrid(t: int, step: nat, k: nat)
    requires step > 0 && k * step <= 60
    ensures OnGrid(t - t % 60 + k * step, step)
  {
    MinuteOfHour(t, k * step);
    DivModUnique(k * step, k, step, 0);
    DivModUnique(0, 0, step, 0);
  }

  /** The next multiple of the step is still within the hour. */
  lemma NextMultipleFits(k: nat, a: nat, q: nat, r: nat, step: nat)
    requires k * step + a < 60 == q * step + r && 0 < a && r <= 1
    ensures (k + 1) * step <= 60
  {
    if q <= k {
      MulMonotone(q, k, step);
    }
    MulMonotone(k + 1, q, step);
  }

  lemma OnGridStays(t: int, step: nat)
    requires step > 0 && t % 60 % step == 0
    ensures CeilToSnap(t, step) == t && OnGrid(t, step)
  {
  }

  lemma SmallStepLandsOnGrid(t: int, step: nat)
    requires 0 < step <= 60 && 60 % step <= 1
    ensures OnGrid(CeilToSnap(t, step), step)
  {
    var k, a := Quotient(t % 60, step);
    if a == 0 {
      OnGridStays(t, step);
    } else {
      var q, r := Quotient(60, step);
      NextMultipleFits(k, a, q, r, step);
      CeilOfMinute(t, step, k, a);
      MultipleIsOnGrid(t, step, k + 1);
    }
  }

  lemma LargeStepLandsOnGrid(t: int, step: nat)
    requires step > 60 && step % 60 == 0
    ensures OnGrid(CeilToSnap(t, step), step)
  {
    var m, k := t % 60, step / 60;
    DivModUnique(m, 0, step, m);
    if m > 0 {
      DivModUnique(step - m, 0, step, step - m);
      assert CeilToSnap(t, step) == 60 * (t / 60 + k);
    }
    DivModUnique(0, 0, step, 0);
  }

  lemma LargeStepMisses(step: nat)
    requires step > 60 && step % 60 != 0
    ensures !OnGrid(CeilToSnap(1, step), step)
  {
    CeilOfMinute(1, step, 0, 1);
    DivModUnique(step % 60, 0, step, step % 60);
  }

  /** The multiple of the step after the hour's last one is off the grid of the next hour. */
  lemma SmallStepMisses(step: nat, q: nat, r: nat)
    requires 0 < step <= 60 && 60 == q * step + r && 1 < r < step
    ensures !OnGrid(CeilToSnap(q * step + 1, step), step)
  {
    var t := q * step + 1;
    assert t % 60 == t;
    CeilOfMinute(t, step, q, 1);
    assert (q + 1) * step == q * step + step;
    var x := step - r;
    assert CeilToSnap(t, step) == 60 + x && 0 < x < 60;
    assert (60 + x) % 60 == x;
    DivModUnique(x, 0, step, x);
  }

  lemma OtherStepsMiss(step: nat) returns (t: int)
    requires step > 0 && !GridStep(step)
    ensures !OnGrid(CeilToSnap(t, step), step)
  {
    if step > 60 {
      t := 1;
      LargeStepMisses(step);
    } else {
      var q, r := Quotient(60, step);
      t := q * step + 1;
      SmallStepMisses(step, q, r);
    }
  }

  /** Rounding lands on the grid for every time exactly when the step is a grid step. */
  lemma CeilLandsOnGrid(step: nat)
    requires step > 0
    ensures (forall t :: OnGrid(CeilToSnap(t, step), step)) <==> GridStep(step)
  {
    if GridStep(step) {
      forall t | true
        ensures OnGrid(CeilToSnap(t, step), step)
      {
        if 60 % step <= 1 {
          SmallStepLandsOnGrid(t, step);
        } else {
          LargeStepLandsOnGrid(t, step);
        }
      }
    } else {
      var t := OtherStepsMiss(step);
    }
  }

  /** With a step dividing the hour, rounding skips no grid point. */
  lemma CeilIsNextGridPoint(t: int, step: nat, u: int)
    requires step > 0 && DividesHour(step) && t <= u < CeilToSnap(t, step)
    ensures !OnGrid(u, step)
  {
    var k, a := Quotient(t % 60, step);
    if a == 0 {
      OnGridStays(t, step);
    } else {
      var q, r := Quotient(60, step);
      NextMultipleFits(k, a, q, r, step);
      CeilOfMinute(t, step, k, a);
      BetweenMultiples(t, step, k, u);
    }
  }

  lemma BetweenMultiples(t: int, step: nat, k: nat, u: int)
    requires step > 0 && k * step < t % 60 && (k + 1) * step <= 60 && t <= u < t - t % 60 + (k + 1) * step
    ensures !OnGrid(u, step)
  {
    assert (k + 1) * step == k * step + step;
    MinuteOfHour(t, t % 60 + (u - t));
    DivModUnique(u % 60, k, step, u % 60 - k * step);
  }

  // ---- past the bookings that may not move ----

  /** An in-progress booking of `machine` that the interval [s, e) runs into. */
  predicate BlocksFixed(rows: seq<Row>, i: int, machine: Option<nat>, exclude: set<nat>, s: int, e: int)
    requires 0 <= i < |rows|
  {
    && i !in exclude && rows[i].machine == machine && rows[i].status == InProgress
    && rows[i].start.Some? && rows[i].end.Some? && rows[i].start.value < e && s < rows[i].end.value
  }

  ghost predicate FixedFree(rows: seq<Row>, machine: Option<nat>, exclude: set<nat>, s: int, e: int) {
    forall i :: 0 <= i < |rows| ==> !BlocksFixed(rows, i, machine, exclude, s, e)
  }

  /** The blocking in-progress booking that starts first. */
  function FirstFixedConflict(rows: seq<Row>, machine: Option<nat>, exclude: set<nat>, s: int, e: int,
                              n: nat): (r: Option<nat>)
    requires n <= |rows|
    ensures r.Some? ==> r.value < n && BlocksFixed(rows, r.value, machine, exclude, s, e)
    ensures r.None? ==> forall i :: 0 <= i < n ==> !BlocksFixed(rows, i, machine, exclude, s, e)
  {
    if n == 0 then None
    else
      var r := FirstFixedConflict(rows, machine, exclude, s, e, n - 1);
      if BlocksFixed(rows, n - 1, machine, exclude, s, e)
        && (r.None? || rows[n - 1].start.value < rows[r.value].start.value)
      then Some(n - 1) else r
  }

  /** Rows still ending after `t`: what the jump loop uses up. */
  ghost function RowsEndingAfter(rows: seq<Row>, t: int): nat {
    if rows == [] then 0
    else
      var last := rows[|rows| - 1];
      RowsEndingAfter(rows[..|rows| - 1], t) + if last.end.Some? && t < last.end.value then 1 else 0
  }

  lemma {:induction false} PassingARowEnd(rows: seq<Row>, s: int, t: int, i: nat)
    requires s <= t
    ensures RowsEndingAfter(rows, t) <= RowsEndingAfter(rows, s)
    ensures i < |rows| && rows[i].end.Some? && s < rows[i].end.value <= t ==>
      RowsEndingAfter(rows, t) < RowsEndingAfter(rows, s)
  {
    if rows != [] {
      PassingARowEnd(rows[..|rows| - 1], s, t, i);
    }
  }

  method ShiftStartPastFixedBookings(rows: seq<Row>, machine: Option<nat>, requested: int, duration: int,
                                     exclude: set<nat>, step: nat)
      returns (start: int)
    requires step > 0
    ensures requested <= start && FixedFree(rows, machine, exclude, start, start + AtLeastOne(duration))
    ensures OnGrid(requested, step) && GridStep(step) ==> OnGrid(start, step)
    ensures DividesHour(step) ==> forall t :: requested <= t < start && OnGrid(t, step) ==>
      !FixedFree(rows, machine, exclude, t, t + AtLeastOne(duration))
  {
    start := requested;
    while true
      invariant requested <= start
      invariant OnGrid(requested, step) && GridStep(step) ==> OnGrid(start, step)
      invariant DividesHour(step) ==> forall t :: requested <= t < start && OnGrid(t, step) ==>
        !FixedFree(rows, machine, exclude, t, t + AtLeastOne(duration))
      decreases RowsEndingAfter(rows, start)
    {
      var conflict := FirstFixedConflict(rows, machine, exclude, start, start + AtLeastOne(duration), |rows|);
      if conflict.None? {
        return;
      }
      var i, was := conflict.value, start;
      start := CeilToSnap(rows[i].end.value, step);
      PassingARowEnd(rows, was, start, i);
      CeilLandsOnGrid(step);
      forall t | was <= t < start && OnGrid(t, step) && DividesHour(step)
        ensures !FixedFree(rows, machine, exclude, t, t + AtLeastOne(duration))
      {
        if rows[i].end.value <= t {
          CeilIsNextGridPoint(rows[i].end.value, step, t);
        }
        assert BlocksFixed(rows, i, machine, exclude, t, t + AtLeastOne(duration));
      }
    }
  }
}
