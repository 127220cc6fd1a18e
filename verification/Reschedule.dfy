/** Re-timing the stages of a series route after one of them was moved. */
module Reschedule {
  import opened Common
  import opened Calendar
  import opened Clock
  import opened Board
  import opened RouteOrder
  import opened Route

  /** The moved task as the caller holds it: its dates may differ from the stored row. */
  datatype Anchor = Anchor(id: nat, start: Option<int>, end: Option<int>)

  function EndOrStart(r: Row): Option<int> {
    if r.end.Some? then r.end else r.start
  }

  function OrElse(a: Option<int>, b: int): int {
    if a.Some? then a.value else b
  }

  function AnchorIndex(subtasks: seq<nat>, anchor: Option<Anchor>): (r: nat)
    requires subtasks != []
    ensures r < |subtasks|
    ensures anchor.Some? && anchor.value.id in subtasks ==> subtasks[r] == anchor.value.id
  {
    if anchor.None? then 0
    else
      var i := IndexOf(subtasks, anchor.value.id);
      if i.Some? then i.value else 0
  }

  /** Where the first re-timed stage may start: after its predecessor, or from the parent's own start. */
  function InitialEnd(rows: seq<Row>, parent: nat, subtasks: seq<nat>, from: nat, now: int): int
    requires parent < |rows| && from < |subtasks| && forall i :: 0 <= i < |subtasks| ==> subtasks[i] < |rows|
  {
    if from > 0 then OrElse(EndOrStart(rows[subtasks[from - 1]]), now)
    else if rows[parent].start.Some? then rows[parent].start.value
    else OrElse(rows[subtasks[0]].start, now)
  }

  /** Minutes to plan for a task: those it already spans unless they are to be recomputed from the routing. */
  function PlannedDuration(r: Row, durations: map<nat, nat>, recalculate: bool): (d: nat)
    ensures d >= 1
  {
    if !recalculate && r.start.Some? && r.end.Some? then AtLeastOne(r.end.value - r.start.value)
    else if r.stage.Some? && r.stage.value in durations then AtLeastOne(durations[r.stage.value])
    else 60
  }

  /** What re-timing promises for the task at position `k`: `previous` is the end of the one before it. */
  ghost predicate Retimed(calendars: Calendars, outside: seq<Row>, exclude: set<nat>, r: Row, duration: nat,
                          previous: int, moved: bool) {
    && r.start.Some? && r.end.Some? && previous <= r.start.value <= r.end.value
    && (!moved && r.machine.None? ==> r.start.value == previous && r.end.value == previous + duration)
    && (!moved && r.machine.Some? ==>
          EarliestSlot(CalendarOf(calendars, r.machine), outside, r.machine, exclude, duration, previous,
                       r.start.value, r.end.value))
  }

  /** The end of the task before position `j`, `initial` being the one before the first re-timed task. */
  function PreviousEnd(rows: seq<Row>, subtasks: seq<nat>, from: nat, j: nat, initial: int): int
    requires j <= |subtasks| && forall i :: 0 <= i < |subtasks| ==> subtasks[i] < |rows|
  {
    if j <= from then initial else OrElse(rows[subtasks[j - 1]].end, initial)
  }

  /** `id` is one of the tasks at positions [from, k). */
  ghost predicate Among(subtasks: seq<nat>, from: nat, k: nat, id: int) {
    exists j :: from <= j < k && j < |subtasks| && subtasks[j] == id
  }

  /** Nothing but the dates of the tasks at positions [from, k) differs from `outside`. */
  ghost predicate OnlyDatesOf(outside: seq<Row>, rows: seq<Row>, subtasks: seq<nat>, from: nat, k: nat) {
    && |rows| == |outside|
    && (forall i :: 0 <= i < |rows| ==> rows[i] == outside[i].(start := rows[i].start, end := rows[i].end))
    && forall i :: 0 <= i < |rows| && !Among(subtasks, from, k, i) ==> rows[i] == outside[i]
  }

  /**
   * What one re-timing fixes for all its tasks: `outside` is the board it starts from, `initial` the end before the
   * first task.
   */
  datatype Retiming = Retiming(calendars: Calendars, outside: seq<Row>, exclude: set<nat>, subtasks: seq<nat>,
                               from: nat,
                               durations: map<nat, nat>, recalculate: bool, initial: int, anchor: Option<Anchor>,
                                 requested: Option<int>)

  /**
   * The dates of a moved task: not before the one before it ends, and as long as the caller said unless that is to be
   * recomputed.
   */
  predicate PlacedByHand(r: Row, duration: nat, previous: int, anchor: Anchor, requested: Option<int>,
                         recalculate: bool) {
    && r.start == Some(Max(previous, OrElse(requested, previous)))
    && r.end == Some(if !recalculate && anchor.end.Some? && r.start.value <= anchor.end.value then anchor.end.value
                     else r.start.value + duration)
  }

  /** The promise for the task at position `k`; only the moved one, at the first position, is placed by hand. */
  ghost predicate RetimedTask(t: Retiming, rows: seq<Row>, k: nat)
    requires k < |t.subtasks| && |rows| == |t.outside| && forall i :: 0 <= i < |t.subtasks| ==> t.subtasks[i] < |rows|
  {
    var task := t.subtasks[k];
    var duration := PlannedDuration(t.outside[task], t.durations, t.recalculate);
    var previous := PreviousEnd(rows, t.subtasks, t.from, k, t.initial);
    var moved := t.anchor.Some? && k == t.from;
    && Retimed(t.calendars, t.outside, t.exclude, rows[task], duration, previous, moved)
    && (moved ==> PlacedByHand(rows[task], duration, previous, t.anchor.value, t.requested, t.recalculate))
  }

  /** The tasks at positions [from, k) are re-timed one after the other. */
  ghost predicate RetimedRoute(t: Retiming, rows: seq<Row>, k: nat)
    requires k <= |t.subtasks| && |rows| == |t.outside| && forall i :: 0 <= i < |t.subtasks| ==> t.subtasks[i] < |rows|
  {
    k <= t.from || (RetimedRoute(t, rows, k - 1) && RetimedTask(t, rows, k - 1))
  }

  lemma {:induction false} LaterTasksDoNotMatter(t: Retiming, before: seq<Row>, rows: seq<Row>, k: nat)
    requires k <= |t.subtasks| && |rows| == |before| == |t.outside|
    requires forall i :: 0 <= i < |t.subtasks| ==> t.subtasks[i] < |rows|
    requires forall j :: 0 <= j < k ==> rows[t.subtasks[j]] == before[t.subtasks[j]]
    requires RetimedRoute(t, before, k)
    ensures RetimedRoute(t, rows, k)
    decreases k
  {
    if k > t.from {
      LaterTasksDoNotMatter(t, before, rows, k - 1);
    }
  }

  /** The promise for one position, read off the whole route. */
  lemma {:induction false} RetimedAt(t: Retiming, rows: seq<Row>, k: nat, j: nat)
    requires k <= |t.subtasks| && |rows| == |t.outside| && forall i :: 0 <= i < |t.subtasks| ==> t.subtasks[i] < |rows|
    requires RetimedRoute(t, rows, k) && t.from <= j < k
    ensures RetimedTask(t, rows, j)
    decreases k
  {
    if j < k - 1 {
      RetimedAt(t, rows, k - 1, j);
    }
  }

  lemma DatesOfOneMore(outside: seq<Row>, before: seq<Row>, rows: seq<Row>, subtasks: seq<nat>, from: nat, k: nat)
    requires OnlyDatesOf(outside, before, subtasks, from, k) && from <= k < |subtasks| && |rows| == |before|
    requires forall i :: 0 <= i < |rows| && i != subtasks[k] ==> rows[i] == before[i]
    requires subtasks[k] < |rows|
    requires var r := rows[subtasks[k]]; r == before[subtasks[k]].(start := r.start, end := r.end)
    ensures OnlyDatesOf(outside, rows, subtasks, from, k + 1)
  {
    forall i | 0 <= i < |rows| && !Among(subtasks, from, k + 1, i)
      ensures rows[i] == outside[i]
    {
      assert i != subtasks[k];
      assert !Among(subtasks, from, k, i);
    }
  }

  class StageTimeline {
    const calendars: Calendars
    var rows: seq<Row>

    constructor (calendars: Calendars, rows: seq<Row>)
      ensures this.calendars == calendars && this.rows == rows
    {
      this.calendars, this.rows := calendars, rows;
    }

    /** The new dates of one task: by hand for the moved task, in sequence without a machine, searched otherwise. */
    method RetimeTask(task: Row, duration: nat, previous: int, anchor: Option<Anchor>, requested: Option<int>,
                      recalculate: bool, exclude: set<nat>, ghost outside: seq<Row>) returns (r: Row)
      requires duration >= 1 && |rows| == |outside|
      requires forall i :: 0 <= i < |rows| && i !in exclude ==> rows[i] == outside[i]
      ensures r == task.(start := r.start, end := r.end)
      ensures Retimed(calendars, outside, exclude, r, duration, previous, anchor.Some?)
      ensures anchor.Some? ==> PlacedByHand(r, duration, previous, anchor.value, requested, recalculate)
    {
      var start, end;
      if anchor.Some? {
        start := Max(previous, OrElse(requested, previous));
        end := if !recalculate && anchor.value.end.Some? && start <= anchor.value.end.value then anchor.value.end.value
               else start + duration;
      } else if task.machine.None? {
        start, end := previous, previous + duration;
      } else {
        start, end := FindNextAvailableSlot(calendars, rows, task.machine, duration, previous, exclude);
        SlotIgnoresExcluded(CalendarOf(calendars, task.machine), outside, rows, task.machine, exclude, duration,
                            previous, start, end);
        EndIsAfterStart(CalendarOf(calendars, task.machine), start, duration);
      }
      return task.(start := Some(start), end := Some(end));
    }

    /** Re-time the tasks at positions `from` and after, in order. */
    method RetimeFrom(subtasks: seq<nat>, from: nat, durations: map<nat, nat>, anchor: Option<Anchor>,
                      requested: Option<int>, recalculate: bool, initial: int, exclude: set<nat>)
      requires from < |subtasks| && forall i :: 0 <= i < |subtasks| ==> subtasks[i] < |rows| && subtasks[i] in exclude
      requires forall i, j :: 0 <= i < j < |subtasks| ==> subtasks[i] != subtasks[j]
      modifies this
      ensures OnlyDatesOf(old(rows), rows, subtasks, from, |subtasks|)
      ensures var t := Retiming(calendars, old(rows), exclude, subtasks, from, durations, recalculate, initial, anchor,
                                requested);
        RetimedRoute(t, rows, |subtasks|)
    {
      var previous := initial;
      ghost var t := Retiming(calendars, rows, exclude, subtasks, from, durations, recalculate, initial, anchor,
                              requested);
      for k := from to |subtasks|
        invariant OnlyDatesOf(old(rows), rows, subtasks, from, k)
        invariant previous == PreviousEnd(rows, subtasks, from, k, initial)
        invariant RetimedRoute(t, rows, k)
      {
        var id := subtasks[k];
        ghost var before := rows;
        var task := RetimeTask(rows[id], PlannedDuration(rows[id], durations, recalculate), previous,
                               if k == from then anchor else None, requested, recalculate, exclude, old(rows));
        rows := rows[id := task];
        DatesOfOneMore(old(rows), before, rows, subtasks, from, k);
        LaterTasksDoNotMatter(t, before, rows, k);
        previous := task.end.value;
        assert rows[subtasks[k]] == task;
      }
    }

    /** Earlier stages stay fixed, later ones follow the moved stage one after the other. */
    method RescheduleFromAnchor(parent: nat, mode: FlowMode, stageOrder: map<nat, nat>, durations: map<nat, nat>,
                                anchor: Option<Anchor>, recalculate: bool, now: int)
      requires parent < |rows| && rows[parent].parent.None?
      modifies this
      ensures |rows| == |old(rows)|
      ensures mode == Parallel ==> rows == old(rows)
      ensures var subtasks := OrderedSubtasks(old(rows), parent, stageOrder);
        mode == Series && subtasks != [] ==>
          var from := AnchorIndex(subtasks, anchor);
          var initial := InitialEnd(old(rows), parent, subtasks, from, now);
          var exclude := {parent} + set i | i in subtasks;
          var requested := if anchor.Some? && anchor.value.id in subtasks then anchor.value.start else None;
          var t := Retiming(calendars, old(rows), exclude, subtasks, from, durations, recalculate, initial, anchor,
                            requested);
          OnlyDatesOf(old(rows), rows, subtasks, from, |subtasks|) && RetimedRoute(t, rows, |subtasks|)
    {
      var subtasks := OrderedSubtasks(rows, parent, stageOrder);
      if mode == Parallel || subtasks == [] {
        return;
      }
      assert forall i :: 0 <= i < |subtasks| ==> subtasks[i] in subtasks;
      var from := AnchorIndex(subtasks, anchor);
      var requested := if anchor.Some? && IndexOf(subtasks, anchor.value.id).Some? then anchor.value.start else None;
      RetimeFrom(subtasks, from, durations, anchor, requested, recalculate,
                 InitialEnd(rows, parent, subtasks, from, now),
                 {parent} + set i | i in subtasks);
    }
  }

  /** The route's own rows are excluded from the search, so re-timing them does not change what is free. */
  lemma SlotIgnoresExcluded(c: MachineCalendar, rows: seq<Row>, next: seq<Row>, machine: Option<nat>, exclude: set<nat>,
                            duration: int, after: int, s: int, e: int)
    requires |rows| == |next| && forall i :: 0 <= i < |rows| && i !in exclude ==> next[i] == rows[i]
    requires EarliestSlot(c, next, machine, exclude, duration, after, s, e)
    ensures EarliestSlot(c, rows, machine, exclude, duration, after, s, e)
  {
    assert forall i, x, y :: 0 <= i < |rows| ==>
      (Blocks(rows, i, machine, exclude, x, y) <==> Blocks(next, i, machine, exclude, x, y));
    assert forall x, y :: Free(rows, machine, exclude, x, y) <==> Free(next, machine, exclude, x, y);
  }

  lemma EndIsAfterStart(c: MachineCalendar, s: int, n: int)
    ensures s < EndOf(c, s, n)
  {
    WalkGrowsWithWork(c, s, AtLeastOne(n), AtLeastOne(n), Horizon(c, s));
  }
}
