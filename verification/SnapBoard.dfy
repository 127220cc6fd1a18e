/** The snapping pass over a whole board. */
module SnapBoard {
  import opened Common
  import opened Clock
  import opened Board
  import opened RouteOrder
  import opened Route
  import opened Reschedule
  import opened Snap

  /** Per parent: how its stages run and where each stage stands in the routing. */
  datatype Routing = Routing(mode: FlowMode, stageOrder: map<nat, nat>)

  predicate HasChildren(rows: seq<Row>, id: nat) {
    exists i :: 0 <= i < |rows| && rows[i].parent == Some(id)
  }

  /** A dated leaf task on a machine that has not started and is not finished. */
  predicate Movable(rows: seq<Row>, id: nat)
    requires id < |rows|
  {
    var r := rows[id];
    && r.machine.Some? && r.start.Some? && r.end.Some? && !HasChildren(rows, id)
    && r.status != InProgress && r.status != Completed && r.status != Canceled && r.status != Archived
  }

  function StartKey(r: Row): int {
    if r.start.Some? then r.start.value else 0
  }

  /** The tasks to process: oldest start first, then by id. */
  function ScheduledTasks(rows: seq<Row>): (ids: seq<nat>)
    ensures forall i: nat :: i in ids <==> (i < |rows| && Movable(rows, i))
    ensures forall i :: 0 <= i < |ids| ==> ids[i] < |rows| && Movable(rows, ids[i])
    ensures forall i, j :: 0 <= i < j < |ids| ==>
      StartKey(rows[ids[i]]) < StartKey(rows[ids[j]])
        || (StartKey(rows[ids[i]]) == StartKey(rows[ids[j]]) && ids[i] < ids[j])
  {
    var keys := seq(|rows|, i requires 0 <= i < |rows| => StartKey(rows[i]));
    var keep := seq(|rows|, i requires 0 <= i < |rows| => Movable(rows, i));
    var ids := Ordered(keys, keep, |rows|);
    OrderedIsRight(keys, keep);
    assert forall i :: 0 <= i < |ids| ==> ids[i] in ids;
    assert forall i, j :: 0 <= i < j < |ids| ==> Precedes(keys, ids[i], ids[j]);
    ids
  }

  lemma TasksAreDistinct(rows: seq<Row>)
    ensures forall i, j :: 0 <= i < j < |ScheduledTasks(rows)| ==> ScheduledTasks(rows)[i] != ScheduledTasks(rows)[j]
  {
  }

  /** The task before `id` on its parent's series route, if any. */
  function Predecessor(rows: seq<Row>, routings: map<nat, Routing>, id: nat): (r: Option<nat>)
    requires id < |rows|
    ensures r.Some? ==> r.value < |rows| && r.value != id
  {
    var parent := rows[id].parent;
    if parent.None? || parent.value !in routings || routings[parent.value].mode == Parallel then None
    else
      var ordered := OrderedSubtasks(rows, parent.value, routings[parent.value].stageOrder);
      var at := IndexOf(ordered, id);
      if at.None? || at.value == 0 then None else Some(ordered[at.value - 1])
  }

  function ExcludedFor(r: Row, id: nat): set<nat> {
    {id} + if r.parent.Some? then {r.parent.value} else {}
  }

  /** Only the dates of the tasks at positions [0, k) changed, and each keeps the length it had. */
  ghost predicate OnlyMoved(was: seq<Row>, rows: seq<Row>, tasks: seq<nat>, k: nat) {
    && |rows| == |was|
    && (forall i :: 0 <= i < |rows| && !Among(tasks, 0, k, i) ==> rows[i] == was[i])
    && forall i :: 0 <= i < |rows| ==> rows[i] == Moved(was[i], rows[i].start)
  }

  /** The row with a new start and its length kept. */
  function Moved(r: Row, start: Option<int>): Row {
    if start.Some? && r.start.Some? && r.end.Some?
    then r.(start := start, end := Some(start.value + r.end.value - r.start.value))
    else r
  }

  /**
   * The task at position `j` after snapping: on the grid, clear of fixed and of earlier work, behind its predecessor.
   */
  ghost predicate TaskSnapped(rows: seq<Row>, routings: map<nat, Routing>, tasks: seq<nat>, j: nat, step: nat)
    requires j < |tasks| && step > 0 && forall i :: 0 <= i < |tasks| ==> tasks[i] < |rows|
  {
    var r := rows[tasks[j]];
    && r.start.Some? && r.end.Some?
    && (GridStep(step) ==> OnGrid(r.start.value, step))
    && FixedFree(rows, r.machine, ExcludedFor(r, tasks[j]), r.start.value,
                 r.start.value + AtLeastOne(r.end.value - r.start.value))
    && (forall i :: 0 <= i < j && rows[tasks[i]].machine == r.machine ==>
          rows[tasks[i]].end.Some? && rows[tasks[i]].end.value <= r.start.value)
    && (var p := Predecessor(rows, routings, tasks[j]);
        p.Some? && !Among(tasks, j, |tasks|, p.value) && EndOrStart(rows[p.value]).Some? ==>
          EndOrStart(rows[p.value]).value <= r.start.value)
  }

  ghost predicate AllSnapped(rows: seq<Row>, routings: map<nat, Routing>, tasks: seq<nat>, k: nat, step: nat)
    requires k <= |tasks| && step > 0 && forall i :: 0 <= i < |tasks| ==> tasks[i] < |rows|
  {
    k == 0 || (AllSnapped(rows, routings, tasks, k - 1, step) && TaskSnapped(rows, routings, tasks, k - 1, step))
  }

  /** Only in-progress rows are fixed, so changing another row's dates frees and blocks nothing. */
  lemma UnstartedRowsBlockNothing(before: seq<Row>, rows: seq<Row>, id: nat, machine: Option<nat>, exclude: set<nat>,
                                  s: int, e: int)
    requires |rows| == |before| && id < |rows| && before[id].status != InProgress && rows[id].status != InProgress
    requires forall i :: 0 <= i < |rows| && i != id ==> rows[i] == before[i]
    ensures FixedFree(before, machine, exclude, s, e) <==> FixedFree(rows, machine, exclude, s, e)
  {
    assert forall i :: 0 <= i < |rows| ==>
      (BlocksFixed(rows, i, machine, exclude, s, e) <==> BlocksFixed(before, i, machine, exclude, s, e));
  }

  /** Moving a later task disturbs no task already snapped. */
  lemma LaterMoveKeepsSnapped(before: seq<Row>, rows: seq<Row>, routings: map<nat, Routing>, tasks: seq<nat>, k: nat,
                              j: nat, step: nat)
    requires step > 0 && j < k < |tasks| && |rows| == |before| && forall i :: 0 <= i < |tasks| ==> tasks[i] < |rows|
    requires forall i :: 0 <= i < k ==> tasks[i] != tasks[k]
    requires forall i :: 0 <= i < |rows| && i != tasks[k] ==> rows[i] == before[i]
    requires rows[tasks[k]] == Moved(before[tasks[k]], rows[tasks[k]].start) && before[tasks[k]].status != InProgress
    requires TaskSnapped(before, routings, tasks, j, step)
    ensures TaskSnapped(rows, routings, tasks, j, step)
  {
    var r := rows[tasks[j]];
    assert r == before[tasks[j]];
    UnstartedRowsBlockNothing(before, rows, tasks[k], r.machine, ExcludedFor(r, tasks[j]), r.start.value,
                              r.start.value + AtLeastOne(r.end.value - r.start.value));
    assert forall i :: 0 <= i < j ==> rows[tasks[i]] == before[tasks[i]];
    MovesKeepPredecessor(before, rows, routings, tasks[j]);
    var p := Predecessor(rows, routings, tasks[j]);
    if p.Some? && p.value == tasks[k] {
      assert Among(tasks, j, |tasks|, p.value);
    }
  }

  lemma MovesKeepPredecessor(before: seq<Row>, rows: seq<Row>, routings: map<nat, Routing>, id: nat)
    requires |rows| == |before| && id < |rows|
    requires forall i :: 0 <= i < |rows| ==> rows[i] == before[i].(start := rows[i].start, end := rows[i].end)
    ensures Predecessor(rows, routings, id) == Predecessor(before, routings, id)
  {
    var parent := rows[id].parent;
    if parent.Some? && parent.value in routings {
      DatesDoNotChangeOrder(before, rows, parent.value, routings[parent.value].stageOrder);
    }
  }

  lemma {:induction false} LaterMoveKeepsAllSnapped(before: seq<Row>, rows: seq<Row>, routings: map<nat, Routing>,
                                                    tasks: seq<nat>, k: nat, j: nat, step: nat)
    requires step > 0 && j <= k < |tasks| && |rows| == |before| && forall i :: 0 <= i < |tasks| ==> tasks[i] < |rows|
    requires forall i :: 0 <= i < k ==> tasks[i] != tasks[k]
    requires forall i :: 0 <= i < |rows| && i != tasks[k] ==> rows[i] == before[i]
    requires rows[tasks[k]] == Moved(before[tasks[k]], rows[tasks[k]].start) && before[tasks[k]].status != InProgress
    requires AllSnapped(before, routings, tasks, j, step)
    ensures AllSnapped(rows, routings, tasks, j, step)
    decreases j
  {
    if j > 0 {
      LaterMoveKeepsAllSnapped(before, rows, routings, tasks, k, j - 1, step);
      LaterMoveKeepsSnapped(before, rows, routings, tasks, k, j - 1, step);
    }
  }

  /** The per-machine high-water mark covers the end of every task snapped so far. */
  ghost predicate BusyCovers(rows: seq<Row>, tasks: seq<nat>, k: nat, busy: map<nat, int>)
    requires k <= |tasks| && forall i :: 0 <= i < |tasks| ==> tasks[i] < |rows|
  {
    forall i :: 0 <= i < k ==>
      var r := rows[tasks[i]];
      r.machine.Some? && r.end.Some? && r.machine.value in busy && r.end.value <= busy[r.machine.value]
  }

  /** Where a start must lie for the task at position `k` to count as snapped. */
  ghost predicate GoodStart(rows: seq<Row>, routings: map<nat, Routing>, tasks: seq<nat>, k: nat, step: nat,
                            busy: map<nat, int>, start: int)
    requires step > 0 && k < |tasks| && forall i :: 0 <= i < |tasks| ==> tasks[i] < |rows|
    requires var r := rows[tasks[k]]; r.machine.Some? && r.start.Some? && r.end.Some?
  {
    var r := rows[tasks[k]];
    && (GridStep(step) ==> OnGrid(start, step))
    && FixedFree(rows, r.machine, ExcludedFor(r, tasks[k]), start, start + AtLeastOne(r.end.value - r.start.value))
    && (if r.machine.value in busy then busy[r.machine.value] else r.start.value) <= start
    && (var p := Predecessor(rows, routings, tasks[k]);
        p.Some? && EndOrStart(rows[p.value]).Some? ==> EndOrStart(rows[p.value]).value <= start)
  }

  lemma MovedTaskIsSnapped(before: seq<Row>, rows: seq<Row>, routings: map<nat, Routing>, tasks: seq<nat>, k: nat,
                           step: nat, busy: map<nat, int>, start: int)
    requires step > 0 && k < |tasks| && |rows| == |before| && forall i :: 0 <= i < |tasks| ==> tasks[i] < |rows|
    requires forall i :: 0 <= i < k ==> tasks[i] != tasks[k]
    requires var r := before[tasks[k]]; r.machine.Some? && r.start.Some? && r.end.Some? && r.status != InProgress
    requires rows == before[tasks[k] := Moved(before[tasks[k]], Some(start))]
    requires BusyCovers(before, tasks, k, busy) && GoodStart(before, routings, tasks, k, step, busy, start)
    ensures TaskSnapped(rows, routings, tasks, k, step)
  {
    var id := tasks[k];
    var r := rows[id];
    UnstartedRowsBlockNothing(before, rows, id, r.machine, ExcludedFor(r, id), start,
                              start + AtLeastOne(r.end.value - r.start.value));
    MovesKeepPredecessor(before, rows, routings, id);
    assert forall i :: 0 <= i < k ==> rows[tasks[i]] == before[tasks[i]];
  }

  lemma SnappedOneMore(was: seq<Row>, before: seq<Row>, rows: seq<Row>, routings: map<nat, Routing>, tasks: seq<nat>,
                       k: nat, step: nat, busy: map<nat, int>, start: int)
    requires step > 0 && k < |tasks| && |rows| == |before| && forall i :: 0 <= i < |tasks| ==> tasks[i] < |rows|
    requires forall i :: 0 <= i < k ==> tasks[i] != tasks[k]
    requires var r := before[tasks[k]]; r.machine.Some? && r.start.Some? && r.end.Some? && r.status != InProgress
    requires rows == before[tasks[k] := Moved(before[tasks[k]], Some(start))]
    requires OnlyMoved(was, before, tasks, k) && before[tasks[k]] == was[tasks[k]]
    requires BusyCovers(before, tasks, k, busy) && GoodStart(before, routings, tasks, k, step, busy, start)
    requires AllSnapped(before, routings, tasks, k, step)
    ensures OnlyMoved(was, rows, tasks, k + 1) && AllSnapped(rows, routings, tasks, k + 1, step)
    ensures BusyCovers(rows, tasks, k, busy)
  {
    forall i | 0 <= i < |rows| && !Among(tasks, 0, k + 1, i)
      ensures rows[i] == was[i]
    {
      assert i != tasks[k];
      assert !Among(tasks, 0, k, i);
    }
    LaterMoveKeepsAllSnapped(before, rows, routings, tasks, k, k, step);
    MovedTaskIsSnapped(before, rows, routings, tasks, k, step, busy, start);
    assert forall i :: 0 <= i < k ==> rows[tasks[i]] == before[tasks[i]];
  }

  class Timeline {
    const routings: map<nat, Routing>
    var rows: seq<Row>

    constructor (routings: map<nat, Routing>, rows: seq<Row>)
      ensures this.routings == routings && this.rows == rows
    {
      this.routings, this.rows := routings, rows;
    }

    /**
     * Where the task at position `k` goes: after the machine's last snapped task and its predecessor, past fixed
     * bookings.
     */
    method SnappedStart(tasks: seq<nat>, k: nat, step: nat, busy: map<nat, int>) returns (start: int)
      requires step > 0 && k < |tasks| && forall i :: 0 <= i < |tasks| ==> tasks[i] < |rows|
      requires var r := rows[tasks[k]]; r.machine.Some? && r.start.Some? && r.end.Some?
      ensures GoodStart(rows, routings, tasks, k, step, busy, start)
    {
      var id := tasks[k];
      var r := rows[id];
      var requested := if r.machine.value in busy then busy[r.machine.value] else r.start.value;
      var p := Predecessor(rows, routings, id);
      if p.Some? {
        requested := Max(requested, OrElse(EndOrStart(rows[p.value]), requested));
      }
      requested := CeilToSnap(requested, step);
      CeilLandsOnGrid(step);
      start := ShiftStartPastFixedBookings(rows, r.machine, requested, AtLeastOne(r.end.value - r.start.value),
                                           ExcludedFor(r, id), step);
    }

    /** Process the task at position `k`. */
    method SnapOne(ghost was: seq<Row>, tasks: seq<nat>, k: nat, step: nat, busy: map<nat, int>)
        returns (newBusy: map<nat, int>)
      requires step > 0 && k < |tasks| && forall i :: 0 <= i < |tasks| ==> tasks[i] < |rows|
      requires forall i :: 0 <= i < k ==> tasks[i] != tasks[k]
      requires OnlyMoved(was, rows, tasks, k) && Movable(was, tasks[k])
      requires BusyCovers(rows, tasks, k, busy) && AllSnapped(rows, routings, tasks, k, step)
      modifies this
      ensures OnlyMoved(was, rows, tasks, k + 1)
      ensures BusyCovers(rows, tasks, k + 1, newBusy) && AllSnapped(rows, routings, tasks, k + 1, step)
    {
      var id := tasks[k];
      assert !Among(tasks, 0, k, id);
      var start := SnappedStart(tasks, k, step, busy);
      ghost var before := rows;
      var task := Moved(rows[id], Some(start));
      rows := rows[id := task];
      SnappedOneMore(was, before, rows, routings, tasks, k, step, busy, start);
      var m := task.machine.value;
      newBusy := if m !in busy || busy[m] < task.end.value then busy[m := task.end.value] else busy;
    }

    method SnapScheduledWorkOrders(step: nat) returns (tasks: seq<nat>)
      requires step > 0
      modifies this
      ensures tasks == ScheduledTasks(old(rows))
      ensures OnlyMoved(old(rows), rows, tasks, |tasks|)
      ensures AllSnapped(rows, routings, tasks, |tasks|, step)
    {
      tasks := ScheduledTasks(rows);
      TasksAreDistinct(rows);
      SnapAll(tasks, step);
    }

    method SnapAll(tasks: seq<nat>, step: nat)
      requires step > 0 && forall i, j :: 0 <= i < j < |tasks| ==> tasks[i] != tasks[j]
      requires forall i :: 0 <= i < |tasks| ==> tasks[i] < |rows| && Movable(rows, tasks[i])
      modifies this
      ensures OnlyMoved(old(rows), rows, tasks, |tasks|)
      ensures AllSnapped(rows, routings, tasks, |tasks|, step)
    {
      var busy: map<nat, int> := map[];
      for k := 0 to |tasks|
        invariant OnlyMoved(old(rows), rows, tasks, k)
        invariant BusyCovers(rows, tasks, k, busy)
        invariant AllSnapped(rows, routings, tasks, k, step)
      {
        busy := SnapOne(old(rows), tasks, k, step, busy);
      }
    }
  }

  // ---- what the pass achieves, read off the final board ----

  lemma {:induction false} SnappedAt(rows: seq<Row>, routings: map<nat, Routing>, tasks: seq<nat>, k: nat, step: nat,
                                     j: nat)
    requires k <= |tasks| && step > 0 && forall i :: 0 <= i < |tasks| ==> tasks[i] < |rows|
    requires AllSnapped(rows, routings, tasks, k, step) && j < k
    ensures TaskSnapped(rows, routings, tasks, j, step)
    decreases k
  {
    if j < k - 1 {
      SnappedAt(rows, routings, tasks, k - 1, step, j);
    }
  }

  /** No two snapped tasks of one machine overlap, whatever their lengths. */
  lemma SnappedTasksDoNotClash(rows: seq<Row>, routings: map<nat, Routing>, tasks: seq<nat>, step: nat, i: nat, j: nat)
    requires step > 0 && forall i :: 0 <= i < |tasks| ==> tasks[i] < |rows|
    requires AllSnapped(rows, routings, tasks, |tasks|, step) && i < j < |tasks|
    ensures !Clash(rows[tasks[i]], rows[tasks[j]])
  {
    SnappedAt(rows, routings, tasks, |tasks|, step, j);
  }

  /** A task of positive length that ends before another one starts is processed before it. */
  lemma EarlierTaskIsProcessedEarlier(was: seq<Row>, j: nat, p: nat)
    requires var tasks := ScheduledTasks(was); j < |tasks| && p < |was|
    requires was[p].start.Some? && was[p].end.Some?
    requires was[p].start.value < was[p].end.value <= StartKey(was[ScheduledTasks(was)[j]])
    ensures var tasks := ScheduledTasks(was); !Among(tasks, j, |tasks|, p)
  {
    var tasks := ScheduledTasks(was);
    forall i | j <= i < |tasks|
      ensures tasks[i] != p
    {
      assert StartKey(was[tasks[j]]) <= StartKey(was[tasks[i]]);
    }
  }

  /** The task before the one at position `j` is fixed, or it lay before it when the pass began. */
  predicate InRouteOrder(was: seq<Row>, tasks: seq<nat>, j: nat, p: nat)
    requires j < |tasks| && tasks[j] < |was| && p < |was|
  {
    p in tasks ==>
      && was[p].start.Some? && was[p].end.Some?
      && was[p].start.value < was[p].end.value <= StartKey(was[tasks[j]])
  }

  /**
   * Snapping a route that was in order leaves it in order: no task starts before the one before it on the route ends.
   */
  lemma RouteOrderIsKept(was: seq<Row>, rows: seq<Row>, routings: map<nat, Routing>, tasks: seq<nat>, step: nat, j: nat)
    requires step > 0 && tasks == ScheduledTasks(was) && j < |tasks|
    requires OnlyMoved(was, rows, tasks, |tasks|) && AllSnapped(rows, routings, tasks, |tasks|, step)
    requires var p := Predecessor(was, routings, tasks[j]); p.Some? ==> InRouteOrder(was, tasks, j, p.value)
    ensures var p := Predecessor(was, routings, tasks[j]);
      p.Some? && EndOrStart(rows[p.value]).Some? ==>
        rows[tasks[j]].start.Some? && EndOrStart(rows[p.value]).value <= rows[tasks[j]].start.value
  {
    MovesKeepPredecessor(was, rows, routings, tasks[j]);
    SnappedAt(rows, routings, tasks, |tasks|, step, j);
    var p := Predecessor(was, routings, tasks[j]);
    if p.Some? && p.value in tasks {
      EarlierTaskIsProcessedEarlier(was, j, p.value);
    }
  }
}
