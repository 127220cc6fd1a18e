/** Planning a whole BOM route over the board, and re-timing it from a moved stage. */
module Route {
  import opened Common
  import opened Calendar
  import opened Clock
  import opened Board

  datatype FlowMode = Series | Parallel

  datatype SelectionMode = Manual | Recommended | Auto

  /** What the planner fixed for a stage. */
  datatype Assignment = Assignment(machine: Option<nat>, mode: SelectionMode, start: Option<int>)

  /** One step of the route; `duration` is already computed from setup, run time and quantity. */
  datatype Operation = Operation(stage: nat, duration: int, machine: Option<nat>, stageMachine: Option<nat>,
                                 hinted: seq<nat>)

  /** Two rows hold the same machine at the same time. */
  predicate Clash(a: Row, b: Row) {
    a.machine.Some? && a.machine == b.machine && b.Booked() && a.Overlaps(b.start.value, b.end.value)
  }

  /** Two booked rows on one machine never overlap, the rows in `except` set aside. */
  ghost predicate NoDoubleBooking(rows: seq<Row>, except: set<nat>) {
    forall i: nat, j: nat :: (i < j < |rows| && i !in except && j !in except) ==> !Clash(rows[i], rows[j])
  }

  // ---- candidate machines ----

  function AddCandidate(candidates: seq<nat>, machine: Option<nat>, fleet: seq<nat>): seq<nat> {
    if machine.Some? && machine.value in fleet && machine.value !in candidates then candidates + [machine.value]
    else candidates
  }

  function AddAll(candidates: seq<nat>, machines: seq<nat>, fleet: seq<nat>): seq<nat>
    decreases |machines|
  {
    if machines == [] then candidates
    else AddAll(AddCandidate(candidates, Some(machines[0]), fleet), machines[1..], fleet)
  }

  /**
   * Preferred machine, then the operation's and the stage's own, then the hinted ones; the whole fleet only if none
   * qualifies.
   */
  function Candidates(op: Operation, preferred: Option<nat>, fleet: seq<nat>): seq<nat> {
    var named := AddCandidate(AddCandidate(AddCandidate([], preferred, fleet), op.machine, fleet), op.stageMachine,
                              fleet);
    var all := AddAll(named, op.hinted, fleet);
    if all == [] then AddAll([], fleet, fleet) else all
  }

  // ---- one stage ----

  datatype Choice = Choice(machine: Option<nat>, slot: Option<Window>)

  /** The request a stage makes before any machine is looked at. */
  datatype Request = Request(first: bool, firstMachine: Option<nat>, firstStart: int, from: int, mode: FlowMode,
                             blocked: bool)

  function AssignedMachine(q: Request, a: Option<Assignment>): Option<nat> {
    if a.Some? && a.value.machine.Some? then a.value.machine else if q.first then q.firstMachine else None
  }

  function StageStart(a: Option<Assignment>): Option<int> {
    if a.Some? then a.value.start else None
  }

  predicate CanScheduleNow(q: Request) {
    q.mode == Parallel || !q.blocked
  }

  /** The machine is picked among candidates rather than fixed by the planner. */
  predicate PicksMachine(q: Request, a: Option<Assignment>) {
    if a.None? then AssignedMachine(q, a).None? else AssignedMachine(q, a).Some? && a.value.mode == Recommended
  }

  function Distance(a: int, b: int): nat {
    if a < b then b - a else a - b
  }

  /** From when the stage may start: the planner's own time if there is one. */
  function SearchFrom(q: Request, a: Option<Assignment>): int {
    if StageStart(a).Some? then StageStart(a).value else q.from
  }

  /**
   * What a stage's machine and slot must satisfy: a fixed machine is kept, a picked one is a
   * candidate with the earliest slot of all, and the slot is the earliest one of its machine.
   */
  ghost predicate GoodChoice(calendars: Calendars, rows: seq<Row>, fleet: seq<nat>, op: Operation, q: Request,
                             a: Option<Assignment>, exclude: set<nat>, x: Choice) {
    && (x.slot.Some? <==> x.machine.Some? && CanScheduleNow(q))
    && (q.first || (CanScheduleNow(q) && a.None?) ==> x.machine.Some?)
    && (!(PicksMachine(q, a) && CanScheduleNow(q)) ==> x.machine == AssignedMachine(q, a))
    && (x.slot.Some? ==>
          && SlotOf(calendars, rows, x.machine.value, op.duration, SearchFrom(q, a), exclude, x.slot.value.start,
                    x.slot.value.end)
          && (q.mode == Series ==> q.from <= x.slot.value.start)
          && (StageStart(a).Some? ==> Distance(x.slot.value.start, StageStart(a).value) <= 1)
          && (q.first && AssignedMachine(q, a).Some? && (a.None? || a.value.mode == Manual) ==>
                Distance(x.slot.value.start, q.firstStart) <= 1)
          && (PicksMachine(q, a) ==>
                && x.machine.value in Candidates(op, AssignedMachine(q, a), fleet)
                && forall m, s, e :: (m in Candidates(op, AssignedMachine(q, a), fleet)
                                      && SlotOf(calendars, rows, m, op.duration, SearchFrom(q, a), exclude, s, e))
                                     ==> x.slot.value.start <= s))
  }

  /** Machine and slot of one stage, or the planner's error. */
  method ChooseSlot(calendars: Calendars, rows: seq<Row>, fleet: seq<nat>, op: Operation, q: Request,
                    a: Option<Assignment>, exclude: set<nat>) returns (r: Result<Choice>)
    requires q.first ==> !q.blocked
    ensures r.Ok? ==> GoodChoice(calendars, rows, fleet, op, q, a, exclude, r.value)
    ensures q.mode == Series && StageStart(a).Some? && StageStart(a).value < q.from ==> r.Err?
    ensures a.Some? && q.first && AssignedMachine(q, a).None? ==> r.Err?
  {
    var machine := AssignedMachine(q, a);
    var from := q.from;
    if StageStart(a).Some? {
      if q.mode == Series && StageStart(a).value < from {
        return Err("stage cannot start before the previous stage finishes");
      }
      from := SearchFrom(q, a);
    }
    var slot: Option<Window> := None;
    if a.Some? && q.first && machine.None? {
      return Err("assign a machine to the first stage");
    }
    if PicksMachine(q, a) && CanScheduleNow(q) {
      var cs := Candidates(op, machine, fleet);
      var best, s, e, at := PickBestMachineSlot(calendars, rows, cs, op.duration, from, exclude);
      if best.None? {
        return Err("no operational machine available");
      }
      machine, slot := best, Some(Window(s, e));
    } else if machine.Some? && CanScheduleNow(q) {
      var s, e := FindNextAvailableSlot(calendars, rows, machine, op.duration, from, exclude);
      var fixed := if a.None? then q.firstMachine.Some? else a.value.mode == Manual;
      if q.first && fixed && Distance(s, q.firstStart) > 1 {
        return Err("machine occupied at this time");
      }
      slot := Some(Window(s, e));
    }
    if StageStart(a).Some? && slot.Some? && Distance(slot.value.start, StageStart(a).value) > 1 {
      return Err("stage is not available at the requested time");
    }
    return Ok(Choice(machine, slot));
  }

  // ---- the whole route ----

  function StageIndex(routing: seq<Operation>, stage: nat): (r: Option<nat>)
    ensures r.Some? ==> r.value < |routing| && routing[r.value].stage == stage
    ensures r.Some? ==> forall i :: 0 <= i < r.value ==> routing[i].stage != stage
    ensures r.None? ==> forall i :: 0 <= i < |routing| ==> routing[i].stage != stage
  {
    if routing == [] then None
    else if routing[0].stage == stage then Some(0)
    else
      var i := StageIndex(routing[1..], stage);
      if i.None? then None else Some(i.value + 1)
  }

  /** The operations to plan: the routing from the first operation of the chosen stage on. */
  function RouteFrom(routing: seq<Operation>, firstStage: Option<nat>): (r: Result<seq<Operation>>)
    ensures r.Ok? ==> r.value != [] && exists i :: 0 <= i < |routing| && r.value == routing[i..]
  {
    if routing == [] then Err("no schedulable stages")
    else
      var anchor := if firstStage.Some? then StageIndex(routing, firstStage.value) else Some(0);
      if anchor.None? then Err("selected stage is not part of the routing") else Ok(routing[anchor.value..])
  }

  predicate Open(r: Row) {
    r.status != Canceled && r.status != Archived
  }

  predicate IsChild(rows: seq<Row>, i: nat, parent: nat, stage: nat, taken: set<nat>)
    requires i < |rows|
  {
    i !in taken && rows[i].parent == Some(parent) && Open(rows[i]) && rows[i].stage == Some(stage)
  }

  /** The oldest open child of `parent` at `stage`, among the first `n` rows, that no earlier step took. */
  function NextChild(rows: seq<Row>, parent: nat, stage: nat, taken: set<nat>, n: nat): (r: Option<nat>)
    requires n <= |rows|
    ensures r.Some? ==> r.value < n && IsChild(rows, r.value, parent, stage, taken)
    ensures forall i :: 0 <= i < (if r.Some? then r.value else n) ==> !IsChild(rows, i, parent, stage, taken)
  {
    if n == 0 then None
    else
      var earlier := NextChild(rows, parent, stage, taken, n - 1);
      if earlier.Some? then earlier
      else if IsChild(rows, n - 1, parent, stage, taken) then Some(n - 1)
      else None
  }

  /** Replanning one row keeps the board free of double bookings when its new slot was free. */
  lemma PlacingKeepsNoDoubleBooking(rows: seq<Row>, next: seq<Row>, i: nat, except: set<nat>, exclude: set<nat>)
    requires NoDoubleBooking(rows, except) && exclude <= except + {i}
    requires i < |next| && |rows| <= |next| <= |rows| + 1 && i <= |rows|
    requires |next| == |rows| + 1 ==> i == |rows|
    requires forall k :: 0 <= k < |rows| && k != i ==> next[k] == rows[k]
    requires next[i].Booked() ==> Free(rows, next[i].machine, exclude, next[i].start.value, next[i].end.value)
    ensures NoDoubleBooking(next, except)
  {
    forall a: nat, b: nat | a < b < |next| && a !in except && b !in except
      ensures !Clash(next[a], next[b])
    {
      if a != i && b != i {
        assert next[a] == rows[a] && next[b] == rows[b];
      } else if next[i].Booked() {
        var k := if a == i then b else a;
        assert k < |rows| && next[k] == rows[k] && k !in exclude;
        assert !Blocks(rows, k, next[i].machine, exclude, next[i].start.value, next[i].end.value);
      }
    }
  }

  /** The row starts in shift on its machine and spends exactly the duration's walk of that machine's clock. */
  ghost predicate InShift(calendars: Calendars, r: Row, duration: int)
    requires r.start.Some? && r.end.Some?
  {
    var c := CalendarOf(calendars, r.machine);
    r.machine.Some? && Usable(c, r.start.value) && r.end.value == EndOf(c, r.start.value, duration)
  }

  /** What one planning call fixes for all the stages of a route. */
  datatype Plan = Plan(parent: nat, operations: seq<Operation>, mode: FlowMode, firstStart: int,
                       firstMachine: Option<nat>, assignments: map<nat, Assignment>) {

    function AssignmentOf(op: Operation): Option<Assignment> {
      if op.stage in assignments then Some(assignments[op.stage]) else None
    }
  }

  /** How far the planning loop has come. */
  datatype Progress = Progress(tasks: seq<nat>, cut: nat, previousEnd: int, blocked: bool, finalEnd: int) {

    /** What the next stage asks for. */
    function NextRequest(plan: Plan): Request {
      Request(tasks == [], plan.firstMachine, plan.firstStart,
              if plan.mode == Parallel then plan.firstStart else previousEnd,
              plan.mode, blocked)
    }

    function After(plan: Plan, task: nat, choice: Choice): Progress {
      var dated := choice.slot.Some?;
      Progress(tasks + [task], if dated then cut + 1 else cut,
               if dated && plan.mode == Series then choice.slot.value.end else previousEnd,
               blocked || (plan.mode == Series && choice.machine.None?),
               if dated then Max(finalEnd, choice.slot.value.end) else finalEnd)
    }
  }

  /** The stage tasks of a planned route, in route order. */
  ghost predicate Planned(calendars: Calendars, rows: seq<Row>, plan: Plan, tasks: seq<nat>) {
    && |tasks| <= |plan.operations|
    && (forall i, j :: 0 <= i < j < |tasks| ==> tasks[i] != tasks[j])
    && forall k :: 0 <= k < |tasks| ==>
         && tasks[k] < |rows| && tasks[k] != plan.parent
         && rows[tasks[k]].parent == Some(plan.parent) && rows[tasks[k]].stage == Some(plan.operations[k].stage)
         && rows[tasks[k]].status == Pending
         && (rows[tasks[k]].start.Some? <==> rows[tasks[k]].end.Some?)
         && (rows[tasks[k]].start.Some? ==> InShift(calendars, rows[tasks[k]], plan.operations[k].duration))
  }

  /**
   * The dated tasks are the first `cut` ones of the route, each starting no earlier than the one
   * before it ends; `last` is the end of the last dated task.
   */
  ghost predicate InSeries(rows: seq<Row>, firstStart: int, tasks: seq<nat>, cut: nat, last: int)
    requires forall k :: 0 <= k < |tasks| ==> tasks[k] < |rows|
  {
    && cut <= |tasks|
    && (forall k :: 0 <= k < |tasks| ==>
          (rows[tasks[k]].start.Some? <==> k < cut) && (rows[tasks[k]].end.Some? <==> k < cut))
    && last == (if cut == 0 then firstStart else rows[tasks[cut - 1]].end.value)
    && (cut > 0 ==> firstStart <= rows[tasks[0]].start.value)
    && forall k :: 0 < k < cut ==> rows[tasks[k - 1]].end.value <= rows[tasks[k]].start.value
  }

  /** The board with the task row of one stage written: over an open child, or as a new row. */
  predicate Wrote(board: seq<Row>, next: seq<Row>, parent: nat, stage: nat, task: nat, choice: Choice) {
    if task < |board| then next == board[task := TaskRow(parent, stage, choice)]
    else task == |board| && next == board + [TaskRow(parent, stage, choice)]
  }

  lemma GoodChoiceKeepsBoard(calendars: Calendars, rows: seq<Row>, fleet: seq<nat>, op: Operation, q: Request,
                             a: Option<Assignment>, exclude: set<nat>, x: Choice, parent: nat, task: nat,
                               next: seq<Row>)
    requires GoodChoice(calendars, rows, fleet, op, q, a, exclude, x) && exclude <= {parent, task}
    requires Wrote(rows, next, parent, op.stage, task, x)
    ensures NoDoubleBooking(rows, {parent}) ==> NoDoubleBooking(next, {parent})
    ensures x.slot.Some? ==> InShift(calendars, next[task], op.duration)
  {
    if NoDoubleBooking(rows, {parent}) {
      PlacingKeepsNoDoubleBooking(rows, next, task, {parent}, exclude);
    }
  }

  /** The invariant of the planning loop: what the stages placed so far satisfy. */
  ghost predicate RouteSoFar(calendars: Calendars, rows: seq<Row>, plan: Plan, g: Progress) {
    && Planned(calendars, rows, plan, g.tasks)
    && (plan.mode == Series ==>
          InSeries(rows, plan.firstStart, g.tasks, g.cut, g.previousEnd) && (!g.blocked ==> g.cut == |g.tasks|))
    && plan.firstStart <= g.finalEnd
    && forall i :: 0 <= i < |g.tasks| && rows[g.tasks[i]].end.Some? ==> rows[g.tasks[i]].end.value <= g.finalEnd
  }

  lemma PlannedOneMore(calendars: Calendars, before: seq<Row>, rows: seq<Row>, plan: Plan, tasks: seq<nat>, task: nat,
                       choice: Choice)
    requires Planned(calendars, before, plan, tasks) && |tasks| < |plan.operations| && |before| <= |rows|
    requires task < |rows| && task !in tasks && task != plan.parent
    requires forall i :: 0 <= i < |before| && i != task ==> rows[i] == before[i]
    requires rows[task] == TaskRow(plan.parent, plan.operations[|tasks|].stage, choice)
    requires choice.slot.Some? ==> InShift(calendars, rows[task], plan.operations[|tasks|].duration)
    ensures Planned(calendars, rows, plan, tasks + [task])
    ensures forall i :: 0 <= i < |tasks| ==> rows[(tasks + [task])[i]] == before[tasks[i]]
  {
    var more := tasks + [task];
    assert forall i :: 0 <= i < |tasks| ==> more[i] == tasks[i] && rows[more[i]] == before[tasks[i]];
    assert more[|tasks|] == task;
  }

  lemma InSeriesOneMore(before: seq<Row>, rows: seq<Row>, firstStart: int, tasks: seq<nat>, cut: nat, last: int,
                        more: seq<nat>)
    requires |more| == |tasks| + 1 && (forall i :: 0 <= i < |tasks| ==> tasks[i] < |before|)
      && forall i :: 0 <= i < |more| ==> more[i] < |rows|
    requires forall i :: 0 <= i < |tasks| ==> rows[more[i]] == before[tasks[i]]
    requires InSeries(before, firstStart, tasks, cut, last)
    requires var r := rows[more[|tasks|]];
      (r.start.Some? <==> r.end.Some?) && (r.start.Some? ==> cut == |tasks| && last <= r.start.value)
    ensures var r := rows[more[|tasks|]];
      if r.end.Some? then InSeries(rows, firstStart, more, cut + 1, r.end.value)
        else InSeries(rows, firstStart, more, cut, last)
  {
  }

  lemma EndsOneMore(before: seq<Row>, rows: seq<Row>, tasks: seq<nat>, more: seq<nat>, finalEnd: int)
    requires |more| == |tasks| + 1 && (forall i :: 0 <= i < |tasks| ==> tasks[i] < |before|)
      && forall i :: 0 <= i < |more| ==> more[i] < |rows|
    requires forall i :: 0 <= i < |tasks| ==> rows[more[i]] == before[tasks[i]]
    requires forall i :: 0 <= i < |tasks| && before[tasks[i]].end.Some? ==> before[tasks[i]].end.value <= finalEnd
    ensures var r := rows[more[|tasks|]];
      var end := if r.end.Some? then Max(finalEnd, r.end.value) else finalEnd;
      finalEnd <= end && forall i :: 0 <= i < |more| && rows[more[i]].end.Some? ==> rows[more[i]].end.value <= end
  {
  }

  lemma PlacedStageExtendsRoute(calendars: Calendars, before: seq<Row>, rows: seq<Row>, plan: Plan, g: Progress,
                                task: nat, choice: Choice)
    requires RouteSoFar(calendars, before, plan, g)
    requires |g.tasks| < |plan.operations| && |before| <= |rows|
    requires task < |rows| && task !in g.tasks && task != plan.parent
    requires forall i :: 0 <= i < |before| && i != task ==> rows[i] == before[i]
    requires rows[task] == TaskRow(plan.parent, plan.operations[|g.tasks|].stage, choice)
    requires plan.mode == Series ==> (choice.slot.Some? <==> choice.machine.Some? && !g.blocked)
    requires plan.mode == Series && choice.slot.Some? ==> g.previousEnd <= choice.slot.value.start
    requires choice.slot.Some? ==> InShift(calendars, rows[task], plan.operations[|g.tasks|].duration)
    ensures RouteSoFar(calendars, rows, plan, g.After(plan, task, choice))
  {
    var more := g.tasks + [task];
    PlannedOneMore(calendars, before, rows, plan, g.tasks, task, choice);
    EndsOneMore(before, rows, g.tasks, more, g.finalEnd);
    if plan.mode == Series {
      InSeriesOneMore(before, rows, plan.firstStart, g.tasks, g.cut, g.previousEnd, more);
    }
  }

  // ---- every stage has the slot it should have ----

  /** One stage as it was planned: the board it saw, the progress up to it, its task and what it got. */
  datatype Placement = Placement(board: seq<Row>, progress: Progress, task: nat, choice: Choice)

  /**
   * Stage `k` asked for what the progress before it says and got a good choice on the board it saw:
   * the earliest slot of its machine, and of all candidate machines if it could choose.
   */
  ghost predicate WellPlaced(calendars: Calendars, fleet: seq<nat>, plan: Plan, k: nat, x: Placement)
    requires k < |plan.operations|
  {
    var op := plan.operations[k];
    && |x.progress.tasks| == k
    && GoodChoice(calendars, x.board, fleet, op, x.progress.NextRequest(plan), plan.AssignmentOf(op),
                  {plan.parent} + if x.task < |x.board| then {x.task} else {}, x.choice)
  }

  /** The task of a stage is not the parent and not the task of an earlier stage; an old row only if it hangs below the parent. */
  predicate IsTaskFor(was: seq<Row>, plan: Plan, x: Placement) {
    && x.task != plan.parent && x.task !in x.progress.tasks
    && (x.task < |was| ==> x.task < |x.board| && x.board[x.task].parent == Some(plan.parent))
  }

  /** The stages were placed one after the other, each on the board the one before it left. */
  ghost predicate PlacedInTurn(calendars: Calendars, fleet: seq<nat>, was: seq<Row>, rows: seq<Row>, plan: Plan,
                               g: Progress, xs: seq<Placement>)
    decreases |xs|
  {
    if xs == [] then
      rows == was && g == Progress([], 0, plan.firstStart, false, plan.firstStart)
    else
      var k := |xs| - 1;
      && k < |plan.operations|
      && WellPlaced(calendars, fleet, plan, k, xs[k]) && IsTaskFor(was, plan, xs[k])
      && Wrote(xs[k].board, rows, plan.parent, plan.operations[k].stage, xs[k].task, xs[k].choice)
      && g == xs[k].progress.After(plan, xs[k].task, xs[k].choice)
      && PlacedInTurn(calendars, fleet, was, xs[k].board, plan, xs[k].progress, xs[..k])
  }

  lemma PlacedOneMore(calendars: Calendars, fleet: seq<nat>, was: seq<Row>, rows: seq<Row>, plan: Plan, g: Progress,
                      xs: seq<Placement>, next: seq<Row>, x: Placement)
    requires PlacedInTurn(calendars, fleet, was, rows, plan, g, xs) && |xs| < |plan.operations|
    requires x.board == rows && x.progress == g && WellPlaced(calendars, fleet, plan, |xs|, x)
    requires IsTaskFor(was, plan, x)
    requires Wrote(rows, next, plan.parent, plan.operations[|xs|].stage, x.task, x.choice)
    ensures PlacedInTurn(calendars, fleet, was, next, plan, g.After(plan, x.task, x.choice), xs + [x])
  {
    assert (xs + [x])[..|xs|] == xs;
  }

  /** Stage `k` has its task, and the row of the task is what the choice said. */
  ghost predicate StagePlaced(calendars: Calendars, fleet: seq<nat>, plan: Plan, rows: seq<Row>, k: nat, x: Placement) {
    && k < |plan.operations| && WellPlaced(calendars, fleet, plan, k, x)
    && x.task < |rows| && rows[x.task] == TaskRow(plan.parent, plan.operations[k].stage, x.choice)
  }

  ghost predicate StagesPlaced(calendars: Calendars, fleet: seq<nat>, plan: Plan, rows: seq<Row>, tasks: seq<nat>,
                               xs: seq<Placement>) {
    && |xs| == |tasks|
    && (forall k :: 0 <= k < |xs| ==> xs[k].task == tasks[k])
    && forall k :: 0 <= k < |xs| ==> StagePlaced(calendars, fleet, plan, rows, k, xs[k])
  }

  lemma OtherStagesStay(calendars: Calendars, fleet: seq<nat>, plan: Plan, before: seq<Row>, rows: seq<Row>, task: nat,
                        tasks: seq<nat>, xs: seq<Placement>)
    requires StagesPlaced(calendars, fleet, plan, before, tasks, xs) && task !in tasks && |before| <= |rows|
    requires forall i :: 0 <= i < |before| && i != task ==> rows[i] == before[i]
    ensures StagesPlaced(calendars, fleet, plan, rows, tasks, xs)
  {
    forall k | 0 <= k < |xs|
      ensures StagePlaced(calendars, fleet, plan, rows, k, xs[k])
    {
      assert StagePlaced(calendars, fleet, plan, before, k, xs[k]);
      assert tasks[k] in tasks;
    }
  }

  lemma StagePlacedToo(calendars: Calendars, fleet: seq<nat>, plan: Plan, rows: seq<Row>, tasks: seq<nat>,
                       xs: seq<Placement>, x: Placement)
    requires StagesPlaced(calendars, fleet, plan, rows, tasks, xs) && StagePlaced(calendars, fleet, plan, rows, |xs|, x)
    ensures StagesPlaced(calendars, fleet, plan, rows, tasks + [x.task], xs + [x])
  {
    var ys := xs + [x];
    forall k | 0 <= k < |ys|
      ensures StagePlaced(calendars, fleet, plan, rows, k, ys[k])
    {
      assert k < |xs| ==> ys[k] == xs[k];
    }
  }

  /** An open task of the parent is not pending any more. */
  predicate HasStarted(rows: seq<Row>, parent: nat) {
    exists i :: 0 <= i < |rows| && rows[i].parent == Some(parent) && Open(rows[i]) && rows[i].status != Pending
  }

  /** No row but the listed tasks of the parent changed; rows may have been added. */
  ghost predicate OnlyTasksChanged(was: seq<Row>, rows: seq<Row>, parent: nat, tasks: seq<nat>)
    requires parent < |was|
  {
    && |was| <= |rows| && rows[parent] == was[parent]
    && (forall i :: 0 <= i < |was| && was[i].parent != Some(parent) ==> rows[i] == was[i])
    && (forall i :: 0 <= i < |was| && i !in tasks ==> rows[i] == was[i])
  }

  lemma TaskChanged(was: seq<Row>, before: seq<Row>, rows: seq<Row>, parent: nat, tasks: seq<nat>, t: nat)
    requires parent < |was| && t != parent && |before| <= |rows| && OnlyTasksChanged(was, before, parent, tasks)
    requires t < |was| ==> t !in tasks && before[t].parent == Some(parent)
    requires forall i :: 0 <= i < |before| && i != t ==> rows[i] == before[i]
    ensures OnlyTasksChanged(was, rows, parent, tasks + [t])
  {
    assert forall i :: i !in tasks + [t] ==> i !in tasks && i != t;
  }

  /** Everything the planning loop keeps. */
  ghost predicate PlacedSoFar(calendars: Calendars, fleet: seq<nat>, was: seq<Row>, rows: seq<Row>, plan: Plan,
                              g: Progress, xs: seq<Placement>)
    requires plan.parent < |was|
  {
    && OnlyTasksChanged(was, rows, plan.parent, g.tasks)
    && (NoDoubleBooking(was, {plan.parent}) ==> NoDoubleBooking(rows, {plan.parent}))
    && RouteSoFar(calendars, rows, plan, g)
    && StagesPlaced(calendars, fleet, plan, rows, g.tasks, xs)
  }

  lemma NothingPlacedYet(calendars: Calendars, fleet: seq<nat>, rows: seq<Row>, plan: Plan)
    requires plan.parent < |rows|
    ensures PlacedSoFar(calendars, fleet, rows, rows, plan, Progress([], 0, plan.firstStart, false, plan.firstStart),
                        [])
  {
  }

  lemma PlacedStageKeepsAll(calendars: Calendars, fleet: seq<nat>, was: seq<Row>, before: seq<Row>, rows: seq<Row>,
                            plan: Plan, g: Progress, xs: seq<Placement>, task: nat, choice: Choice)
    requires plan.parent < |was| && PlacedSoFar(calendars, fleet, was, before, plan, g, xs) && |xs| < |plan.operations|
    requires IsTaskFor(was, plan, Placement(before, g, task, choice))
    requires Wrote(before, rows, plan.parent, plan.operations[|xs|].stage, task, choice)
    requires NoDoubleBooking(before, {plan.parent}) ==> NoDoubleBooking(rows, {plan.parent})
    requires choice.slot.Some? ==> InShift(calendars, rows[task], plan.operations[|xs|].duration)
    requires WellPlaced(calendars, fleet, plan, |xs|, Placement(before, g, task, choice))
    ensures PlacedSoFar(calendars, fleet, was, rows, plan, g.After(plan, task, choice),
                        xs + [Placement(before, g, task, choice)])
  {
    TaskChanged(was, before, rows, plan.parent, g.tasks, task);
    PlacedStageExtendsRoute(calendars, before, rows, plan, g, task, choice);
    OtherStagesStay(calendars, fleet, plan, before, rows, task, g.tasks, xs);
    StagePlacedToo(calendars, fleet, plan, rows, g.tasks, xs, Placement(before, g, task, choice));
  }

  /** Stages placed in turn make a route, and disturb nothing else. */
  lemma {:induction false} TurnsMakeRoute(calendars: Calendars, fleet: seq<nat>, was: seq<Row>, rows: seq<Row>, plan: Plan,
                                          g: Progress, xs: seq<Placement>)
    requires plan.parent < |was| && PlacedInTurn(calendars, fleet, was, rows, plan, g, xs)
    ensures PlacedSoFar(calendars, fleet, was, rows, plan, g, xs)
    decreases |xs|
  {
    if xs == [] {
      NothingPlacedYet(calendars, fleet, rows, plan);
    } else {
      var k := |xs| - 1;
      TurnsMakeRoute(calendars, fleet, was, xs[k].board, plan, xs[k].progress, xs[..k]);
      LastTurnToo(calendars, fleet, was, rows, plan, g, xs, k);
    }
  }

  lemma LastTurnToo(calendars: Calendars, fleet: seq<nat>, was: seq<Row>, rows: seq<Row>, plan: Plan, g: Progress,
                    xs: seq<Placement>, k: nat)
    requires plan.parent < |was| && PlacedInTurn(calendars, fleet, was, rows, plan, g, xs) && |xs| == k + 1
    ensures PlacedSoFar(calendars, fleet, was, xs[k].board, plan, xs[k].progress, xs[..k]) ==>
      PlacedSoFar(calendars, fleet, was, rows, plan, g, xs)
  {
    if PlacedSoFar(calendars, fleet, was, xs[k].board, plan, xs[k].progress, xs[..k]) {
      LastTurn(calendars, fleet, was, rows, plan, xs[k].progress, xs[..k], xs[k]);
      assert xs == xs[..k] + [xs[k]];
    }
  }

  lemma LastTurn(calendars: Calendars, fleet: seq<nat>, was: seq<Row>, rows: seq<Row>, plan: Plan, g: Progress,
                 xs: seq<Placement>, x: Placement)
    requires plan.parent < |was| && PlacedSoFar(calendars, fleet, was, x.board, plan, g, xs) && x.progress == g
    requires |xs| < |plan.operations| && WellPlaced(calendars, fleet, plan, |xs|, x) && IsTaskFor(was, plan, x)
    requires Wrote(x.board, rows, plan.parent, plan.operations[|xs|].stage, x.task, x.choice)
    ensures PlacedSoFar(calendars, fleet, was, rows, plan, g.After(plan, x.task, x.choice), xs + [x])
  {
    var op := plan.operations[|xs|];
    GoodChoiceKeepsBoard(calendars, x.board, fleet, op, g.NextRequest(plan), plan.AssignmentOf(op),
                         {plan.parent} + if x.task < |x.board| then {x.task} else {}, x.choice, plan.parent, x.task, rows);
    PlacedStageKeepsAll(calendars, fleet, was, x.board, rows, plan, g, xs, x.task, x.choice);
  }

  /** What a successful planning call leaves: the route, its slots, and every other row as it was. */
  ghost predicate RoutePlanned(calendars: Calendars, fleet: seq<nat>, was: seq<Row>, rows: seq<Row>, plan: Plan,
                               g: Progress, xs: seq<Placement>)
    requires plan.parent < |was|
  {
    && |was| <= |rows| && |g.tasks| == |plan.operations|
    && rows[plan.parent] == was[plan.parent].(machine := None)
    && (forall i :: 0 <= i < |was| && i != plan.parent && i !in g.tasks ==> rows[i] == was[i])
    && (forall i :: 0 <= i < |was| && i != plan.parent && was[i].parent != Some(plan.parent) ==> rows[i] == was[i])
    && RouteSoFar(calendars, rows, plan, g)
    && PlacedInTurn(calendars, fleet, was, rows[plan.parent := was[plan.parent]], plan, g, xs)
    && StagesPlaced(calendars, fleet, plan, rows, g.tasks, xs)
  }

  /** At the end the parent gives up its machine, so that only its tasks hold machines. */
  lemma ReleasingTheParentMachine(calendars: Calendars, fleet: seq<nat>, was: seq<Row>, rows: seq<Row>, plan: Plan,
                                  g: Progress, xs: seq<Placement>, next: seq<Row>)
    requires plan.parent < |was| && PlacedSoFar(calendars, fleet, was, rows, plan, g, xs) && |xs| == |plan.operations|
    requires PlacedInTurn(calendars, fleet, was, rows, plan, g, xs)
    requires next == rows[plan.parent := rows[plan.parent].(machine := None)]
    ensures RoutePlanned(calendars, fleet, was, next, plan, g, xs)
    ensures NoDoubleBooking(was, {plan.parent}) ==> NoDoubleBooking(next, {})
  {
    ParentIsNoTask(calendars, rows, plan, g, next);
    ParentIsNotPlaced(calendars, fleet, rows, plan, g, xs, next);
    assert next[plan.parent := was[plan.parent]] == rows;
    if NoDoubleBooking(rows, {plan.parent}) {
      WithoutItsMachine(rows, next, plan.parent);
    }
  }

  lemma ParentIsNoTask(calendars: Calendars, rows: seq<Row>, plan: Plan, g: Progress, next: seq<Row>)
    requires RouteSoFar(calendars, rows, plan, g) && |next| == |rows|
    requires forall i :: 0 <= i < |rows| && i != plan.parent ==> next[i] == rows[i]
    ensures RouteSoFar(calendars, next, plan, g)
    ensures forall k :: 0 <= k < |g.tasks| ==> next[g.tasks[k]] == rows[g.tasks[k]]
  {
    assert forall k :: 0 <= k < |g.tasks| ==> next[g.tasks[k]] == rows[g.tasks[k]];
  }

  lemma ParentIsNotPlaced(calendars: Calendars, fleet: seq<nat>, rows: seq<Row>, plan: Plan, g: Progress,
                          xs: seq<Placement>, next: seq<Row>)
    requires RouteSoFar(calendars, rows, plan, g) && StagesPlaced(calendars, fleet, plan, rows, g.tasks, xs)
      && |next| == |rows|
    requires forall i :: 0 <= i < |rows| && i != plan.parent ==> next[i] == rows[i]
    ensures StagesPlaced(calendars, fleet, plan, next, g.tasks, xs)
  {
    OtherStagesStay(calendars, fleet, plan, rows, next, plan.parent, g.tasks, xs);
  }

  lemma WithoutItsMachine(rows: seq<Row>, next: seq<Row>, parent: nat)
    requires parent < |rows| && next == rows[parent := rows[parent].(machine := None)]
    requires NoDoubleBooking(rows, {parent})
    ensures NoDoubleBooking(next, {})
  {
    forall i: nat, j: nat | i < j < |next|
      ensures !Clash(next[i], next[j])
    {
      assert i != parent && j != parent ==> !Clash(rows[i], rows[j]);
    }
  }

  predicate AllBelow(tasks: seq<nat>, n: nat) {
    forall i :: 0 <= i < |tasks| ==> tasks[i] < n
  }

  class RouteBoard {
    const calendars: Calendars
    const fleet: seq<nat>
    var rows: seq<Row>

    constructor (calendars: Calendars, fleet: seq<nat>, rows: seq<Row>)
      ensures this.calendars == calendars && this.fleet == fleet && this.rows == rows
    {
      this.calendars, this.fleet, this.rows := calendars, fleet, rows;
    }

    /** Choose a slot for one stage and write it to its task row: an open child of the parent, or a new one. */
    method PlaceStage(parent: nat, op: Operation, q: Request, a: Option<Assignment>, tasks: seq<nat>, n: nat)
        returns (r: Result<nat>, choice: Choice)
      requires parent < |rows| && rows[parent].parent.None? && n <= |rows| && (q.first ==> !q.blocked)
      requires forall t :: t in tasks ==> t < |rows|
      modifies this
      ensures r.Err? ==> rows == old(rows)
      ensures r.Ok? ==> |old(rows)| <= |rows| <= |old(rows)| + 1
      ensures r.Ok? ==> r.value < |rows| && r.value !in tasks && r.value != parent
      ensures r.Ok? ==> (if |rows| == |old(rows)| then r.value < n && old(rows)[r.value].parent == Some(parent)
                         else r.value == |old(rows)|)
      ensures r.Ok? ==> Wrote(old(rows), rows, parent, op.stage, r.value, choice)
      ensures r.Ok? ==> GoodChoice(calendars, old(rows), fleet, op, q, a,
                                   {parent} + if r.value < |old(rows)| then {r.value} else {}, choice)
      ensures r.Ok? && choice.slot.Some? ==> InShift(calendars, rows[r.value], op.duration)
      ensures old(NoDoubleBooking(rows, {parent})) ==> NoDoubleBooking(rows, {parent})
    {
      choice := Choice(None, None);
      var child := NextChild(rows, parent, op.stage, (set t | t in tasks), n);
      var exclude := {parent} + if child.Some? then {child.value} else {};
      var outcome := ChooseSlot(calendars, rows, fleet, op, q, a, exclude);
      if outcome.Err? {
        return Err(outcome.reason), choice;
      }
      choice := outcome.value;
      var task := if child.Some? then child.value else |rows|;
      ghost var before := rows;
      var row := TaskRow(parent, op.stage, choice);
      rows := if child.Some? then rows[task := row] else rows + [row];
      GoodChoiceKeepsBoard(calendars, before, fleet, op, q, a, exclude, choice, parent, task, rows);
      return Ok(task), choice;
    }

    /**
     * The planning loop: one task per operation, the first error stopping it with the stages placed so far in place.
     */
    method PlaceStages(plan: Plan)
        returns (r: Result<seq<nat>>, finalEnd: int, ghost g: Progress, ghost placements: seq<Placement>)
      requires plan.parent < |rows| && rows[plan.parent].parent.None?
      modifies this
      ensures PlacedInTurn(calendars, fleet, old(rows), rows, plan, g, placements)
      ensures PlacedSoFar(calendars, fleet, old(rows), rows, plan, g, placements)
      ensures r.Ok? ==> r.value == g.tasks && finalEnd == g.finalEnd && |g.tasks| == |plan.operations|
    {
      r, finalEnd, g, placements := PlaceInTurn(plan);
      TurnsMakeRoute(calendars, fleet, old(rows), rows, plan, g, placements);
    }

    method PlaceInTurn(plan: Plan)
        returns (r: Result<seq<nat>>, finalEnd: int, ghost g: Progress, ghost placements: seq<Placement>)
      requires plan.parent < |rows| && rows[plan.parent].parent.None?
      modifies this
      ensures PlacedInTurn(calendars, fleet, old(rows), rows, plan, g, placements)
      ensures r.Ok? ==> r.value == g.tasks && finalEnd == g.finalEnd && |g.tasks| == |plan.operations|
    {
      var n := |rows|;
      var tasks: seq<nat> := [];
      var previous, missing := plan.firstStart, false;
      finalEnd, placements := plan.firstStart, [];
      g := Progress([], 0, plan.firstStart, false, plan.firstStart);
      for k := 0 to |plan.operations|
        invariant n <= |rows| && rows[plan.parent] == old(rows)[plan.parent]
        invariant AllBelow(tasks, |rows|)
        invariant PlacedInTurn(calendars, fleet, old(rows), rows, plan, g, placements)
        invariant |placements| == |tasks| == k && (k == 0 ==> !missing)
        invariant g == Progress(tasks, g.cut, previous, missing, finalEnd)
      {
        var from := if plan.mode == Parallel then plan.firstStart else previous;
        var q := Request(k == 0, plan.firstMachine, plan.firstStart, from, plan.mode, missing);
        ghost var before := rows;
        var task, choice := PlaceNext(plan, plan.operations[k], q, tasks, n, old(rows), g, placements);
        if task.Err? {
          return Err(task.reason), finalEnd, g, placements;
        }
        placements := placements + [Placement(before, g, task.value, choice)];
        g := g.After(plan, task.value, choice);
        missing := missing || (plan.mode == Series && choice.machine.None?);
        tasks := tasks + [task.value];
        if choice.slot.Some? {
          previous := if plan.mode == Series then choice.slot.value.end else previous;
          finalEnd := Max(finalEnd, choice.slot.value.end);
        }
      }
      r := Ok(tasks);
    }

    /** One round of the loop: the next stage is placed behind those that are. */
    method PlaceNext(plan: Plan, op: Operation, q: Request, tasks: seq<nat>, n: nat,
                     ghost was: seq<Row>, ghost g: Progress, ghost xs: seq<Placement>)
        returns (r: Result<nat>, choice: Choice)
      requires plan.parent < |was| == n <= |rows| && rows[plan.parent].parent.None? && AllBelow(tasks, |rows|)
      requires |xs| == |tasks| < |plan.operations| && op == plan.operations[|tasks|]
      requires tasks == g.tasks && q == g.NextRequest(plan) && (q.first ==> !q.blocked)
      requires PlacedInTurn(calendars, fleet, was, rows, plan, g, xs)
      modifies this
      ensures r.Err? ==> rows == old(rows)
      ensures |old(rows)| <= |rows| && rows[plan.parent] == old(rows)[plan.parent]
      ensures r.Ok? ==> AllBelow(tasks + [r.value], |rows|)
      ensures r.Ok? ==>
        PlacedInTurn(calendars, fleet, was, rows, plan, g.After(plan, r.value, choice),
                     xs + [Placement(old(rows), g, r.value, choice)])
    {
      r, choice := PlaceStage(plan.parent, op, q, plan.AssignmentOf(op), tasks, n);
      if r.Ok? {
        PlacedOneMore(calendars, fleet, was, old(rows), plan, g, xs, rows, Placement(old(rows), g, r.value, choice));
      }
    }

    /** Plan every stage from the chosen one on; `placements` tells how each stage came to its slot. */
    method ScheduleFullRoute(parent: nat, routing: seq<Operation>, firstStage: Option<nat>, firstMachine: Option<nat>,
                             firstStart: int, assignments: map<nat, Assignment>, mode: FlowMode)
        returns (r: Result<seq<nat>>, finalEnd: int, ghost g: Progress, ghost placements: seq<Placement>)
      requires parent < |rows| && rows[parent].parent.None?
      modifies this
      ensures RouteFrom(routing, firstStage).Err? ==> r.Err? && rows == old(rows)
      ensures HasStarted(old(rows), parent) ==> r.Err? && rows == old(rows)
      ensures r.Err? ==> |old(rows)| <= |rows| && rows[parent] == old(rows)[parent]
      ensures r.Err? ==> forall i :: 0 <= i < |old(rows)| && old(rows)[i].parent != Some(parent) ==>
        rows[i] == old(rows)[i]
      ensures r.Err? && old(NoDoubleBooking(rows, {parent})) ==> NoDoubleBooking(rows, {parent})
      ensures r.Ok? ==> RouteFrom(routing, firstStage).Ok? && old(rows)[parent].status == Pending
      ensures r.Ok? ==> r.value == g.tasks && finalEnd == g.finalEnd
      ensures r.Ok? ==>
        var plan := Plan(parent, RouteFrom(routing, firstStage).value, mode, firstStart, firstMachine, assignments);
        RoutePlanned(calendars, fleet, old(rows), rows, plan, g, placements)
      ensures r.Ok? && old(NoDoubleBooking(rows, {parent})) ==> NoDoubleBooking(rows, {})
    {
      g, placements := Progress([], 0, firstStart, false, firstStart), [];
      var route := RouteFrom(routing, firstStage);
      if route.Err? {
        return Err(route.reason), firstStart, g, placements;
      }
      if HasStarted(rows, parent) {
        return Err("cannot plan all stages after execution has started"), firstStart, g, placements;
      }
      var plan := Plan(parent, route.value, mode, firstStart, firstMachine, assignments);
      r, finalEnd, g, placements := PlaceStages(plan);
      if r.Err? {
        return;
      }
      if rows[parent].status != Pending {
        r := Err("cannot schedule work order in this status");
        return;
      }
      ghost var placed := rows;
      rows := rows[parent := rows[parent].(machine := None)];
      ReleasingTheParentMachine(calendars, fleet, old(rows), placed, plan, g, placements, rows);
    }
  }

  function TaskRow(parent: nat, stage: nat, choice: Choice): Row {
    Row(Some(parent), Some(stage), choice.machine, Pending,
        if choice.slot.Some? then Some(choice.slot.value.start) else None,
        if choice.slot.Some? then Some(choice.slot.value.end) else None)
  }
}
