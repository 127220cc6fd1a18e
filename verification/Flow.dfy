/**
 * Work orders, production logs and quality checks, and the service calls on them as atomic steps.
 * A call either is done or fails; a failed call keeps what it had saved before the failure.
 * Times are seconds and progress a percentage, both rational.
 */
module Flow {
  import opened Common

  datatype Receipt = NotRequested | ReceiptPending | Received

  datatype LogStatus = Waiting | Approved | Rejected

  datatype Log = Log(order: nat, quantity: nat, status: LogStatus, completionRequested: bool)

  /** A quality check of an order: how much was faulty and how much of that the planner has dealt with. */
  datatype Check = Check(order: nat, processed: bool, faulty: nat, resolved: nat)

  /**
   * `kind` stands for the fields two orders must share to be combined: company, bill, product, customer and the like.
   */
  datatype Order = Order(
    parent: Option<nat>, source: Option<nat>, kind: nat, stage: nat, current: nat, parallel: bool,
      machine: Option<nat>, compensation: bool,
    quantity: nat, base: Option<nat>, extra: nat, released: nat,
    status: Status, closed: bool, plannerAction: bool, nextReady: bool, receipt: Receipt,
    start: Option<real>, end: Option<real>, progress: real
  ) {
    predicate Terminal() {
      status == Completed || status == Canceled || status == Archived
    }

    predicate Inactive() {
      status == Canceled || status == Archived
    }
  }

  /** `stages` is the length of the route: stage k is followed by k + 1. */
  datatype Plant = Plant(stages: nat, orders: seq<Order>, logs: seq<Log>, checks: seq<Check>) {
    predicate Has(o: nat) {
      o < |orders|
    }

    /** `o` has sub tasks. */
    predicate IsParent(o: nat) {
      exists i :: 0 <= i < |orders| && orders[i].parent == Some(o)
    }

    function Set(o: nat, x: Order): (r: Plant)
      requires Has(o)
      ensures Valid() && x.parent == orders[o].parent && x.source == orders[o].source ==> r.Valid()
    {
      this.(orders := orders[o := x])
    }

    function Add(x: Order): (r: Plant)
      ensures (Valid() && (x.parent.Some? ==> Has(x.parent.value) && orders[x.parent.value].parent.None?)
               && (x.source.Some? ==> Has(x.source.value))) ==> r.Valid()
    {
      this.(orders := orders + [x])
    }

    /** Reported output of an order in one review state. */
    function Reported(o: nat, s: LogStatus): nat {
      LogSum(logs, o, s)
    }

    /** References point at existing rows, and stage tasks hang below root orders only. */
    ghost predicate Valid() {
      && (forall i :: 0 <= i < |orders| && orders[i].parent.Some? ==>
            orders[i].parent.value < |orders| && orders[i].parent.value != i
              && orders[orders[i].parent.value].parent.None?)
      && (forall i :: 0 <= i < |orders| && orders[i].source.Some? ==> orders[i].source.value < |orders|)
      && (forall l :: 0 <= l < |logs| ==> logs[l].order < |orders|)
      && (forall c :: 0 <= c < |checks| ==> checks[c].order < |orders|)
    }
  }

  function LogSum(logs: seq<Log>, o: nat, s: LogStatus): nat {
    if logs == [] then 0
    else
      var last := logs[|logs| - 1];
      LogSum(logs[..|logs| - 1], o, s) + if last.order == o && last.status == s then last.quantity else 0
  }

  datatype Outcome = Done(plant: Plant) | Failed(plant: Plant, reason: string)

  // ---- shared pieces ----

  function RealMin(a: real, b: real): real {
    if a < b then a else b
  }

  function Monus(a: nat, b: nat): nat {
    if a < b then 0 else a - b
  }

  /** A set base quantity follows the current quantity. */
  function SyncBase(x: Order): Order {
    if x.base.None? then x else x.(base := Some(Monus(x.quantity, x.extra)))
  }

  /** The parent takes over the quantity of one of its tasks. */
  function SyncParentQuantity(p: Plant, o: nat): (r: Plant)
    requires p.Has(o)
    ensures p.Valid() ==> r.Valid()
    ensures |r.orders| == |p.orders| && r.logs == p.logs
  {
    var r := p.orders[o].parent;
    if r.None? || !p.Has(r.value) then p
    else p.Set(r.value, SyncBase(p.orders[r.value].(quantity := p.orders[o].quantity)))
  }

  /** Percentage of the quantity that is approved. */
  function ProgressOf(quantity: nat, approved: nat): real {
    if quantity == 0 then 100.0 else RealMin(100.0, approved as real / quantity as real * 100.0)
  }

  function EndBy(end: Option<real>, t: real): Option<real> {
    if end.None? || t < end.value then Some(t) else end
  }

  predicate HasDuration(x: Order) {
    x.start.Some? && x.end.Some? && x.start.value < x.end.value
  }

  function Scaled(length: real, now: nat, was: nat): real
    requires was > 0
  {
    length * now as real / was as real
  }

  /** Stretch or shrink the planned time with the quantity, to no less than a minute. */
  function Rescale(x: Order, was: nat, now: nat): Order {
    if !HasDuration(x) || was == 0 then x
    else
      var seconds := Scaled(x.end.value - x.start.value, now, was);
      x.(end := Some(x.start.value + if seconds < 60.0 then 60.0 else seconds))
  }

  // ---- the lifecycle ----

  /** Every child of `r` is completed; a canceled child is not. */
  predicate ChildrenCompleted(p: Plant, r: nat) {
    forall i :: 0 <= i < |p.orders| && p.orders[i].parent == Some(r) ==> p.orders[i].status == Completed
  }

  /** Legal status changes without a reopening. */
  predicate MayMove(p: Plant, o: nat, target: Status)
    requires p.Has(o)
  {
    var x := p.orders[o];
    (x.status == Pending && target == InProgress && !x.closed)
    || (x.status == InProgress && target == Completed && ChildrenCompleted(p, o))
  }

  /** Complete the parent and ask for the planner and the store. */
  function CompleteParent(p: Plant, r: nat, now: Option<real>): (z: Outcome)
    requires p.Has(r)
    ensures p.Valid() ==> z.plant.Valid()
    ensures |z.plant.orders| == |p.orders|
  {
    var x := p.orders[r];
    if x.status == Completed then Done(p)
    else if !MayMove(p, r, Completed) then Failed(p, "invalid transition")
    else
      var end := LatestChildEnd(p, r, |p.orders|);
      if end.None? && now.None? then Failed(p, "completion time undefined")
      else
        Done(p.Set(r, x.(status := Completed, progress := 100.0, end := if end.Some? then end else now,
                         nextReady := false,
                         plannerAction := !x.closed || x.plannerAction,
                         receipt := if (!x.closed || x.plannerAction) && x.receipt == NotRequested then ReceiptPending
                                    else x.receipt)))
  }

  function LatestChildEnd(p: Plant, r: nat, n: nat): Option<real>
    requires n <= |p.orders|
  {
    if n == 0 then None
    else
      var rest := LatestChildEnd(p, r, n - 1);
      var x := p.orders[n - 1];
      if x.parent == Some(r) && x.status == Completed && x.end.Some? && (rest.None? || rest.value < x.end.value)
        then x.end else rest
  }

  /** The parent's work goes on at the next stage: running again, undated, without machine. */
  function AdvanceParent(p: Plant, r: nat, stage: nat, ready: bool): (z: Plant)
    requires p.Has(r)
    ensures p.Valid() ==> z.Valid()
    ensures |z.orders| == |p.orders|
  {
    var x := p.orders[r];
    var status := if (x.status == Pending || x.status == Completed) && !x.closed then InProgress else x.status;
    var y := x.(status := status, current := stage, plannerAction := false, nextReady := ready, machine := None);
    p.Set(r, if x.parent.None? then y.(start := None, end := None, progress := 0.0) else y)
  }

  /** The first open task of `r` at stage `k`, by start date and then by id. */
  function OpenTaskAt(p: Plant, r: nat, k: nat, n: nat): (t: Option<nat>)
    requires n <= |p.orders|
    ensures t.Some? ==> (t.value < n && p.orders[t.value].parent == Some(r) && p.orders[t.value].stage == k
      && !p.orders[t.value].Terminal())
    ensures t.None? ==> forall i :: 0 <= i < n ==>
      !(p.orders[i].parent == Some(r) && p.orders[i].stage == k && !p.orders[i].Terminal())
  {
    if n == 0 then None
    else
      var rest := OpenTaskAt(p, r, k, n - 1);
      var x := p.orders[n - 1];
      if x.parent == Some(r) && x.stage == k && !x.Terminal()
         && (rest.None? || (x.start.Some? && p.orders[rest.value].start.Some?
                            && x.start.value < p.orders[rest.value].start.value))
      then Some(n - 1) else rest
  }

  /** What may become a task of the next stage: all of the parent's quantity, or what a quality check found good. */
  datatype Gate = Unchecked | Checked(good: nat)

  /** Active quantity already planned for `r` at stage `k`, over the first `n` orders. */
  function PlannedAt(p: Plant, r: nat, k: nat, n: nat): nat
    requires n <= |p.orders|
  {
    if n == 0 then 0
    else
      var x := p.orders[n - 1];
      PlannedAt(p, r, k, n - 1) + if x.parent == Some(r) && x.stage == k && !x.Inactive() then x.quantity else 0
  }

  /** The task created for the next stage. */
  function NextTask(p: Plant, o: nat, r: nat, quantity: nat): Order
    requires p.Has(o) && p.Has(r)
  {
    var x := p.orders[o];
    Order(Some(r), if x.parent.Some? then Some(o) else None, p.orders[r].kind, x.stage + 1, x.stage + 1,
          p.orders[r].parallel, None, x.compensation,
          quantity, None, 0, 0, Pending, false, false, false, NotRequested, None, None, 0.0)
  }

  /** The task is there; behind a quality check it counts as released. */
  function NextTaskAdded(p: Plant, o: nat, r: nat, gate: Gate, quantity: nat): (z: Plant)
    requires p.Has(o) && p.Has(r)
    ensures |z.orders| == |p.orders| + 1 && z.orders[r].parent == p.orders[r].parent
    ensures p.Valid() && p.orders[r].parent.None? ==> z.Valid()
  {
    var x, q := p.orders[o], p.Add(NextTask(p, o, r, quantity));
    if gate.Unchecked? then q else q.Set(o, x.(released := x.released + quantity))
  }

  /** Create the next stage's task for what is not planned there yet, and move the parent on. */
  function CreateNextTask(p: Plant, o: nat, r: nat, gate: Gate): (z: Plant)
    requires p.Has(o) && p.Has(r)
    ensures p.Valid() && p.orders[r].parent.None? ==> z.Valid()
  {
    var planned := PlannedAt(p, r, p.orders[o].stage + 1, |p.orders|);
    var quantity := Monus(if gate.Unchecked? then p.orders[r].quantity else Monus(gate.good, p.orders[o].released),
                          planned);
    if quantity == 0 then AdvanceParent(p, r, p.orders[o].stage + 1, false)
    else
      AdvanceParent(NextTaskAdded(p, o, r, gate, quantity), r, p.orders[o].stage + 1, true)
  }

  /** A finished stage task is closed; unless work remains at its stage, its parent moves on or completes. */
  function FinishStage(p: Plant, o: nat, create: Option<Gate>, now: real): (z: Outcome)
    requires p.Valid() && p.Has(o)
    ensures z.plant.Valid()
    ensures create.None? ==> |z.plant.orders| == |p.orders|
  {
    var x := p.orders[o];
    if x.parent.None? then AfterStage(p, o, o, create, now)
    else if x.status != Completed && !MayMove(p, o, Completed) then Failed(p, "invalid transition")
    else
      var r := x.parent.value;
      var q := p.Set(o, x.(status := Completed, progress := 100.0, end := EndBy(x.end, now)));
      if exists i :: (0 <= i < |q.orders| && q.orders[i].parent == Some(r) && q.orders[i].stage == x.stage
        && q.orders[i].status != Completed)
      then Done(q)
      else AfterStage(q, o, r, create, now)
  }

  function AfterStage(p: Plant, o: nat, r: nat, create: Option<Gate>, now: real): (z: Outcome)
    requires p.Has(o) && p.Has(r)
    ensures p.Valid() && (create.None? || p.orders[r].parent.None?) ==> z.plant.Valid()
    ensures create.None? ==> |z.plant.orders| == |p.orders|
  {
    var x := p.orders[o];
    var at := if x.parent.Some? then Some(now) else None;
    if p.orders[r].parallel && x.parent.Some? then
      if exists i :: 0 <= i < |p.orders| && p.orders[i].parent == Some(r) && !p.orders[i].Terminal() then Done(p)
      else CompleteParent(p, r, at)
    else if p.stages <= x.stage + 1 then CompleteParent(p, r, at)
    else
      var next := OpenTaskAt(p, r, x.stage + 1, |p.orders|);
      if next.Some? then Done(AdvanceParent(p, r, x.stage + 1, p.orders[next.value].machine.None?))
      else if create.None? then Done(p.Set(r, p.orders[r].(nextReady := true)))
      else Done(CreateNextTask(p, o, r, create.value))
  }

  /** The stage is finished and the planner starts the next one. */
  function NextStage(p: Plant, o: nat, now: real): (z: Outcome)
    requires p.Valid() && p.Has(o)
    ensures z.plant.Valid()
    ensures |z.plant.orders| == |p.orders|
  {
    FinishStage(p, o, None, now)
  }

  // ---- production logs ----

  /** A worker reports output; a pending order starts. */
  function CreateLog(p: Plant, o: nat, quantity: int, completion: bool, now: real): (z: Outcome)
    requires p.Has(o)
    ensures p.Valid() ==> z.plant.Valid()
  {
    var x := p.orders[o];
    if quantity <= 0 then Failed(p, "quantity must be positive")
    else if x.status != Pending && x.status != InProgress then Failed(p, "work order is not active")
    else if x.status == Pending && !MayMove(p, o, InProgress) then Failed(p, "closed work order cannot be re-opened")
    else if Monus(Monus(x.quantity, p.Reported(o, Approved)), p.Reported(o, Waiting)) < quantity
      then Failed(p, "quantity exceeds remaining work")
    else
      var y := if x.status == Pending then x.(status := InProgress, start := Some(now)) else x;
      Done(p.Set(o, y).(logs := p.logs + [Log(o, quantity, Waiting, completion)]))
  }

  function SetLog(p: Plant, l: nat, s: LogStatus): (z: Plant)
    requires l < |p.logs|
    ensures p.Valid() ==> z.Valid()
  {
    p.(logs := p.logs[l := p.logs[l].(status := s)])
  }

  function RejectLog(p: Plant, l: nat): Outcome
    requires l < |p.logs|
  {
    Done(SetLog(p, l, Rejected))
  }

  /**
   * A supervisor approves a log. What remains of the order is split off for reassignment when the
   * worker is done with it (`completionRequested`, whatever else is waiting) or when nothing else is waiting.
   */
  function ApproveLog(p: Plant, l: nat, target: Option<nat>, slot: Slot, now: real): (z: Outcome)
    requires p.Valid() && l < |p.logs|
    ensures z.plant.Valid()
  {
    if p.logs[l].status == Approved then Done(p)
    else AfterApproval(SetLog(p, l, Approved), p.logs[l].order, p.logs[l].completionRequested, target, slot, now)
  }

  /** What happens to order `o` once one of its logs is approved. */
  function AfterApproval(p: Plant, o: nat, completion: bool, target: Option<nat>, slot: Slot, now: real): (z: Outcome)
    requires p.Valid() && p.Has(o)
    ensures z.plant.Valid()
  {
    var x := p.orders[o];
    var rest := Monus(x.quantity, p.Reported(o, Approved));
    if x.Inactive() then Done(p)
    else if completion && rest == 0 then NextStage(p.Set(o, x.(end := EndBy(x.end, now))), o, now)
    else if completion || (rest > 0 && p.Reported(o, Waiting) == 0 && !p.IsParent(o)) then
      if x.compensation || target.None? then Done(p)
      else
        var s := Split(p, o, rest, target.value, Some(now), slot, now);
        if completion then (if s.Failed? then Done(s.plant) else NextStage(s.plant, o, now))
        else if s.Failed? then FinishIfCovered(s.plant, o, now)
        else Done(s.plant)
    else FinishIfCovered(p, o, now)
  }

  /** Once the approved output covers the order, close it and move on. */
  function FinishIfCovered(p: Plant, o: nat, now: real): (z: Outcome)
    requires p.Valid() && p.Has(o)
    ensures z.plant.Valid()
  {
    var x := p.orders[o];
    if x.quantity <= p.Reported(o, Approved) && !p.IsParent(o)
      then NextStage(p.Set(o, x.(end := EndBy(x.end, now))), o, now)
    else Done(p)
  }

  // ---- splitting and joining ----

  /** Where the scheduler puts the split-off order. */
  datatype Slot = Slot(start: real, end: real)

  /** The planned end in proportion to the quantity that stays, cut short by a finish time. */
  function ShrunkEnd(x: Order, quantity: nat, finish: Option<real>): Option<real>
    requires quantity <= x.quantity
  {
    var seconds := if HasDuration(x)
      then Scaled(x.end.value - x.start.value, x.quantity - quantity, Max(x.quantity, 1)) else 0.0;
    var end := if HasDuration(x) then Some(x.start.value + seconds) else x.end;
    if finish.None? then end
    else EndBy(end, if x.start.Some? && finish.value < x.start.value then x.start.value else finish.value)
  }

  /** The order that keeps what is not split off. */
  function Shrunk(x: Order, quantity: nat, approved: nat, finish: Option<real>): (y: Order)
    requires quantity <= x.quantity
    ensures y == x.(quantity := x.quantity - quantity, base := y.base, end := y.end, progress := y.progress)
  {
    SyncBase(x.(quantity := x.quantity - quantity)).(
      end := ShrunkEnd(x, quantity, finish), progress := ProgressOf(x.quantity - quantity, approved))
  }

  /** The split-off order: same stage and parent, the original as its source. */
  function SplitOff(x: Order, o: nat, quantity: nat, machine: nat, slot: Slot): Order {
    Order(x.parent, Some(o), x.kind, x.stage, x.current, x.parallel, Some(machine), x.compensation,
          quantity, Some(quantity), 0, 0, Pending, false, false, false, NotRequested,
          Some(slot.start), Some(slot.end), 0.0)
  }

  /** The order is an active leaf and has that much left beyond its approved output. */
  predicate Splittable(p: Plant, o: nat, quantity: int)
    requires p.Has(o)
  {
    !p.IsParent(o) && !p.orders[o].Terminal() && 0 < quantity <= Monus(p.orders[o].quantity, p.Reported(o, Approved))
  }

  function Split(p: Plant, o: nat, quantity: int, machine: nat, finish: Option<real>, slot: Slot,
                 now: real): (r: Outcome)
    requires p.Valid() && p.Has(o)
    ensures r.plant.Valid() && r.plant.Has(o)
    ensures Splittable(p, o, quantity) ==> |r.plant.orders| == |p.orders| + 1
    ensures !Splittable(p, o, quantity) ==> r.Failed? && r.plant == p
  {
    if !Splittable(p, o, quantity) then Failed(p, "cannot split this quantity off")
    else
      var x := p.orders[o];
      var approved := p.Reported(o, Approved);
      var shrunk := p.Set(o, Shrunk(x, quantity, approved, finish));
      assert shrunk.Valid();
      var q := SyncParentQuantity(shrunk, o).Add(SplitOff(x, o, quantity, machine, slot));
      CloseAfterSplit(q, o, approved, now)
  }

  /** An order left with nothing to do after a split is completed. */
  function CloseAfterSplit(p: Plant, o: nat, approved: nat, now: real): (r: Outcome)
    requires p.Valid() && p.Has(o)
    ensures r.plant.Valid() && |r.plant.orders| == |p.orders|
  {
    var x := p.orders[o];
    if x.quantity <= approved && (x.status == Pending || x.status == InProgress) then
      if x.status == Pending && x.closed then Failed(p, "closed work order cannot be re-opened")
      else if !ChildrenCompleted(p, o) then Failed(p, "child stage tasks are still open")
      else
        var q := p.Set(o, x.(status := Completed, end := EndBy(x.end, now)));
        if approved > 0 then NextStage(q, o, now) else Done(q)
    else Done(p)
  }

  predicate HasLogs(p: Plant, o: nat) {
    exists l :: 0 <= l < |p.logs| && p.logs[l].order == o
  }

  predicate Compatible(x: Order, y: Order) {
    && x.kind == y.kind && x.stage == y.stage && x.current == y.current
    && x.parent == y.parent && x.parallel == y.parallel
  }

  /** The oldest active compatible order other than `s` itself. */
  function Sibling(p: Plant, s: nat, n: nat): (t: Option<nat>)
    requires p.Has(s) && n <= |p.orders|
    ensures t.Some? ==> (t.value < n && t.value != s && Compatible(p.orders[t.value], p.orders[s])
      && !p.orders[t.value].Terminal())
  {
    if n == 0 then None
    else
      var rest := Sibling(p, s, n - 1);
      if rest.Some? then rest
      else if n - 1 != s && Compatible(p.orders[n - 1], p.orders[s]) && !p.orders[n - 1].Terminal() then Some(n - 1)
      else None
  }

  /** Who receives a canceled split's quantity: the chosen order, else the source, else a sibling. */
  function ReturnTarget(p: Plant, s: nat, chosen: Option<nat>): (t: Option<nat>)
    requires p.Valid() && p.Has(s)
    ensures t.Some? ==> p.Has(t.value)
  {
    if chosen.Some? then
      if p.Has(chosen.value) && Compatible(p.orders[chosen.value], p.orders[s]) then chosen else None
    else
      var source := p.orders[s].source;
      if source.Some? && !p.orders[source.value].Terminal() then source else Sibling(p, s, |p.orders|)
  }

  /** An order whose quantity was changed from `was` by joining. */
  function Grown(x: Order, quantity: nat, approved: nat): (y: Order)
    ensures y == x.(quantity := quantity, base := y.base, end := y.end, progress := y.progress)
  {
    Rescale(SyncBase(x.(quantity := quantity)), x.quantity, quantity).(progress := ProgressOf(quantity, approved))
  }

  function CanceledOrder(x: Order, now: real): Order {
    x.(status := Canceled, end := Some(now))
  }

  /** Why the split `s` cannot be canceled, if it cannot. */
  function CancelError(p: Plant, s: nat, chosen: Option<nat>): (e: Option<string>)
    requires p.Valid() && p.Has(s)
    ensures e.None? ==> !p.IsParent(s) && !p.orders[s].Terminal() && !HasLogs(p, s)
    ensures e.None? ==> ReturnTarget(p, s, chosen).Some? && ReturnTarget(p, s, chosen).value != s
    ensures e.None? ==> (!p.orders[ReturnTarget(p, s, chosen).value].Terminal()
      && !p.orders[ReturnTarget(p, s, chosen).value].closed)
  {
    var x := p.orders[s];
    if p.IsParent(s) then Some("cannot cancel split on a parent work order")
    else if x.Terminal() then Some("cannot cancel a completed or inactive split")
    else if HasLogs(p, s) then Some("cannot cancel split after production logs exist")
    else if x.source.None? && x.parent.None? then Some("not linked to a split group")
    else
      var t := ReturnTarget(p, s, chosen);
      if t.None? then Some("no compatible active work order")
      else if t.value == s then Some("cannot be returned to the same work order")
      else if p.orders[t.value].Terminal() then Some("return target is completed or inactive")
      else if p.orders[t.value].closed then Some("return target is closed")
      else None
  }

  /** The target becomes `y`, its parent follows, and the split is canceled. */
  function ReturnTo(p: Plant, s: nat, t: nat, y: Order, now: real): (z: Plant)
    requires p.Has(s) && p.Has(t)
    ensures p.Valid() && y.parent == p.orders[t].parent && y.source == p.orders[t].source ==> z.Valid()
  {
    var q := SyncParentQuantity(p.Set(t, y), t);
    q.Set(s, CanceledOrder(q.orders[s], now))
  }

  /** The return target with the quantity of the split. */
  function TakenBack(p: Plant, s: nat, t: nat): (y: Order)
    requires p.Has(s) && p.Has(t)
    ensures y == p.orders[t].(quantity := p.orders[t].quantity + p.orders[s].quantity, base := y.base, end := y.end,
                              progress := y.progress)
  {
    Grown(p.orders[t], p.orders[t].quantity + p.orders[s].quantity, p.Reported(t, Approved))
  }

  function CancelSplit(p: Plant, s: nat, chosen: Option<nat>, now: real): (z: Outcome)
    requires p.Valid() && p.Has(s)
    ensures z.plant.Valid()
  {
    var e := CancelError(p, s, chosen);
    if e.Some? then Failed(p, e.value)
    else
      var t := ReturnTarget(p, s, chosen).value;
      Done(ReturnTo(p, s, t, TakenBack(p, s, t), now))
  }

  /** Quantities of the first `n` orders of the set together. */
  function TotalQuantity(p: Plant, ids: seq<nat>, n: nat): nat
    requires n <= |ids| && forall i :: 0 <= i < |ids| ==> ids[i] < |p.orders|
  {
    if n == 0 then 0 else TotalQuantity(p, ids, n - 1) + p.orders[ids[n - 1]].quantity
  }

  /** Cancel the first `n` orders of the set, except the target. */
  function CancelSources(p: Plant, ids: seq<nat>, n: nat, target: nat, now: real): (z: Plant)
    requires n <= |ids| && forall i :: 0 <= i < |ids| ==> ids[i] < |p.orders|
    ensures |z.orders| == |p.orders| && (p.Valid() ==> z.Valid())
  {
    if n == 0 then p
    else
      var q := CancelSources(p, ids, n - 1, target, now);
      if ids[n - 1] == target then q else q.Set(ids[n - 1], CanceledOrder(q.orders[ids[n - 1]], now))
  }

  /** The orders may be merged into `target`. */
  predicate Combinable(p: Plant, ids: seq<nat>, target: nat)
    requires forall i :: 0 <= i < |ids| ==> ids[i] < |p.orders|
  {
    && |ids| >= 2 && target in ids
    && forall i :: 0 <= i < |ids| ==>
         && !p.IsParent(ids[i]) && !p.orders[ids[i]].Terminal() && !p.orders[ids[i]].closed
         && Compatible(p.orders[ids[i]], p.orders[ids[0]])
         && (ids[i] != target ==> !HasLogs(p, ids[i]))
  }

  /** Merge distinct orders into one of them; the others are canceled. */
  function Combine(p: Plant, ids: seq<nat>, target: nat, now: real): (z: Outcome)
    requires p.Valid() && forall i :: 0 <= i < |ids| ==> ids[i] < |p.orders|
    requires forall i, j :: 0 <= i < j < |ids| ==> ids[i] != ids[j]
    ensures z.plant.Valid()
  {
    if !Combinable(p, ids, target) then Failed(p, "work orders cannot be combined")
    else
      var y := Grown(p.orders[target], TotalQuantity(p, ids, |ids|), p.Reported(target, Approved));
      Done(CancelSources(SyncParentQuantity(p.Set(target, y), target), ids, |ids|, target, now))
  }

  // ---- releasing to the next stage ----

  /** The task a partial lot becomes at the next stage. */
  function ReleasedTask(p: Plant, o: nat, r: nat, quantity: nat, machine: Option<nat>): Order
    requires p.Has(o) && p.Has(r)
  {
    var x := p.orders[o];
    Order(Some(r), Some(o), p.orders[r].kind, x.stage + 1, x.stage + 1, p.orders[r].parallel, machine, x.compensation,
          quantity, None, 0, 0, Pending, false, false, false, NotRequested, None, None, 0.0)
  }

  /** A new task for the lot, which counts as released; the parent moves on. */
  function LotReleased(p: Plant, o: nat, r: nat, quantity: nat, machine: Option<nat>): (z: Plant)
    requires p.Has(o) && p.Has(r)
    ensures p.Valid() && p.orders[r].parent.None? ==> z.Valid()
  {
    var x := p.orders[o];
    AdvanceParent(p.Add(ReleasedTask(p, o, r, quantity, machine)).Set(o, x.(released := x.released + quantity)), r,
                  x.stage + 1, false)
  }

  function Release(p: Plant, o: nat, quantity: int, machine: Option<nat>): (z: Outcome)
    requires p.Valid() && p.Has(o)
    ensures z.plant.Valid()
  {
    var x := p.orders[o];
    var r := if x.parent.Some? then x.parent.value else o;
    if p.IsParent(o) then Failed(p, "cannot release from a parent work order")
    else if x.Inactive() then Failed(p, "cannot release from an inactive work order")
    else if quantity <= 0 then Failed(p, "release quantity must be positive")
    else if p.stages <= x.stage + 1 then Failed(p, "no next stage")
    else if Monus(p.Reported(o, Approved), x.released) < quantity
      then Failed(p, "release quantity exceeds available output")
    else
      Done(LotReleased(p, o, r, quantity, machine))
  }

  // ---- scrap ----

  /** The order whose target a check's scrap changes. */
  function ScrapOrder(p: Plant, c: nat): (r: nat)
    requires p.Valid() && c < |p.checks|
    ensures p.Has(r)
  {
    var o := p.checks[c].order;
    if p.orders[o].parent.Some? then p.orders[o].parent.value else o
  }

  function OpenScrap(c: Check): nat {
    Monus(c.faulty, c.resolved)
  }

  predicate ScrapBlocked(p: Plant, c: nat, quantity: int)
    requires p.Valid() && c < |p.checks|
  {
    var x := p.orders[ScrapOrder(p, c)];
    quantity <= 0 || !p.checks[c].processed || x.Inactive() || x.closed || OpenScrap(p.checks[c]) < quantity
  }

  /** Base quantity of an order, derived when it was never set. */
  function BaseOf(x: Order): nat {
    if x.base.Some? then x.base.value else Monus(x.quantity, x.extra)
  }

  function Resolve(p: Plant, c: nat, quantity: nat): (z: Plant)
    requires c < |p.checks|
    ensures p.Valid() ==> z.Valid()
  {
    p.(checks := p.checks[c := p.checks[c].(resolved := p.checks[c].resolved + quantity)])
  }

  /** The target of a compensation: larger, running again if it was completed, without planner action or end. */
  function Compensated(x: Order, quantity: nat): Order {
    x.(base := Some(BaseOf(x)), quantity := x.quantity + quantity, extra := x.extra + quantity,
       status := if x.status == Completed then InProgress else x.status, plannerAction := false, end := None)
  }

  /** The task that makes up for scrap of stage task `o`. */
  function Replenishment(p: Plant, o: nat, r: nat, quantity: nat): Order
    requires p.Has(o) && p.Has(r)
  {
    Order(Some(r), Some(o), p.orders[r].kind, p.orders[o].stage, p.orders[o].stage, p.orders[r].parallel, None, true,
          quantity, None, 0, 0, Pending, false, false, false, NotRequested, None, None, 0.0)
  }

  /** Scrap is made good: the target grows, and a stage check gets a replenishment task. */
  function Compensate(p: Plant, c: nat, quantity: int): (z: Outcome)
    requires p.Valid() && c < |p.checks|
    ensures z.plant.Valid()
  {
    if ScrapBlocked(p, c, quantity) then Failed(p, "scrap cannot be compensated")
    else
      var r := ScrapOrder(p, c);
      var x := p.orders[r];
      var o := p.checks[c].order;
      var q := p.Set(r, Compensated(x, quantity));
      Done(Resolve(if p.orders[o].parent.Some? then q.Add(Replenishment(p, o, r, quantity)) else q, c, quantity))
  }

  /** The target of an acceptance: its base shrinks, but not below nothing. */
  function Reduced(x: Order, quantity: nat): Order {
    var base := Monus(BaseOf(x), quantity);
    x.(base := Some(base), quantity := base + x.extra)
  }

  /** Scrap is accepted as a loss: the target shrinks. */
  function AcceptScrap(p: Plant, c: nat, quantity: int): (z: Outcome)
    requires p.Valid() && c < |p.checks|
    ensures z.plant.Valid()
  {
    if ScrapBlocked(p, c, quantity) || p.orders[ScrapOrder(p, c)].quantity < quantity
      then Failed(p, "scrap cannot be accepted")
    else
      var r := ScrapOrder(p, c);
      Done(Resolve(p.Set(r, Reduced(p.orders[r], quantity)), c, quantity))
  }

  // ---- status changes, parent completion, planner close ----

  function Transition(p: Plant, o: nat, target: Status): (z: Outcome)
    requires p.Has(o)
    ensures p.Valid() ==> z.plant.Valid()
  {
    if p.orders[o].status == target then Done(p)
    else if !MayMove(p, o, target) then Failed(p, "invalid transition")
    else Done(p.Set(o, p.orders[o].(status := target)))
  }

  /** One parent of the reconciliation pass: completed once all children are and no stage is left. */
  function SyncParent(p: Plant, r: nat, now: real): (z: Outcome)
    requires p.Has(r)
    ensures p.Valid() ==> z.plant.Valid()
  {
    var x := p.orders[r];
    if !p.IsParent(r) || x.Inactive() || x.status == Hold || !ChildrenCompleted(p, r) then Done(p)
    else if !x.parallel && x.current + 1 < p.stages then Done(p.Set(r, x.(plannerAction := false)))
    else if x.status == Pending && x.closed then Failed(p, "closed work order cannot be re-opened")
    else
      var isNew := x.status != Completed;
      var end := LatestChildEnd(p, r, |p.orders|);
      var action := (x.parent.None? && isNew && !x.closed) || x.plannerAction;
      Done(p.Set(r, x.(status := Completed, progress := 100.0, end := if end.Some? then end else Some(now),
                       plannerAction := action,
                       receipt := if x.parent.None? && action && x.receipt == NotRequested then ReceiptPending
                                  else x.receipt)))
  }

  /** The store confirms what it received. */
  function ConfirmReceipt(p: Plant, r: nat): (z: Outcome)
    requires p.Has(r)
    ensures p.Valid() ==> z.plant.Valid()
  {
    if p.orders[r].parent.Some? then Failed(p, "not a root work order")
      else Done(p.Set(r, p.orders[r].(receipt := Received)))
  }

  /** No completed child of `r` ends after the close. */
  function CapChildEnds(p: Plant, r: nat, now: real): (z: Plant)
    ensures |z.orders| == |p.orders| && (p.Valid() ==> z.Valid())
  {
    p.(orders := seq(|p.orders|, i requires 0 <= i < |p.orders| =>
      var x := p.orders[i];
      if x.parent == Some(r) && x.status == Completed && x.end.Some? && now < x.end.value then x.(end := Some(now))
        else x))
  }

  function Close(p: Plant, r: nat, requireReady: bool, now: real): (z: Outcome)
    requires p.Has(r)
    ensures p.Valid() ==> z.plant.Valid()
  {
    var x := p.orders[r];
    if x.parent.Some? then Failed(p, "only parent work orders can be closed")
    else if x.status != Completed then Failed(p, "must be completed before planner close")
    else if !ChildrenCompleted(p, r) then Failed(p, "child stage tasks are still open")
    else if requireReady && !x.plannerAction then Failed(p, "not ready to close")
    else if x.receipt != Received then Failed(p, "store must confirm receipt")
    else Done(CapChildEnds(p.Set(r, x.(plannerAction := false, closed := true, end := EndBy(x.end, now))), r, now))
  }
}
