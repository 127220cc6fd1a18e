/**
 * The service calls as they work on the tables: rows are read, changed and saved one after the other.
 * Each call is proved to have exactly the effect of the function of the same name on the state,
 * and to keep the laws that are proved of that effect.
 */
module FlowService {
  import opened Common
  import F = Flow
  import opened FlowInvariant
  import opened FlowCombine
  import opened FlowRuns
  import opened FlowConservation
  import opened FlowUndo
  import opened FlowScrap
  import opened FlowLifecycle
  import opened FlowLaws

  class Shop {
    const stages: nat
    var orders: seq<F.Order>
    var logs: seq<F.Log>
    var checks: seq<F.Check>

    constructor (stages: nat)
      ensures this.stages == stages && orders == [] && logs == [] && checks == []
    {
      this.stages := stages;
      orders, logs, checks := [], [], [];
    }

    function State(): F.Plant
      reads this
    {
      F.Plant(stages, orders, logs, checks)
    }

    /** The state, and the error if the call failed. */
    function Result(error: Option<string>): F.Outcome
      reads this
    {
      if error.None? then F.Done(State()) else F.Failed(State(), error.value)
    }

    method Save(o: nat, x: F.Order)
      requires o < |orders|
      modifies this`orders
      ensures State() == old(State()).Set(o, x)
    {
      orders := orders[o := x];
    }

    method Insert(x: F.Order)
      modifies this`orders
      ensures State() == old(State()).Add(x)
    {
      orders := orders + [x];
    }

    // ---- queries over the tables ----

    /** Approved or waiting output of an order, by running over its logs. */
    method Reported(o: nat, s: F.LogStatus) returns (n: nat)
      ensures n == State().Reported(o, s)
    {
      n := 0;
      for l := 0 to |logs|
        invariant n == F.LogSum(logs[..l], o, s)
      {
        assert logs[..l + 1][..l] == logs[..l];
        if logs[l].order == o && logs[l].status == s {
          n := n + logs[l].quantity;
        }
      }
      assert logs[..|logs|] == logs;
    }

    method HasSubTasks(o: nat) returns (b: bool)
      ensures b == State().IsParent(o)
    {
      b := exists i :: 0 <= i < |orders| && orders[i].parent == Some(o);
    }

    method HasProductionLogs(o: nat) returns (b: bool)
      ensures b == F.HasLogs(State(), o)
    {
      b := exists l :: 0 <= l < |logs| && logs[l].order == o;
    }

    /** Some task of the order is not completed, be it canceled. */
    method HasOpenTasks(r: nat) returns (b: bool)
      ensures b == !F.ChildrenCompleted(State(), r)
    {
      b := exists i :: 0 <= i < |orders| && orders[i].parent == Some(r) && orders[i].status != Completed;
    }

    method LatestChildEnd(r: nat) returns (end: Option<real>)
      ensures end == F.LatestChildEnd(State(), r, |orders|)
    {
      end := None;
      for i := 0 to |orders|
        invariant end == F.LatestChildEnd(State(), r, i)
      {
        var x := orders[i];
        if x.parent == Some(r) && x.status == Completed && x.end.Some? && (end.None? || end.value < x.end.value) {
          end := x.end;
        }
      }
    }

    /** The open task of `r` at a stage that starts first. */
    method OpenTaskAt(r: nat, stage: nat) returns (t: Option<nat>)
      ensures t == F.OpenTaskAt(State(), r, stage, |orders|)
    {
      t := None;
      for i := 0 to |orders|
        invariant t == F.OpenTaskAt(State(), r, stage, i)
      {
        var x := orders[i];
        if x.parent == Some(r) && x.stage == stage && !x.Terminal() {
          if t.None? || (x.start.Some? && orders[t.value].start.Some? && x.start.value < orders[t.value].start.value) {
            t := Some(i);
          }
        }
      }
    }

    method PlannedAt(r: nat, stage: nat) returns (n: nat)
      ensures n == F.PlannedAt(State(), r, stage, |orders|)
    {
      n := 0;
      for i := 0 to |orders|
        invariant n == F.PlannedAt(State(), r, stage, i)
      {
        var x := orders[i];
        if x.parent == Some(r) && x.stage == stage && !x.Inactive() {
          n := n + x.quantity;
        }
      }
    }

    /** The oldest open order that agrees with `s` in everything that matters. */
    method Sibling(s: nat) returns (t: Option<nat>)
      requires s < |orders|
      ensures t == F.Sibling(State(), s, |orders|)
    {
      t := None;
      for i := 0 to |orders|
        invariant t == F.Sibling(State(), s, i)
      {
        if t.None? && i != s && F.Compatible(orders[i], orders[s]) && !orders[i].Terminal() {
          t := Some(i);
        }
      }
    }

    method MayMove(o: nat, target: Status) returns (allowed: bool)
      requires o < |orders|
      ensures allowed == F.MayMove(State(), o, target)
    {
      var x := orders[o];
      if x.status == Pending && target == InProgress {
        return !x.closed;
      }
      if x.status == InProgress && target == Completed {
        var open := HasOpenTasks(o);
        return !open;
      }
      return false;
    }

    // ---- changes of one row ----

    /** A set base quantity follows the quantity. */
    static method SyncBase(x: F.Order) returns (y: F.Order)
      ensures y == F.SyncBase(x)
    {
      if x.base.None? {
        return x;
      }
      return x.(base := Some(Max(x.quantity - x.extra, 0)));
    }

    /** Stretch or shrink the planned time with the quantity. */
    static method RescaleDuration(x: F.Order, was: nat, now: nat) returns (y: F.Order)
      ensures y == F.Rescale(x, was, now)
    {
      if x.start.None? || x.end.None? || x.end.value <= x.start.value || was == 0 {
        return x;
      }
      var seconds := F.Scaled(x.end.value - x.start.value, now, was);
      if seconds < 60.0 {
        seconds := 60.0;
      }
      return x.(end := Some(x.start.value + seconds));
    }

    static method RecalculateProgress(x: F.Order, approved: nat) returns (y: F.Order)
      ensures y == x.(progress := F.ProgressOf(x.quantity, approved))
    {
      if x.quantity == 0 {
        return x.(progress := 100.0);
      }
      var percent := approved as real / x.quantity as real * 100.0;
      if percent < 100.0 {
        return x.(progress := percent);
      }
      return x.(progress := 100.0);
    }

    static method EndBy(x: F.Order, t: real) returns (y: F.Order)
      ensures y == x.(end := F.EndBy(x.end, t))
    {
      if x.end.None? || t < x.end.value {
        return x.(end := Some(t));
      }
      return x;
    }

    /** An order takes another quantity, with base, planned time and progress following. */
    method Grow(o: nat, quantity: nat) returns (y: F.Order)
      requires o < |orders|
      ensures y == F.Grown(orders[o], quantity, State().Reported(o, F.Approved))
    {
      var was := orders[o].quantity;
      y := orders[o].(quantity := quantity);
      y := SyncBase(y);
      y := RescaleDuration(y, was, quantity);
      var approved := Reported(o, F.Approved);
      y := RecalculateProgress(y, approved);
    }

    /** The planned end in proportion to the quantity that stays; a finish time may cut it short. */
    static method ShrinkEnd(x: F.Order, quantity: nat, finish: Option<real>) returns (end: Option<real>)
      requires quantity <= x.quantity
      ensures end == F.ShrunkEnd(x, quantity, finish)
    {
      end := x.end;
      if x.start.Some? && x.end.Some? && x.start.value < x.end.value {
        var seconds := F.Scaled(x.end.value - x.start.value, x.quantity - quantity, Max(x.quantity, 1));
        end := Some(x.start.value + seconds);
      }
      if finish.Some? {
        var at := if x.start.Some? && finish.value < x.start.value then x.start.value else finish.value;
        if end.None? || at < end.value {
          end := Some(at);
        }
      }
    }

    /** An order gives part of its quantity away. */
    static method Shrink(x: F.Order, quantity: nat, approved: nat, finish: Option<real>) returns (y: F.Order)
      requires quantity <= x.quantity
      ensures y == F.Shrunk(x, quantity, approved, finish)
    {
      var end := ShrinkEnd(x, quantity, finish);
      y := SyncBase(x.(quantity := x.quantity - quantity));
      assert y.quantity == x.quantity - quantity;
      y := RecalculateProgress(y.(end := end), approved);
    }

    method SyncParentQuantity(o: nat)
      requires o < |orders|
      modifies this`orders
      ensures State() == F.SyncParentQuantity(old(State()), o)
    {
      var r := orders[o].parent;
      if r.Some? && r.value < |orders| {
        var x := orders[r.value].(quantity := orders[o].quantity);
        x := SyncBase(x);
        Save(r.value, x);
      }
    }

    // ---- stages ----

    method CompleteParent(r: nat, now: Option<real>) returns (error: Option<string>)
      requires r < |orders|
      modifies this`orders
      ensures Result(error) == F.CompleteParent(old(State()), r, now)
    {
      var x := orders[r];
      if x.status == Completed {
        return None;
      }
      var allowed := MayMove(r, Completed);
      if !allowed {
        return Some("invalid transition");
      }
      x := x.(status := Completed);
      x := x.(progress := 100.0);
      var end := LatestChildEnd(r);
      if end.None? && now.None? {
        return Some("completion time undefined");
      }
      x := x.(end := if end.Some? then end else now);
      if !x.closed {
        x := x.(plannerAction := true);
      }
      x := x.(nextReady := false);
      if x.plannerAction && x.receipt == F.NotRequested {
        x := x.(receipt := F.ReceiptPending);
      }
      Save(r, x);
      return None;
    }

    method AdvanceParent(r: nat, stage: nat, ready: bool)
      requires r < |orders|
      modifies this`orders
      ensures State() == F.AdvanceParent(old(State()), r, stage, ready)
    {
      var x := orders[r];
      x := x.(current := stage);
      if (x.status == Pending || x.status == Completed) && !x.closed {
        x := x.(status := InProgress);
      }
      x := x.(plannerAction := false);
      x := x.(nextReady := ready);
      x := x.(machine := None);
      if x.parent.None? {
        x := x.(start := None, end := None, progress := 0.0);
      }
      Save(r, x);
    }

    method CreateNextTask(o: nat, r: nat, gate: F.Gate)
      requires o < |orders| && r < |orders|
      modifies this`orders
      ensures State() == F.CreateNextTask(old(State()), o, r, gate)
    {
      var stage := orders[o].stage + 1;
      var planned := PlannedAt(r, stage);
      var available := match gate
        case Unchecked => orders[r].quantity
        case Checked(good) => F.Monus(good, orders[o].released);
      var quantity := F.Monus(available, planned);
      if quantity > 0 {
        InsertNextTask(o, r, gate, quantity);
      }
      AdvanceParent(r, stage, quantity > 0);
    }

    method InsertNextTask(o: nat, r: nat, gate: F.Gate, quantity: nat)
      requires o < |orders| && r < |orders|
      modifies this`orders
      ensures State() == F.NextTaskAdded(old(State()), o, r, gate, quantity)
    {
      var x, parent := orders[o], orders[r];
      var source := if x.parent.Some? then Some(o) else None;
      Insert(F.Order(Some(r), source, parent.kind, x.stage + 1, x.stage + 1, parent.parallel, None, x.compensation,
                     quantity, None, 0, 0, Pending, false, false, false, F.NotRequested, None, None, 0.0));
      if gate.Checked? {
        Save(o, x.(released := x.released + quantity));
      }
    }

    method AfterStage(o: nat, r: nat, create: Option<F.Gate>, now: real) returns (error: Option<string>)
      requires o < |orders| && r < |orders|
      modifies this`orders
      ensures Result(error) == F.AfterStage(old(State()), o, r, create, now)
    {
      var x := orders[o];
      var at := if x.parent.Some? then Some(now) else None;
      if orders[r].parallel && x.parent.Some? {
        if exists i :: 0 <= i < |orders| && orders[i].parent == Some(r) && !orders[i].Terminal() {
          return None;
        }
        error := CompleteParent(r, at);
      } else if stages <= x.stage + 1 {
        error := CompleteParent(r, at);
      } else {
        StartNextStage(o, r, create);
        error := None;
      }
    }

    /** The task of the next stage takes over, or is asked for, or is created. */
    method StartNextStage(o: nat, r: nat, create: Option<F.Gate>)
      requires o < |orders| && r < |orders|
      modifies this`orders
      ensures var p := old(State());
        var next := F.OpenTaskAt(p, r, p.orders[o].stage + 1, |p.orders|);
        State() ==
          if next.Some? then F.AdvanceParent(p, r, p.orders[o].stage + 1, p.orders[next.value].machine.None?)
          else if create.None? then p.Set(r, p.orders[r].(nextReady := true))
          else F.CreateNextTask(p, o, r, create.value)
    {
      var stage := orders[o].stage + 1;
      var next := OpenTaskAt(r, stage);
      if next.Some? {
        AdvanceParent(r, stage, orders[next.value].machine.None?);
      } else if create.None? {
        Save(r, orders[r].(nextReady := true));
      } else {
        CreateNextTask(o, r, create.value);
      }
    }

    method CompleteTask(o: nat, now: real) returns (error: Option<string>)
      requires o < |orders|
      modifies this`orders
      ensures var p := old(State());
        var x := p.orders[o];
        Result(error) ==
          if x.status != Completed && !F.MayMove(p, o, Completed) then F.Failed(p, "invalid transition")
          else F.Done(p.Set(o, x.(status := Completed, progress := 100.0, end := F.EndBy(x.end, now))))
    {
      var x := orders[o];
      if x.status != Completed {
        var allowed := MayMove(o, Completed);
        if !allowed {
          return Some("invalid transition");
        }
        x := x.(status := Completed);
      }
      x := x.(progress := 100.0);
      x := EndBy(x, now);
      Save(o, x);
      return None;
    }

    /** A stage of a route is finished: the lifecycle laws hold before and after. */
    method FinishStage(o: nat, create: Option<F.Gate>, now: real) returns (error: Option<string>)
      requires o < |orders| && State().Valid()
      modifies this`orders
      ensures Result(error) == F.FinishStage(old(State()), o, create, now)
      ensures old(Lawful(State())) ==> Lawful(State())
    {
      FinishStageReach(State(), o, create, now);
      var parent, stage := orders[o].parent, orders[o].stage;
      if parent.None? {
        error := AfterStage(o, o, create, now);
        return;
      }
      error := CompleteTask(o, now);
      if error.Some? {
        return;
      }
      if exists i :: (0 <= i < |orders| && orders[i].parent == parent && orders[i].stage == stage
        && orders[i].status != Completed) {
        return None;
      }
      error := AfterStage(o, parent.value, create, now);
    }

    // ---- production logs ----

    /** A worker reports output, which is accepted as far as it fits the order. */
    method CreateLog(o: nat, quantity: int, completion: bool, now: real) returns (error: Option<string>)
      requires o < |orders| && State().Valid()
      modifies this`orders, this`logs
      ensures Result(error) == F.CreateLog(old(State()), o, quantity, completion, now)
      ensures if error.None? then 0 < quantity && ReportsOutput(old(State()), State(), o, quantity)
        else State() == old(State())
      ensures KeepsLaws(old(State()), Report(o, quantity, completion, now), State())
    {
      CallKeepsLaws(State(), Report(o, quantity, completion, now));
      CreateLogReports(State(), o, quantity, completion, now);
      error := CreateLogRows(o, quantity, completion, now);
    }

    method CreateLogRows(o: nat, quantity: int, completion: bool, now: real) returns (error: Option<string>)
      requires o < |orders|
      modifies this`orders, this`logs
      ensures Result(error) == F.CreateLog(old(State()), o, quantity, completion, now)
    {
      var x := orders[o];
      if quantity <= 0 {
        return Some("quantity must be positive");
      }
      if x.status != Pending && x.status != InProgress {
        return Some("work order is not active");
      }
      if x.status == Pending {
        var allowed := MayMove(o, InProgress);
        if !allowed {
          return Some("closed work order cannot be re-opened");
        }
        x := x.(status := InProgress);
        x := x.(start := Some(now));
      }
      var approved := Reported(o, F.Approved);
      var waiting := Reported(o, F.Waiting);
      var remaining := F.Monus(F.Monus(x.quantity, approved), waiting);
      if remaining < quantity {
        return Some("quantity exceeds remaining work");
      }
      Save(o, x);
      logs := logs + [F.Log(o, quantity, F.Waiting, completion)];
      return None;
    }

    method RejectLog(l: nat)
      requires l < |logs| && State().Valid()
      modifies this`logs
      ensures F.Done(State()) == F.RejectLog(old(State()), l)
      ensures KeepsLaws(old(State()), RejectCall(l), State())
    {
      CallKeepsLaws(State(), RejectCall(l));
      logs := logs[l := logs[l].(status := F.Rejected)];
    }

    // ---- splits ----

    /** Part of an order becomes an order of its own: no quantity is lost or gained. */
    method Split(o: nat, quantity: int, machine: nat, finish: Option<real>, slot: F.Slot, now: real)
        returns (error: Option<string>)
      requires o < |orders| && State().Valid()
      modifies this`orders
      ensures Result(error) == F.Split(old(State()), o, quantity, machine, finish, slot, now)
      ensures KeepsQuantity(old(State()), State())
      ensures KeepsLaws(old(State()), SplitCall(o, quantity, machine, finish, slot, now), State())
    {
      CallKeepsLaws(State(), SplitCall(o, quantity, machine, finish, slot, now));
      SplitKeepsQuantity(State(), o, quantity, machine, finish, slot, now);
      error := SplitRows(o, quantity, machine, finish, slot, now);
    }

    method SplitRows(o: nat, quantity: int, machine: nat, finish: Option<real>, slot: F.Slot, now: real)
        returns (error: Option<string>)
      requires o < |orders| && State().Valid()
      modifies this`orders
      ensures Result(error) == F.Split(old(State()), o, quantity, machine, finish, slot, now)
    {
      var parent := HasSubTasks(o);
      var approved := Reported(o, F.Approved);
      var x := orders[o];
      if parent || x.Terminal() || quantity <= 0 || F.Monus(x.quantity, approved) < quantity {
        return Some("cannot split this quantity off");
      }
      ShrinkAndInsert(o, quantity, approved, machine, finish, slot);
      error := CloseAfterSplit(o, approved, now);
    }

    method ShrinkAndInsert(o: nat, quantity: nat, approved: nat, machine: nat, finish: Option<real>, slot: F.Slot)
      requires o < |orders| && State().Valid() && quantity <= orders[o].quantity
      modifies this`orders
      ensures State().Valid() && |orders| == |old(orders)| + 1
      ensures var p := old(State());
        State() == F.SyncParentQuantity(p.Set(o, F.Shrunk(p.orders[o], quantity, approved, finish)), o)
                     .Add(F.SplitOff(p.orders[o], o, quantity, machine, slot))
    {
      var x := orders[o];
      ghost var s, w := SplitPieces(x, o, quantity, approved, machine, finish, slot);
      var y := Shrink(x, quantity, approved, finish);
      Save(o, y);
      SyncParentQuantity(o);
      Insert(F.Order(x.parent, Some(o), x.kind, x.stage, x.current, x.parallel, Some(machine), x.compensation,
                     quantity, Some(quantity), 0, 0, Pending, false, false, false, F.NotRequested,
                     Some(slot.start), Some(slot.end), 0.0));
    }

    method CloseAfterSplit(o: nat, approved: nat, now: real) returns (error: Option<string>)
      requires o < |orders| && State().Valid()
      modifies this`orders
      ensures Result(error) == F.CloseAfterSplit(old(State()), o, approved, now)
    {
      var x := orders[o];
      if approved < x.quantity || (x.status != Pending && x.status != InProgress) {
        return None;
      }
      if x.status == Pending {
        if x.closed {
          return Some("closed work order cannot be re-opened");
        }
        x := x.(status := InProgress);
      }
      var open := HasOpenTasks(o);
      if open {
        return Some("child stage tasks are still open");
      }
      x := x.(status := Completed);
      x := EndBy(x, now);
      Save(o, x);
      if approved > 0 {
        error := FinishStage(o, None, now);
      } else {
        error := None;
      }
    }

    /** Who receives the quantity of a canceled split: the chosen order, else its source, else a sibling. */
    method ReturnTarget(s: nat, chosen: Option<nat>) returns (t: Option<nat>)
      requires s < |orders| && State().Valid()
      ensures t == F.ReturnTarget(State(), s, chosen)
    {
      if chosen.Some? {
        if chosen.value < |orders| && F.Compatible(orders[chosen.value], orders[s]) {
          return chosen;
        }
        return None;
      }
      var source := orders[s].source;
      if source.Some? && !orders[source.value].Terminal() {
        return source;
      }
      t := Sibling(s);
    }

    /** The reasons for which a cancellation is refused, in the order in which they are checked. */
    method CancelError(s: nat, t: Option<nat>, ghost chosen: Option<nat>) returns (error: Option<string>)
      requires s < |orders| && State().Valid() && t == F.ReturnTarget(State(), s, chosen)
      ensures error == F.CancelError(State(), s, chosen)
    {
      var x := orders[s];
      var parent := HasSubTasks(s);
      if parent {
        return Some("cannot cancel split on a parent work order");
      }
      if x.Terminal() {
        return Some("cannot cancel a completed or inactive split");
      }
      var started := HasProductionLogs(s);
      if started {
        return Some("cannot cancel split after production logs exist");
      }
      if x.source.None? && x.parent.None? {
        return Some("not linked to a split group");
      }
      if t.None? {
        return Some("no compatible active work order");
      }
      if t.value == s {
        return Some("cannot be returned to the same work order");
      }
      if orders[t.value].Terminal() {
        return Some("return target is completed or inactive");
      }
      if orders[t.value].closed {
        return Some("return target is closed");
      }
      return None;
    }

    /** An untouched split is canceled, and its quantity goes to the return target. */
    method CancelSplit(s: nat, chosen: Option<nat>, now: real) returns (error: Option<string>)
      requires s < |orders| && State().Valid()
      modifies this`orders
      ensures Result(error) == F.CancelSplit(old(State()), s, chosen, now)
      ensures var p := old(State());
        if error.Some? then State() == p
        else F.ReturnTarget(p, s, chosen).Some? && ReturnsQuantity(p, State(), s, F.ReturnTarget(p, s, chosen).value)
      ensures KeepsLaws(old(State()), CancelCall(s, chosen, now), State())
    {
      CallKeepsLaws(State(), CancelCall(s, chosen, now));
      CancelReturnsQuantity(State(), s, chosen, now);
      error := CancelRows(s, chosen, now);
    }

    method CancelRows(s: nat, chosen: Option<nat>, now: real) returns (error: Option<string>)
      requires s < |orders| && State().Valid()
      modifies this`orders
      ensures Result(error) == F.CancelSplit(old(State()), s, chosen, now)
    {
      var t := ReturnTarget(s, chosen);
      error := CancelError(s, t, chosen);
      if error.Some? {
        return;
      }
      CancelTo(State(), s, chosen, t.value, now);
      var y := TakeBack(s, t.value);
      ReturnTo(s, t.value, y, now);
    }

    method TakeBack(s: nat, t: nat) returns (y: F.Order)
      requires s < |orders| && t < |orders|
      ensures y == F.TakenBack(State(), s, t)
    {
      y := Grow(t, orders[t].quantity + orders[s].quantity);
    }

    method ReturnTo(s: nat, t: nat, y: F.Order, now: real)
      requires s < |orders| && t < |orders|
      modifies this`orders
      ensures State() == F.ReturnTo(old(State()), s, t, y, now)
    {
      Save(t, y);
      SyncParentQuantity(t);
      Save(s, orders[s].(status := Canceled, end := Some(now)));
    }

    /** The orders of the set may be merged into the target. */
    method Combinable(ids: seq<nat>, target: nat) returns (ok: bool)
      requires forall i :: 0 <= i < |ids| ==> ids[i] < |orders|
      ensures ok == F.Combinable(State(), ids, target)
    {
      if |ids| < 2 || target !in ids {
        return false;
      }
      for i := 0 to |ids|
        invariant forall k :: 0 <= k < i ==>
          && !State().IsParent(ids[k]) && !orders[ids[k]].Terminal() && !orders[ids[k]].closed
          && F.Compatible(orders[ids[k]], orders[ids[0]])
          && (ids[k] != target ==> !F.HasLogs(State(), ids[k]))
      {
        var parent := HasSubTasks(ids[i]);
        var started := HasProductionLogs(ids[i]);
        var x := orders[ids[i]];
        if parent || x.Terminal() || x.closed || !F.Compatible(x, orders[ids[0]]) || (ids[i] != target && started) {
          return false;
        }
      }
      return true;
    }

    /** Orders are merged into one of them: no quantity is lost or gained. */
    method Combine(ids: seq<nat>, target: nat, now: real) returns (error: Option<string>)
      requires State().Valid() && DistinctOrders(State(), ids) && target < |orders|
      modifies this`orders
      ensures Result(error) == F.Combine(old(State()), ids, target, now)
      ensures KeepsQuantity(old(State()), State())
      ensures KeepsLaws(old(State()), CombineCall(ids, target, now), State())
    {
      CallKeepsLaws(State(), CombineCall(ids, target, now));
      CombineKeepsQuantity(State(), ids, target, now);
      error := MergeRows(ids, target, now);
    }

    method MergeRows(ids: seq<nat>, target: nat, now: real) returns (error: Option<string>)
      requires State().Valid() && (forall i :: 0 <= i < |ids| ==> ids[i] < |orders|)
      requires forall i, j :: 0 <= i < j < |ids| ==> ids[i] != ids[j]
      modifies this`orders
      ensures Result(error) == F.Combine(old(State()), ids, target, now)
    {
      var ok := Combinable(ids, target);
      if !ok {
        return Some("work orders cannot be combined");
      }
      var total := 0;
      for i := 0 to |ids|
        invariant total == F.TotalQuantity(State(), ids, i) && State() == old(State())
      {
        total := total + orders[ids[i]].quantity;
      }
      var y := Grow(target, total);
      Save(target, y);
      SyncParentQuantity(target);
      CancelSources(ids, target, now);
      error := None;
    }

    method CancelSources(ids: seq<nat>, target: nat, now: real)
      requires forall i :: 0 <= i < |ids| ==> ids[i] < |orders|
      modifies this`orders
      ensures State() == F.CancelSources(old(State()), ids, |ids|, target, now)
    {
      for i := 0 to |ids|
        invariant |orders| == |old(orders)| && State() == F.CancelSources(old(State()), ids, i, target, now)
      {
        if ids[i] != target {
          Save(ids[i], orders[ids[i]].(status := Canceled, end := Some(now)));
        }
      }
    }

    // ---- review ----

    method FinishIfCovered(o: nat, now: real) returns (error: Option<string>)
      requires o < |orders| && State().Valid()
      modifies this`orders
      ensures Result(error) == F.FinishIfCovered(old(State()), o, now)
    {
      var approved := Reported(o, F.Approved);
      var parent := HasSubTasks(o);
      if orders[o].quantity <= approved && !parent {
        error := EndAndFinish(o, now);
      } else {
        error := None;
      }
    }

    method EndAndFinish(o: nat, now: real) returns (error: Option<string>)
      requires o < |orders| && State().Valid()
      modifies this`orders
      ensures var p := old(State());
        Result(error) == F.NextStage(p.Set(o, p.orders[o].(end := F.EndBy(p.orders[o].end, now))), o, now)
    {
      var x := EndBy(orders[o], now);
      Save(o, x);
      error := FinishStage(o, None, now);
    }

    /** A supervisor approves a log, in whatever review state it is. */
    method ApproveLog(l: nat, target: Option<nat>, slot: F.Slot, now: real) returns (error: Option<string>)
      requires l < |logs| && State().Valid()
      modifies this`orders, this`logs
      ensures Result(error) == F.ApproveLog(old(State()), l, target, slot, now)
      ensures KeepsLaws(old(State()), ApproveCall(l, target, slot, now), State())
    {
      CallKeepsLaws(State(), ApproveCall(l, target, slot, now));
      if logs[l].status == F.Approved {
        return None;
      }
      logs := logs[l := logs[l].(status := F.Approved)];
      assert State() == F.SetLog(old(State()), l, F.Approved);
      error := AfterApproval(logs[l].order, logs[l].completionRequested, target, slot, now);
    }

    method AfterApproval(o: nat, completion: bool, target: Option<nat>, slot: F.Slot, now: real)
        returns (error: Option<string>)
      requires o < |orders| && State().Valid()
      modifies this`orders
      ensures Result(error) == F.AfterApproval(old(State()), o, completion, target, slot, now)
    {
      var x := orders[o];
      var approved := Reported(o, F.Approved);
      var waiting := Reported(o, F.Waiting);
      var parent := HasSubTasks(o);
      var remaining := F.Monus(x.quantity, approved);
      error := None;
      if x.Inactive() {
        return;
      }
      if completion && remaining == 0 {
        error := EndAndFinish(o, now);
      } else if completion || (remaining > 0 && waiting == 0 && !parent) {
        if !x.compensation && target.Some? {
          error := SplitRest(o, remaining, completion, target.value, slot, now);
        }
      } else {
        error := FinishIfCovered(o, now);
      }
    }

    /** Split off what remains; a failed split is swallowed. */
    method SplitRest(o: nat, remaining: nat, completion: bool, machine: nat, slot: F.Slot, now: real)
        returns (error: Option<string>)
      requires o < |orders| && State().Valid()
      modifies this`orders
      ensures var s := F.Split(old(State()), o, remaining, machine, Some(now), slot, now);
        Result(error) ==
          if completion then (if s.Failed? then F.Done(s.plant) else F.NextStage(s.plant, o, now))
          else if s.Failed? then F.FinishIfCovered(s.plant, o, now)
          else F.Done(s.plant)
    {
      var failed := SplitRows(o, remaining, machine, Some(now), slot, now);
      error := None;
      if completion {
        if failed.None? {
          error := FinishStage(o, None, now);
        }
      } else if failed.Some? {
        error := FinishIfCovered(o, now);
      }
    }

    // ---- release and scrap ----

    /** Part of the approved output of a task becomes a lot of the next stage. */
    method Release(o: nat, quantity: int, machine: Option<nat>) returns (error: Option<string>)
      requires o < |orders| && State().Valid()
      modifies this`orders
      ensures Result(error) == F.Release(old(State()), o, quantity, machine)
      ensures if error.None? then 0 < quantity && ReleasesOutput(old(State()), State(), o, quantity)
        else State() == old(State())
      ensures KeepsLaws(old(State()), ReleaseCall(o, quantity, machine), State())
    {
      CallKeepsLaws(State(), ReleaseCall(o, quantity, machine));
      ReleaseReleases(State(), o, quantity, machine);
      error := ReleaseRows(o, quantity, machine);
    }

    method ReleaseRows(o: nat, quantity: int, machine: Option<nat>) returns (error: Option<string>)
      requires o < |orders| && State().Valid()
      modifies this`orders
      ensures Result(error) == F.Release(old(State()), o, quantity, machine)
    {
      var x := orders[o];
      var r := if x.parent.Some? then x.parent.value else o;
      var parent := HasSubTasks(o);
      if parent {
        return Some("cannot release from a parent work order");
      }
      if x.Inactive() {
        return Some("cannot release from an inactive work order");
      }
      if quantity <= 0 {
        return Some("release quantity must be positive");
      }
      if stages <= x.stage + 1 {
        return Some("no next stage");
      }
      var approved := Reported(o, F.Approved);
      if F.Monus(approved, x.released) < quantity {
        return Some("release quantity exceeds available output");
      }
      MakeRelease(o, r, quantity, machine);
      return None;
    }

    method MakeRelease(o: nat, r: nat, quantity: nat, machine: Option<nat>)
      requires o < |orders| && r < |orders|
      modifies this`orders
      ensures State() == F.LotReleased(old(State()), o, r, quantity, machine)
    {
      var x, parent := orders[o], orders[r];
      var lot := F.Order(Some(r), Some(o), parent.kind, x.stage + 1, x.stage + 1, parent.parallel, machine,
                         x.compensation,
                         quantity, None, 0, 0, Pending, false, false, false, F.NotRequested, None, None, 0.0);
      assert lot == F.ReleasedTask(State(), o, r, quantity, machine);
      Insert(lot);
      Save(o, x.(released := x.released + quantity));
      AdvanceParent(r, x.stage + 1, false);
    }

    /** Scrap of a check can still be decided on, as far as `quantity` goes. */
    method ScrapIsOpen(c: nat, r: nat, quantity: int) returns (ok: bool)
      requires c < |checks| && State().Valid() && r == F.ScrapOrder(State(), c)
      ensures ok == !F.ScrapBlocked(State(), c, quantity)
    {
      if quantity <= 0 || !checks[c].processed {
        return false;
      }
      if orders[r].Inactive() || orders[r].closed {
        return false;
      }
      return quantity <= F.Monus(checks[c].faulty, checks[c].resolved);
    }

    /** Scrap is made good with additional quantity and, below a route, a replenishment task. */
    method Compensate(c: nat, quantity: int) returns (error: Option<string>)
      requires c < |checks| && State().Valid()
      modifies this`orders, this`checks
      ensures Result(error) == F.Compensate(old(State()), c, quantity)
      ensures KeepsBooks(old(State()), State(), CompensateCall(c, quantity))
      ensures KeepsLaws(old(State()), CompensateCall(c, quantity), State())
    {
      CallKeepsLaws(State(), CompensateCall(c, quantity));
      ScrapKeepsBooks(State(), CompensateCall(c, quantity));
      error := CompensateRows(c, quantity);
    }

    method CompensateRows(c: nat, quantity: int) returns (error: Option<string>)
      requires c < |checks| && State().Valid()
      modifies this`orders, this`checks
      ensures Result(error) == F.Compensate(old(State()), c, quantity)
    {
      var o := checks[c].order;
      var r := if orders[o].parent.Some? then orders[o].parent.value else o;
      var ok := ScrapIsOpen(c, r, quantity);
      if !ok {
        return Some("scrap cannot be compensated");
      }
      var x, parent := orders[o], orders[r];
      AddCompensation(r, quantity);
      if x.parent.Some? {
        Insert(F.Order(Some(r), Some(o), parent.kind, x.stage, x.stage, parent.parallel, None, true,
                       quantity, None, 0, 0, Pending, false, false, false, F.NotRequested, None, None, 0.0));
      }
      checks := checks[c := checks[c].(resolved := checks[c].resolved + quantity)];
      return None;
    }

    method AddCompensation(r: nat, quantity: nat)
      requires r < |orders|
      modifies this`orders
      ensures State() == old(State()).Set(r, F.Compensated(old(orders[r]), quantity))
    {
      var x := orders[r];
      if x.base.None? {
        x := x.(base := Some(F.Monus(x.quantity, x.extra)));
      }
      x := x.(quantity := x.quantity + quantity);
      x := x.(extra := x.extra + quantity);
      if x.status == Completed {
        x := x.(status := InProgress);
      }
      x := x.(plannerAction := false);
      x := x.(end := None);
      Save(r, x);
    }

    /** Scrap is accepted as a loss: the target shrinks. */
    method AcceptScrap(c: nat, quantity: int) returns (error: Option<string>)
      requires c < |checks| && State().Valid()
      modifies this`orders, this`checks
      ensures Result(error) == F.AcceptScrap(old(State()), c, quantity)
      ensures KeepsBooks(old(State()), State(), AcceptCall(c, quantity))
      ensures KeepsLaws(old(State()), AcceptCall(c, quantity), State())
    {
      CallKeepsLaws(State(), AcceptCall(c, quantity));
      ScrapKeepsBooks(State(), AcceptCall(c, quantity));
      error := AcceptRows(c, quantity);
    }

    method AcceptRows(c: nat, quantity: int) returns (error: Option<string>)
      requires c < |checks| && State().Valid()
      modifies this`orders, this`checks
      ensures Result(error) == F.AcceptScrap(old(State()), c, quantity)
    {
      var o := checks[c].order;
      var r := if orders[o].parent.Some? then orders[o].parent.value else o;
      var ok := ScrapIsOpen(c, r, quantity);
      if !ok || orders[r].quantity < quantity {
        return Some("scrap cannot be accepted");
      }
      ReduceBase(r, quantity);
      checks := checks[c := checks[c].(resolved := checks[c].resolved + quantity)];
      return None;
    }

    method ReduceBase(r: nat, quantity: nat)
      requires r < |orders|
      modifies this`orders
      ensures State() == old(State()).Set(r, F.Reduced(old(orders[r]), quantity))
    {
      var x := orders[r];
      var base := if x.base.Some? then x.base.value else F.Monus(x.quantity, x.extra);
      base := F.Monus(base, quantity);
      x := x.(base := Some(base));
      x := x.(quantity := base + x.extra);
      Save(r, x);
    }

    // ---- parents ----

    method SyncParent(r: nat, now: real) returns (error: Option<string>)
      requires r < |orders|
      modifies this`orders
      ensures Result(error) == F.SyncParent(old(State()), r, now)
    {
      var x := orders[r];
      var parent := HasSubTasks(r);
      var open := HasOpenTasks(r);
      error := None;
      if !parent || x.Inactive() || x.status == Hold || open {
        return;
      }
      if !x.parallel && x.current + 1 < stages {
        Save(r, x.(plannerAction := false));
        return;
      }
      if x.status == Pending && x.closed {
        return Some("closed work order cannot be re-opened");
      }
      CompleteSynced(r, now);
    }

    /** All tasks are completed and no stage is left: so is the parent. */
    method CompleteSynced(r: nat, now: real)
      requires r < |orders| && F.ChildrenCompleted(State(), r) && State().IsParent(r)
      requires var x := orders[r]; !x.Inactive() && x.status != Hold && (x.parallel || stages <= x.current + 1)
      requires orders[r].status == Pending ==> !orders[r].closed
      modifies this`orders
      ensures F.Done(State()) == F.SyncParent(old(State()), r, now)
    {
      var x := orders[r];
      var isNew := x.status != Completed;
      if x.status == Pending {
        x := x.(status := InProgress);
      }
      x := x.(status := Completed);
      x := x.(progress := 100.0);
      var end := LatestChildEnd(r);
      x := x.(end := if end.Some? then end else Some(now));
      if x.parent.None? && isNew && !x.closed {
        x := x.(plannerAction := true);
      }
      if x.parent.None? && x.plannerAction && x.receipt == F.NotRequested {
        x := x.(receipt := F.ReceiptPending);
      }
      Save(r, x);
    }

    /** One pass over the parents. */
    method SyncPass(parents: seq<nat>, now: real, ghost start: F.Plant, ghost before: seq<Step>)
        returns (changed: bool, ghost steps: seq<Step>)
      requires start.Valid() && State().Valid() && forall i :: 0 <= i < |parents| ==> parents[i] < |orders|
      requires Run(start, before, State()) && OnlySyncs(before, parents)
      modifies this`orders
      ensures State().Valid() && |orders| == |old(orders)|
      ensures Run(start, steps, State()) && OnlySyncs(steps, parents)
    {
      changed, steps := false, before;
      for k := 0 to |parents|
        invariant State().Valid() && |orders| == |old(orders)|
        invariant Run(start, steps, State()) && OnlySyncs(steps, parents)
      {
        var rows := orders;
        ghost var p := State();
        var error := SyncParent(parents[k], now);
        RunThenSync(start, steps, p, parents, parents[k], now, State());
        steps := steps + [Service(SyncCall(parents[k], now))];
        changed := changed || orders != rows;
      }
    }

    /**
     * The reconciliation of all parents: a few passes, as long as something changes.
     * Whatever it does is a run of single synchronisations, so everything proved of runs holds of it.
     */
    method SyncParents(parents: seq<nat>, now: real) returns (ghost steps: seq<Step>)
      requires State().Valid() && forall i :: 0 <= i < |parents| ==> parents[i] < |orders|
      modifies this`orders
      ensures Run(old(State()), steps, State()) && OnlySyncs(steps, parents)
      ensures old(Lawful(State())) ==> Lawful(State()) && Tame(old(State()), State())
      ensures old(Sound(State())) ==> Sound(State())
    {
      steps := [];
      var passes, changed := 0, true;
      while changed && passes < 5
        invariant State().Valid() && |orders| == |old(orders)|
        invariant Run(old(State()), steps, State()) && OnlySyncs(steps, parents)
        decreases 5 - passes
      {
        passes := passes + 1;
        changed, steps := SyncPass(parents, now, old(State()), steps);
      }
      SyncsKeepLaws(old(State()), steps, parents, State());
    }

    /** A status change asked for from outside. */
    method Transition(o: nat, target: Status) returns (error: Option<string>)
      requires o < |orders| && State().Valid()
      modifies this`orders
      ensures Result(error) == F.Transition(old(State()), o, target)
      ensures KeepsLaws(old(State()), MoveCall(o, target), State())
    {
      CallKeepsLaws(State(), MoveCall(o, target));
      if orders[o].status == target {
        return None;
      }
      var allowed := MayMove(o, target);
      if !allowed {
        return Some("invalid transition");
      }
      Save(o, orders[o].(status := target));
      return None;
    }

    method ConfirmReceipt(r: nat) returns (error: Option<string>)
      requires r < |orders| && State().Valid()
      modifies this`orders
      ensures Result(error) == F.ConfirmReceipt(old(State()), r)
      ensures KeepsLaws(old(State()), ReceiptCall(r), State())
    {
      CallKeepsLaws(State(), ReceiptCall(r));
      if orders[r].parent.Some? {
        return Some("not a root work order");
      }
      Save(r, orders[r].(receipt := F.Received));
      return None;
    }

    method Close(r: nat, requireReady: bool, now: real) returns (error: Option<string>)
      requires r < |orders| && State().Valid()
      modifies this`orders
      ensures Result(error) == F.Close(old(State()), r, requireReady, now)
      ensures if error.None? then SealedAt(State(), r, now) else State() == old(State())
      ensures KeepsLaws(old(State()), CloseCall(r, requireReady, now), State())
    {
      CallKeepsLaws(State(), CloseCall(r, requireReady, now));
      CloseSeals(State(), r, requireReady, now);
      error := CloseRows(r, requireReady, now);
    }

    method CloseRows(r: nat, requireReady: bool, now: real) returns (error: Option<string>)
      requires r < |orders|
      modifies this`orders
      ensures Result(error) == F.Close(old(State()), r, requireReady, now)
    {
      var x := orders[r];
      if x.parent.Some? {
        return Some("only parent work orders can be closed");
      }
      if x.status != Completed {
        return Some("must be completed before planner close");
      }
      var open := HasOpenTasks(r);
      if open {
        return Some("child stage tasks are still open");
      }
      if requireReady && !x.plannerAction {
        return Some("not ready to close");
      }
      if x.receipt != F.Received {
        return Some("store must confirm receipt");
      }
      x := x.(plannerAction := false);
      x := x.(closed := true);
      x := EndBy(x, now);
      Save(r, x);
      CapChildEnds(r, now);
      return None;
    }

    method CapChildEnds(r: nat, now: real)
      modifies this`orders
      ensures State() == F.CapChildEnds(old(State()), r, now)
    {
      ghost var p := State();
      for i := 0 to |orders|
        invariant |orders| == |p.orders|
        invariant forall k :: 0 <= k < i ==> orders[k] == F.CapChildEnds(p, r, now).orders[k]
        invariant forall k :: i <= k < |orders| ==> orders[k] == p.orders[k]
      {
        var x := orders[i];
        if x.parent == Some(r) && x.status == Completed && x.end.Some? && now < x.end.value {
          orders := orders[i := x.(end := Some(now))];
        }
      }
      assert orders == F.CapChildEnds(p, r, now).orders;
    }
  }
}
