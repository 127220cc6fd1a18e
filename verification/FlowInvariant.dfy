/** Output never appears from nowhere: the quantities of a release-driven route, and which calls keep them. */
module FlowInvariant {
  import opened Common
  import opened Flow
  import opened Sums

  // ---- the invariant ----

  predicate TaskOf(x: Order, r: nat, k: nat) {
    x.parent == Some(r) && x.stage == k
  }

  /** Per order, the quantity it plans at stage `k` of route `r`; canceled work plans nothing. */
  function Planned(p: Plant, r: nat, k: nat): (v: seq<nat>)
    ensures |v| == |p.orders|
  {
    seq(|p.orders|, i requires 0 <= i < |p.orders| =>
      if TaskOf(p.orders[i], r, k) && !p.orders[i].Inactive() then p.orders[i].quantity else 0)
  }

  function Released(p: Plant, r: nat, k: nat): (v: seq<nat>)
    ensures |v| == |p.orders|
  {
    seq(|p.orders|, i requires 0 <= i < |p.orders| => if TaskOf(p.orders[i], r, k) then p.orders[i].released else 0)
  }

  /** Per order, its approved output at stage `k` of route `r`. */
  function Output(p: Plant, r: nat, k: nat): (v: seq<nat>)
    ensures |v| == |p.orders|
  {
    seq(|p.orders|, i requires 0 <= i < |p.orders| => if TaskOf(p.orders[i], r, k) then p.Reported(i, Approved) else 0)
  }

  /**
   * What one stage task keeps: released <= approved <= approved + waiting <= quantity, and no live output once
   * canceled.
   */
  predicate TaskSound(p: Plant, i: nat)
    requires p.Has(i)
  {
    var x := p.orders[i];
    var a, w := p.Reported(i, Approved), p.Reported(i, Waiting);
    x.parent.Some? ==> x.released <= a && a + w <= x.quantity && (x.Inactive() ==> a + w == 0)
  }

  /** Work planned at stage k + 1 was released from stage k. */
  ghost predicate BackedAt(p: Plant, r: nat, k: nat) {
    Sum(Planned(p, r, k + 1)) <= Sum(Released(p, r, k))
  }

  ghost predicate Backed(p: Plant) {
    forall r: nat, k: nat :: BackedAt(p, r, k)
  }

  ghost predicate Sound(p: Plant) {
    p.Valid() && Backed(p) && forall i :: 0 <= i < |p.orders| ==> TaskSound(p, i)
  }

  /** The total approved at a stage never exceeds the total approved at the stage before it. */
  lemma OutputFlowsDownstream(p: Plant, r: nat, k: nat)
    requires Sound(p)
    ensures Sum(Output(p, r, k + 1)) <= Sum(Output(p, r, k))
  {
    var out, planned, released, before := Output(p, r, k + 1), Planned(p, r, k + 1), Released(p, r, k), Output(p, r, k);
    forall i | 0 <= i < |p.orders|
      ensures out[i] <= planned[i] && released[i] <= before[i]
    {
      assert TaskSound(p, i);
    }
    SumMonotone(out, planned);
    SumMonotone(released, before);
    assert BackedAt(p, r, k);
  }

  /** By induction over the stages: no stage has more approved output than any earlier one. */
  lemma {:induction false} OutputBoundedByEarlierStages(p: Plant, r: nat, j: nat, k: nat)
    requires Sound(p) && j <= k
    ensures Sum(Output(p, r, k)) <= Sum(Output(p, r, j))
    decreases k
  {
    if j < k {
      OutputBoundedByEarlierStages(p, r, j, k - 1);
      OutputFlowsDownstream(p, r, k - 1);
    }
  }

  // ---- calls that touch no task quantity ----

  /** Tasks keep parent, stage, quantity, releases and whether they are canceled; logs are the same. */
  ghost predicate SameTasks(p: Plant, q: Plant) {
    && |p.orders| == |q.orders| && p.logs == q.logs
    && forall i :: 0 <= i < |p.orders| ==>
         var x, y := p.orders[i], q.orders[i];
         x.parent == y.parent
         && (x.parent.Some? ==> (x.stage == y.stage && x.quantity == y.quantity && x.released == y.released
             && x.Inactive() == y.Inactive()))
  }

  lemma SameTasksStaySound(p: Plant, q: Plant)
    requires Sound(p) && SameTasks(p, q) && q.Valid()
    ensures Sound(q)
  {
    forall r: nat, k: nat | true
      ensures BackedAt(q, r, k)
    {
      assert BackedAt(p, r, k);
      assert Planned(q, r, k + 1) == Planned(p, r, k + 1);
      assert Released(q, r, k) == Released(p, r, k);
    }
    forall i | 0 <= i < |q.orders|
      ensures TaskSound(q, i)
    {
      assert TaskSound(p, i);
    }
  }

  lemma SyncParentKeepsTasks(p: Plant, o: nat)
    requires p.Valid() && p.Has(o)
    ensures SameTasks(p, SyncParentQuantity(p, o))
    ensures forall i :: 0 <= i < |p.orders| && p.orders[i].parent.Some? ==>
      SyncParentQuantity(p, o).orders[i] == p.orders[i]
  {
  }

  /** Changing one order in other respects than its task quantities. */
  lemma SetKeepsTasks(p: Plant, o: nat, y: Order)
    requires p.Has(o) && y.parent == p.orders[o].parent
    requires y.parent.Some? ==>
      y.stage == p.orders[o].stage && y.quantity == p.orders[o].quantity && y.released == p.orders[o].released
      && y.Inactive() == p.orders[o].Inactive()
    ensures SameTasks(p, p.Set(o, y))
  {
  }

  /** Only order `r` changes, and only in status, dates and flags; it is not canceled or revived. */
  predicate StatusChange(p: Plant, q: Plant, r: nat)
    requires p.Has(r)
  {
    && |q.orders| == |p.orders| && q == p.Set(r, q.orders[r])
    && var x, y := p.orders[r], q.orders[r];
    && y.parent == x.parent && y.stage == x.stage && y.quantity == x.quantity && y.released == x.released
    && y.Inactive() == x.Inactive()
  }

  lemma StatusChangeKeepsTasks(p: Plant, q: Plant, r: nat)
    requires p.Has(r) && StatusChange(p, q, r)
    ensures SameTasks(p, q)
  {
  }

  lemma CompleteParentIsStatusChange(p: Plant, r: nat, now: Option<real>)
    requires p.Has(r)
    ensures StatusChange(p, CompleteParent(p, r, now).plant, r)
  {
    assert p.orders[r := p.orders[r]] == p.orders;
  }

  /** The ways a finished stage can go on. */
  lemma AfterStageCases(p: Plant, o: nat, r: nat, create: Option<Gate>, now: real)
    requires p.Has(o) && p.Has(r)
    ensures var z := AfterStage(p, o, r, create, now).plant;
      || z == p
      || z == CompleteParent(p, r, if p.orders[o].parent.Some? then Some(now) else None).plant
      || z == AdvanceParent(p, r, p.orders[o].stage + 1, true)
      || z == AdvanceParent(p, r, p.orders[o].stage + 1, false)
      || z == p.Set(r, p.orders[r].(nextReady := true))
      || (create.Some? && z == CreateNextTask(p, o, r, create.value))
  {
  }

  lemma AfterStageIsStatusChange(p: Plant, o: nat, r: nat, now: real)
    requires p.Has(o) && p.Has(r)
    ensures StatusChange(p, AfterStage(p, o, r, None, now).plant, r)
  {
    AfterStageCases(p, o, r, None, now);
    CompleteParentIsStatusChange(p, r, if p.orders[o].parent.Some? then Some(now) else None);
    AdvanceIsStatusChange(p, r, p.orders[o].stage + 1, true);
    AdvanceIsStatusChange(p, r, p.orders[o].stage + 1, false);
    NextReadyIsStatusChange(p, r);
  }

  lemma NextReadyIsStatusChange(p: Plant, r: nat)
    requires p.Has(r)
    ensures StatusChange(p, p, r) && StatusChange(p, p.Set(r, p.orders[r].(nextReady := true)), r)
  {
    SetIsStatusChange(p, r, p.orders[r]);
    SetIsStatusChange(p, r, p.orders[r].(nextReady := true));
    assert p.Set(r, p.orders[r]) == p;
  }

  lemma AdvanceIsStatusChange(p: Plant, r: nat, stage: nat, ready: bool)
    requires p.Has(r)
    ensures StatusChange(p, AdvanceParent(p, r, stage, ready), r)
  {
  }

  lemma SetIsStatusChange(p: Plant, r: nat, y: Order)
    requires p.Has(r)
    ensures y == p.orders[r].(nextReady := y.nextReady) ==> StatusChange(p, p.Set(r, y), r)
  {
  }

  lemma NextStageKeepsTasks(p: Plant, o: nat, now: real)
    requires p.Valid() && p.Has(o)
    ensures SameTasks(p, NextStage(p, o, now).plant)
  {
    var x := p.orders[o];
    if x.parent.None? {
      AfterStageIsStatusChange(p, o, o, now);
      StatusChangeKeepsTasks(p, NextStage(p, o, now).plant, o);
    } else if x.status == Completed || MayMove(p, o, Completed) {
      var q := p.Set(o, x.(status := Completed, progress := 100.0, end := EndBy(x.end, now)));
      StatusChangeKeepsTasks(p, q, o);
      AfterStageIsStatusChange(q, o, x.parent.value, now);
      StatusChangeKeepsTasks(q, AfterStage(q, o, x.parent.value, None, now).plant, x.parent.value);
    }
  }

  // ---- logs ----

  lemma {:induction false} LogSumUpdate(logs: seq<Log>, l: nat, s: LogStatus, o: nat, t: LogStatus)
    requires l < |logs|
    ensures LogSum(logs[l := logs[l].(status := s)], o, t) == LogSum(logs, o, t)
      - (if logs[l].order == o && logs[l].status == t then logs[l].quantity else 0)
      + (if logs[l].order == o && s == t then logs[l].quantity else 0)
    ensures logs[l].order == o && logs[l].status == t ==> logs[l].quantity <= LogSum(logs, o, t)
  {
    var n := |logs| - 1;
    var x := logs[l].(status := s);
    if l < n {
      assert logs[l := x][..n] == logs[..n][l := x];
      LogSumUpdate(logs[..n], l, s, o, t);
    } else {
      assert logs[l := x][..n] == logs[..n];
    }
  }

  lemma LogSumAppend(logs: seq<Log>, x: Log, o: nat, t: LogStatus)
    ensures LogSum(logs + [x], o, t) == LogSum(logs, o, t) + if x.order == o && x.status == t then x.quantity else 0
  {
    assert (logs + [x])[..|logs|] == logs;
  }

  lemma {:induction false} NoLogsNoOutput(logs: seq<Log>, o: nat, t: LogStatus)
    requires forall l :: 0 <= l < |logs| ==> logs[l].order != o
    ensures LogSum(logs, o, t) == 0
  {
    if logs != [] {
      NoLogsNoOutput(logs[..|logs| - 1], o, t);
    }
  }

  lemma AddLogKeepsSound(p: Plant, x: Log)
    requires Sound(p) && p.Has(x.order) && x.status == Waiting && !p.orders[x.order].Inactive()
    requires p.Reported(x.order, Approved) + p.Reported(x.order, Waiting) + x.quantity <= p.orders[x.order].quantity
    ensures Sound(p.(logs := p.logs + [x]))
  {
    var q := p.(logs := p.logs + [x]);
    SameOrdersStayBacked(p, q);
    forall i | 0 <= i < |q.orders|
      ensures TaskSound(q, i)
    {
      assert TaskSound(p, i);
      LogSumAppend(p.logs, x, i, Approved);
      LogSumAppend(p.logs, x, i, Waiting);
    }
  }

  lemma SameOrdersStayBacked(p: Plant, q: Plant)
    requires Backed(p) && p.orders == q.orders
    ensures Backed(q)
  {
    forall r: nat, k: nat | true
      ensures BackedAt(q, r, k)
    {
      assert BackedAt(p, r, k);
      assert Planned(q, r, k + 1) == Planned(p, r, k + 1);
      assert Released(q, r, k) == Released(p, r, k);
    }
  }

  /** Reporting output keeps the route sound. */
  lemma CreateLogKeepsSound(p: Plant, o: nat, quantity: int, completion: bool, now: real)
    requires Sound(p) && p.Has(o)
    ensures Sound(CreateLog(p, o, quantity, completion, now).plant)
  {
    var z := CreateLog(p, o, quantity, completion, now);
    if z.Done? {
      var x := p.orders[o];
      var y := if x.status == Pending then x.(status := InProgress, start := Some(now)) else x;
      SetKeepsTasks(p, o, y);
      SameTasksStaySound(p, p.Set(o, y));
      AddLogKeepsSound(p.Set(o, y), Log(o, quantity, Waiting, completion));
    }
  }

  /** Reviewing a waiting log, either way, keeps the route sound. */
  lemma ReviewKeepsSound(p: Plant, l: nat, s: LogStatus)
    requires Sound(p) && l < |p.logs| && p.logs[l].status == Waiting
    ensures Sound(SetLog(p, l, s))
  {
    var q := SetLog(p, l, s);
    SameOrdersStayBacked(p, q);
    forall i | 0 <= i < |q.orders|
      ensures TaskSound(q, i)
    {
      assert TaskSound(p, i);
      LogSumUpdate(p.logs, l, s, i, Approved);
      LogSumUpdate(p.logs, l, s, i, Waiting);
    }
  }
}
