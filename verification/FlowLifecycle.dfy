/** The lifecycle of parents and their stage tasks over every run of service calls. */
module FlowLifecycle {
  import opened Common
  import opened Flow
  import opened FlowInvariant
  import opened FlowCombine
  import opened FlowRuns

  /** A closed order is finished business: completed, received by the store, nothing left for the planner. */
  predicate Settled(x: Order) {
    x.closed ==> x.status == Completed && x.receipt == Received && !x.plannerAction
  }

  /** A completed parent that is not closed yet has no unfinished task. */
  predicate FinishedBelow(p: Plant, i: nat)
    requires p.Has(i)
  {
    var r := p.orders[i].parent;
    r.Some? && p.Has(r.value) && p.orders[r.value].status == Completed && !p.orders[r.value].closed ==>
      p.orders[i].status == Completed
  }

  ghost predicate Lawful(p: Plant) {
    && (forall i :: 0 <= i < |p.orders| ==> Settled(p.orders[i]))
    && (forall i :: 0 <= i < |p.orders| ==> FinishedBelow(p, i))
  }

  /** A status that no modelled call leads out of, other than completion. */
  predicate Stuck(s: Status) {
    s == Canceled || s == Archived || s == Hold
  }

  /** `c` is a task of `r` that will never be completed. */
  predicate StuckChild(p: Plant, r: nat, c: nat) {
    p.Has(c) && p.orders[c].parent == Some(r) && Stuck(p.orders[c].status)
  }

  /** From `p` to `q` no order changes parent, no stuck order comes loose, and none with a stuck task gets completed. */
  ghost predicate Tame(p: Plant, q: Plant) {
    && |p.orders| <= |q.orders|
    && (forall i :: 0 <= i < |p.orders| ==> q.orders[i].parent == p.orders[i].parent)
    && (forall i :: 0 <= i < |p.orders| && Stuck(p.orders[i].status) ==> Stuck(q.orders[i].status))
    && (forall r, c :: 0 <= r < |p.orders| && StuckChild(p, r, c) && q.orders[r].status == Completed ==>
        p.orders[r].status == Completed)
  }

  /** From a lawful plant only a lawful one is reached, tamely. */
  ghost predicate Reach(p: Plant, q: Plant) {
    p.Valid() && Lawful(p) ==> Lawful(q) && Tame(p, q)
  }

  lemma Chain(p: Plant, m: Plant, q: Plant)
    requires p.Valid() ==> m.Valid()
    ensures Reach(p, m) && Reach(m, q) ==> Reach(p, q)
  {
    if Reach(p, m) && Reach(m, q) && p.Valid() && Lawful(p) {
      forall r, c | 0 <= r < |p.orders| && StuckChild(p, r, c) && q.orders[r].status == Completed
        ensures p.orders[r].status == Completed
      {
        assert StuckChild(m, r, c);
      }
    }
  }

  /** Nothing changes that the lifecycle looks at. */
  ghost predicate Quiet(p: Plant, q: Plant) {
    && |p.orders| == |q.orders|
    && forall i :: 0 <= i < |p.orders| ==>
         && q.orders[i].parent == p.orders[i].parent && q.orders[i].status == p.orders[i].status
           && q.orders[i].closed == p.orders[i].closed
         && q.orders[i].receipt == p.orders[i].receipt && q.orders[i].plannerAction == p.orders[i].plannerAction
  }

  lemma QuietReach(p: Plant, q: Plant)
    ensures Quiet(p, q) ==> Reach(p, q)
  {
    if Quiet(p, q) {
      forall i | 0 <= i < |q.orders| && FinishedBelow(p, i)
        ensures FinishedBelow(q, i)
      {
      }
    }
  }

  lemma SameReach(p: Plant)
    ensures Reach(p, p)
  {
    QuietReach(p, p);
  }

  /** The ways one order may change. */
  predicate LegalSet(p: Plant, o: nat, y: Order)
    requires p.Has(o)
  {
    var x := p.orders[o];
    && y.parent == x.parent && (x.closed ==> y.closed) && (Settled(x) ==> Settled(y))
    && (Stuck(x.status) ==> Stuck(y.status))
    && (x.status == Completed && y.status != Completed ==> x.parent.None?)
    && (y.status == Completed && x.status != Completed ==> ChildrenCompleted(p, o))
  }

  lemma SetReach(p: Plant, o: nat, y: Order)
    requires p.Has(o)
    ensures LegalSet(p, o, y) ==> Reach(p, p.Set(o, y))
  {
    var q := p.Set(o, y);
    if LegalSet(p, o, y) && p.Valid() && Lawful(p) {
      forall i | 0 <= i < |q.orders|
        ensures FinishedBelow(q, i)
      {
        assert FinishedBelow(p, i);
      }
      forall i | 0 <= i < |q.orders|
        ensures Settled(q.orders[i])
      {
        assert Settled(p.orders[i]);
      }
    }
  }

  /** A task may be added below a parent that is not completed, or closed already. */
  predicate LegalAdd(p: Plant, w: Order) {
    && w.status == Pending && !w.closed
    && (w.parent.Some? ==> (p.Has(w.parent.value)
        && (p.orders[w.parent.value].status != Completed || p.orders[w.parent.value].closed)))
  }

  lemma AddReach(p: Plant, w: Order)
    ensures LegalAdd(p, w) ==> Reach(p, p.Add(w))
  {
    var q := p.Add(w);
    if LegalAdd(p, w) && p.Valid() && Lawful(p) {
      forall i | 0 <= i < |q.orders|
        ensures FinishedBelow(q, i)
      {
        assert i < |p.orders| ==> FinishedBelow(p, i);
      }
      forall i | 0 <= i < |q.orders|
        ensures Settled(q.orders[i])
      {
        assert i < |p.orders| ==> Settled(p.orders[i]);
      }
    }
  }

  // ---- one call ----

  lemma CompleteParentReach(p: Plant, r: nat, at: Option<real>)
    requires p.Has(r)
    ensures Reach(p, CompleteParent(p, r, at).plant)
  {
    var z := CompleteParent(p, r, at).plant;
    SetReach(p, r, z.orders[r]);
    assert z == p.Set(r, z.orders[r]);
  }

  /** The parent after its work went on to the next stage. */
  lemma AdvanceShape(p: Plant, r: nat, stage: nat, ready: bool) returns (y: Order)
    requires p.Has(r)
    ensures AdvanceParent(p, r, stage, ready) == p.Set(r, y)
    ensures p.orders[r].parent.None? ==> LegalSet(p, r, y)
    ensures y.status != Completed || y.closed
  {
    y := AdvanceParent(p, r, stage, ready).orders[r];
  }

  lemma AdvanceReach(p: Plant, r: nat, stage: nat, ready: bool)
    requires p.Has(r) && p.orders[r].parent.None?
    ensures Reach(p, AdvanceParent(p, r, stage, ready))
  {
    var y := AdvanceShape(p, r, stage, ready);
    SetReach(p, r, y);
  }

  /** A new task below `r`, released from `o` or not, with the parent moving on. */
  lemma AddAndAdvanceReach(p: Plant, o: nat, x: Order, r: nat, w: Order, stage: nat, ready: bool, q: Plant)
    requires p.Valid() && p.Has(o) && p.Has(r) && p.orders[r].parent.None?
    requires x == p.orders[o].(released := x.released) && w.parent == Some(r) && w.status == Pending && !w.closed
    requires q == AdvanceParent(p.Add(w).Set(o, x), r, stage, ready)
    ensures Reach(p, q)
  {
    var m := p.Set(o, x);
    ReleaseRecorded(p, o, x, m);
    AddsAfterAdvance(p, o, x, r, w, stage, ready, m, q);
    AdvanceThenAddReach(p, m, r, w, stage, ready, q);
  }

  lemma ReleaseRecorded(p: Plant, o: nat, x: Order, m: Plant)
    requires p.Has(o) && x == p.orders[o].(released := x.released) && m == p.Set(o, x)
    ensures Reach(p, m)
    ensures |m.orders| == |p.orders| && forall i :: 0 <= i < |p.orders| ==> m.orders[i].parent == p.orders[i].parent
  {
    QuietReach(p, m);
  }

  lemma AddsAfterAdvance(p: Plant, o: nat, x: Order, r: nat, w: Order, stage: nat, ready: bool, m: Plant, q: Plant)
    requires p.Has(o) && p.Has(r) && m == p.Set(o, x) && q == AdvanceParent(p.Add(w).Set(o, x), r, stage, ready)
    ensures q == AdvanceParent(m, r, stage, ready).Add(w)
  {
    assert p.Add(w).Set(o, x) == m.Add(w);
    AdvanceAfterAdd(m, r, stage, ready, w);
  }

  lemma AdvanceThenAddReach(p: Plant, m: Plant, r: nat, w: Order, stage: nat, ready: bool, q: Plant)
    requires (p.Valid() ==> m.Valid()) && m.Has(r) && m.orders[r].parent.None?
    requires w.parent == Some(r) && w.status == Pending && !w.closed
    requires q == AdvanceParent(m, r, stage, ready).Add(w)
    ensures Reach(p, m) ==> Reach(p, q)
  {
    var y := AdvanceShape(m, r, stage, ready);
    SetReach(m, r, y);
    Chain(p, m, m.Set(r, y));
    ThenAddReach(p, m.Set(r, y), w, q);
  }

  lemma ThenAddReach(p: Plant, m: Plant, w: Order, q: Plant)
    requires (p.Valid() ==> m.Valid()) && LegalAdd(m, w) && q == m.Add(w)
    ensures Reach(p, m) ==> Reach(p, q)
  {
    AddReach(m, w);
    Chain(p, m, q);
  }

  lemma AdvanceAfterAdd(m: Plant, r: nat, stage: nat, ready: bool, w: Order)
    requires m.Has(r)
    ensures AdvanceParent(m.Add(w), r, stage, ready) == AdvanceParent(m, r, stage, ready).Add(w)
  {
    assert m.Add(w).orders[r] == m.orders[r];
    assert forall y :: m.Add(w).Set(r, y) == m.Set(r, y).Add(w);
  }

  lemma CreateNextTaskShape(p: Plant, o: nat, r: nat, gate: Gate) returns (created: bool, x: Order, w: Order)
    requires p.Has(o) && p.Has(r)
    ensures x == p.orders[o].(released := x.released) && w.parent == Some(r) && w.status == Pending && !w.closed
    ensures CreateNextTask(p, o, r, gate) ==
      if created then AdvanceParent(p.Add(w).Set(o, x), r, p.orders[o].stage + 1, true)
        else AdvanceParent(p, r, p.orders[o].stage + 1, false)
  {
    var planned := PlannedAt(p, r, p.orders[o].stage + 1, |p.orders|);
    var quantity := Monus(if gate.Unchecked? then p.orders[r].quantity else Monus(gate.good, p.orders[o].released),
                          planned);
    created := quantity > 0;
    x, w := NextTaskAddedShape(p, o, r, gate, quantity);
  }

  lemma NextTaskAddedShape(p: Plant, o: nat, r: nat, gate: Gate, quantity: nat) returns (x: Order, w: Order)
    requires p.Has(o) && p.Has(r)
    ensures x == p.orders[o].(released := x.released) && w.parent == Some(r) && w.status == Pending && !w.closed
    ensures NextTaskAdded(p, o, r, gate, quantity) == p.Add(w).Set(o, x)
  {
    w := NextTask(p, o, r, quantity);
    x := p.orders[o].(released := p.orders[o].released + if gate.Unchecked? then 0 else quantity);
    assert p.Add(w).Set(o, p.orders[o]) == p.Add(w);
  }

  lemma CreateNextTaskReach(p: Plant, o: nat, r: nat, gate: Gate)
    requires p.Valid() && p.Has(o) && p.Has(r) && p.orders[r].parent.None?
    ensures Reach(p, CreateNextTask(p, o, r, gate))
  {
    var created, x, w := CreateNextTaskShape(p, o, r, gate);
    if created {
      AddAndAdvanceReach(p, o, x, r, w, p.orders[o].stage + 1, true, CreateNextTask(p, o, r, gate));
    } else {
      AdvanceReach(p, r, p.orders[o].stage + 1, false);
    }
  }

  lemma ReadyReach(p: Plant, r: nat)
    requires p.Has(r)
    ensures Reach(p, p.Set(r, p.orders[r].(nextReady := true)))
  {
    QuietReach(p, p.Set(r, p.orders[r].(nextReady := true)));
  }

  lemma AfterStageReach(p: Plant, o: nat, r: nat, create: Option<Gate>, now: real)
    requires p.Valid() && p.Has(o) && p.Has(r) && p.orders[r].parent.None?
    ensures Reach(p, AfterStage(p, o, r, create, now).plant)
  {
    AfterStageCases(p, o, r, create, now);
    SameReach(p);
    CompleteParentReach(p, r, if p.orders[o].parent.Some? then Some(now) else None);
    AdvanceReach(p, r, p.orders[o].stage + 1, true);
    AdvanceReach(p, r, p.orders[o].stage + 1, false);
    ReadyReach(p, r);
    if create.Some? {
      CreateNextTaskReach(p, o, r, create.value);
    }
  }

  lemma FinishStageReach(p: Plant, o: nat, create: Option<Gate>, now: real)
    requires p.Valid() && p.Has(o)
    ensures Reach(p, FinishStage(p, o, create, now).plant)
  {
    var x := p.orders[o];
    if x.parent.None? {
      AfterStageReach(p, o, o, create, now);
    } else if x.status == Completed || MayMove(p, o, Completed) {
      var y := x.(status := Completed, progress := 100.0, end := EndBy(x.end, now));
      var q := p.Set(o, y);
      CompletedReach(p, o, y);
      AfterStageReach(q, o, x.parent.value, create, now);
      Chain(p, q, AfterStage(q, o, x.parent.value, create, now).plant);
    } else {
      QuietReach(p, p);
    }
  }

  /** Completing an order whose tasks are all completed. */
  lemma CompletedReach(p: Plant, o: nat, y: Order)
    requires p.Has(o) && y == p.orders[o].(status := Completed, progress := y.progress, end := y.end)
    ensures p.orders[o].status == Completed || (ChildrenCompleted(p, o) && !Stuck(p.orders[o].status)) ==>
      Reach(p, p.Set(o, y))
  {
    SetReach(p, o, y);
    if p.orders[o].status == Completed {
      QuietReach(p, p.Set(o, y));
    }
  }

  // ---- logs and splits ----

  lemma LogsReach(p: Plant, logs: seq<Log>)
    ensures Reach(p, p.(logs := logs))
  {
    QuietReach(p, p.(logs := logs));
  }

  lemma StartShape(p: Plant, o: nat, y: Order)
    requires p.Has(o)
    ensures (p.orders[o].status == Pending && !p.orders[o].closed
      && y == p.orders[o].(status := InProgress, start := y.start)) ==> LegalSet(p, o, y)
  {
  }

  lemma CreateLogReach(p: Plant, o: nat, quantity: int, completion: bool, now: real)
    requires p.Valid() && p.Has(o)
    ensures Reach(p, CreateLog(p, o, quantity, completion, now).plant)
  {
    var x := p.orders[o];
    var y := if x.status == Pending then x.(status := InProgress, start := Some(now)) else x;
    var m := p.Set(o, y);
    if CreateLog(p, o, quantity, completion, now).Failed? {
      SameReach(p);
    } else {
      var logs := p.logs + [Log(o, quantity, Waiting, completion)];
      if x.status == Pending {
        StartShape(p, o, y);
        SetReach(p, o, y);
      } else {
        assert m == p;
        SameReach(p);
      }
      LogsReach(m, logs);
      Chain(p, m, m.(logs := logs));
    }
  }

  lemma EndReach(p: Plant, o: nat, end: Option<real>)
    requires p.Has(o)
    ensures Reach(p, p.Set(o, p.orders[o].(end := end)))
  {
    QuietReach(p, p.Set(o, p.orders[o].(end := end)));
  }

  lemma EndThenNextReach(p: Plant, o: nat, now: real)
    requires p.Valid() && p.Has(o)
    ensures Reach(p, NextStage(p.Set(o, p.orders[o].(end := EndBy(p.orders[o].end, now))), o, now).plant)
  {
    var m := p.Set(o, p.orders[o].(end := EndBy(p.orders[o].end, now)));
    EndReach(p, o, EndBy(p.orders[o].end, now));
    FinishStageReach(m, o, None, now);
    Chain(p, m, NextStage(m, o, now).plant);
  }

  lemma FinishIfCoveredReach(p: Plant, o: nat, now: real)
    requires p.Valid() && p.Has(o)
    ensures Reach(p, FinishIfCovered(p, o, now).plant)
  {
    SameReach(p);
    EndThenNextReach(p, o, now);
  }

  lemma CloseAfterSplitReach(p: Plant, o: nat, approved: nat, now: real)
    requires p.Valid() && p.Has(o)
    ensures Reach(p, CloseAfterSplit(p, o, approved, now).plant)
  {
    SameReach(p);
    var x := p.orders[o];
    if CloseAfterSplit(p, o, approved, now).plant != p {
      var y := x.(status := Completed, end := EndBy(x.end, now));
      var m := p.Set(o, y);
      CompletedReach(p, o, y);
      FinishStageReach(m, o, None, now);
      Chain(p, m, NextStage(m, o, now).plant);
    }
  }

  lemma QuietSetReach(p: Plant, o: nat, y: Order)
    requires p.Has(o)
    ensures y == p.orders[o].(quantity := y.quantity, base := y.base, end := y.end, progress := y.progress) ==>
      Reach(p, p.Set(o, y))
  {
    QuietReach(p, p.Set(o, y));
  }

  lemma SyncParentReach(p: Plant, o: nat)
    requires p.Has(o)
    ensures Reach(p, SyncParentQuantity(p, o))
  {
    QuietReach(p, SyncParentQuantity(p, o));
  }

  /** The shared part of split, cancellation and merge: an order gets another quantity and its parent follows. */
  lemma SyncedReach(p: Plant, o: nat, y: Order)
    requires p.Valid() && p.Has(o)
      && y == p.orders[o].(quantity := y.quantity, base := y.base, end := y.end, progress := y.progress)
    ensures Reach(p, SyncParentQuantity(p.Set(o, y), o))
  {
    QuietSetReach(p, o, y);
    SyncParentReach(p.Set(o, y), o);
    Chain(p, p.Set(o, y), SyncParentQuantity(p.Set(o, y), o));
  }

  lemma SplitPieces(x: Order, o: nat, quantity: nat, approved: nat, machine: nat, finish: Option<real>, slot: Slot)
      returns (y: Order, w: Order)
    requires quantity <= x.quantity
    ensures y == Shrunk(x, quantity, approved, finish) && w == SplitOff(x, o, quantity, machine, slot)
    ensures y == x.(quantity := y.quantity, base := y.base, end := y.end, progress := y.progress)
    ensures w.parent == x.parent && w.source == Some(o) && w.status == Pending && !w.closed
  {
    y, w := Shrunk(x, quantity, approved, finish), SplitOff(x, o, quantity, machine, slot);
  }

  lemma SplitAddReach(p: Plant, o: nat, y: Order, w: Order)
    requires p.Valid() && p.Has(o) && !p.orders[o].Terminal()
    requires y == p.orders[o].(quantity := y.quantity, base := y.base, end := y.end, progress := y.progress)
    requires w.parent == y.parent && w.source == Some(o) && w.status == Pending && !w.closed
    ensures Reach(p, SyncParentQuantity(p.Set(o, y), o).Add(w))
  {
    var m := SyncParentQuantity(p.Set(o, y), o);
    SyncedReach(p, o, y);
    AddReach(m, w);
    if p.Valid() && Lawful(p) {
      assert FinishedBelow(p, o);
      assert LegalAdd(m, w);
      Chain(p, m, m.Add(w));
    }
  }

  lemma SplitReach(p: Plant, o: nat, quantity: int, machine: nat, finish: Option<real>, slot: Slot, now: real, z: Plant)
    requires p.Valid() && p.Has(o) && z == Split(p, o, quantity, machine, finish, slot, now).plant
    ensures Reach(p, z)
  {
    if Splittable(p, o, quantity) {
      var y, w := SplitPieces(p.orders[o], o, quantity, p.Reported(o, Approved), machine, finish, slot);
      var q := SyncParentQuantity(p.Set(o, y), o).Add(w);
      SplitAddReach(p, o, y, w);
      CloseAfterSplitReach(q, o, p.Reported(o, Approved), now);
      Chain(p, q, z);
    } else {
      SameReach(p);
    }
  }

  lemma ReturnToReach(p: Plant, s: nat, t: nat, y: Order, now: real)
    requires p.Valid() && p.Has(s) && p.Has(t) && s != t && !p.orders[s].Terminal()
    requires y == p.orders[t].(quantity := y.quantity, base := y.base, end := y.end, progress := y.progress)
    ensures Reach(p, ReturnTo(p, s, t, y, now))
  {
    var m := SyncParentQuantity(p.Set(t, y), t);
    SyncedReach(p, t, y);
    CancelOrderReach(m, s, now);
    assert m.orders[s].status == p.orders[s].status;
    Chain(p, m, ReturnTo(p, s, t, y, now));
  }

  lemma CancelOrderReach(p: Plant, s: nat, now: real)
    requires p.Has(s)
    ensures !p.orders[s].Terminal() ==> Reach(p, p.Set(s, CanceledOrder(p.orders[s], now)))
  {
    if p.Valid() && Lawful(p) && !p.orders[s].Terminal() {
      assert Settled(p.orders[s]);
      CanceledIsLegal(p, s, now);
      SetReach(p, s, CanceledOrder(p.orders[s], now));
    }
  }

  lemma CanceledIsLegal(p: Plant, s: nat, now: real)
    requires p.Has(s)
    ensures !p.orders[s].Terminal() && Settled(p.orders[s]) ==> LegalSet(p, s, CanceledOrder(p.orders[s], now))
  {
  }

  lemma CancelPieces(p: Plant, s: nat, chosen: Option<nat>, now: real) returns (t: nat, y: Order)
    requires p.Valid() && p.Has(s) && CancelSplit(p, s, chosen, now).Done?
    ensures p.Has(t) && s != t && !p.orders[s].Terminal()
    ensures y == p.orders[t].(quantity := y.quantity, base := y.base, end := y.end, progress := y.progress)
    ensures CancelSplit(p, s, chosen, now).plant == ReturnTo(p, s, t, y, now)
  {
    t := ReturnTarget(p, s, chosen).value;
    y := TakenBack(p, s, t);
  }

  lemma CancelSplitReach(p: Plant, s: nat, chosen: Option<nat>, now: real)
    requires p.Valid() && p.Has(s)
    ensures Reach(p, CancelSplit(p, s, chosen, now).plant)
  {
    if CancelSplit(p, s, chosen, now).Done? {
      var t, y := CancelPieces(p, s, chosen, now);
      ReturnToReach(p, s, t, y, now);
    } else {
      SameReach(p);
    }
  }

  lemma {:induction false} LaterSourcesStay(p: Plant, ids: seq<nat>, n: nat, target: nat, now: real, i: nat)
    requires n <= i < |ids| && forall i :: 0 <= i < |ids| ==> ids[i] < |p.orders|
    requires forall i, j :: 0 <= i < j < |ids| ==> ids[i] != ids[j]
    ensures CancelSources(p, ids, n, target, now).orders[ids[i]] == p.orders[ids[i]]
    decreases n
  {
    if n > 0 {
      LaterSourcesStay(p, ids, n - 1, target, now, i);
    }
  }

  lemma CancelSourcesStep(p: Plant, ids: seq<nat>, n: nat, target: nat, now: real, m: Plant)
    requires 0 < n <= |ids| && forall i :: 0 <= i < |ids| ==> ids[i] < |p.orders|
    requires forall i, j :: 0 <= i < j < |ids| ==> ids[i] != ids[j]
    requires m == CancelSources(p, ids, n - 1, target, now)
    ensures (p.Valid() ==> m.Valid()) && m.Has(ids[n - 1]) && m.orders[ids[n - 1]] == p.orders[ids[n - 1]]
    ensures CancelSources(p, ids, n, target, now)
         == if ids[n - 1] == target then m else m.Set(ids[n - 1], CanceledOrder(m.orders[ids[n - 1]], now))
  {
    LaterSourcesStay(p, ids, n - 1, target, now, n - 1);
  }

  /** `m` with or without one more order canceled. */
  lemma CancelAfterReach(p: Plant, m: Plant, i: nat, keep: bool, now: real, q: Plant)
    requires (p.Valid() ==> m.Valid()) && m.Has(i) && !m.orders[i].Terminal()
    requires q == if keep then m else m.Set(i, CanceledOrder(m.orders[i], now))
    ensures Reach(p, m) ==> Reach(p, q)
  {
    CancelOrderReach(m, i, now);
    Chain(p, m, m.Set(i, CanceledOrder(m.orders[i], now)));
  }

  lemma CancelNextReach(p: Plant, ids: seq<nat>, n: nat, target: nat, now: real, m: Plant, q: Plant)
    requires p.Valid() && 0 < n <= |ids| && DistinctOrders(p, ids) && !p.orders[ids[n - 1]].Terminal()
    requires m == CancelSources(p, ids, n - 1, target, now) && q == CancelSources(p, ids, n, target, now)
    ensures Reach(p, m) ==> Reach(p, q)
  {
    CancelSourcesStep(p, ids, n, target, now, m);
    CancelAfterReach(p, m, ids[n - 1], ids[n - 1] == target, now, q);
  }

  lemma {:induction false} CancelSourcesReach(p: Plant, ids: seq<nat>, n: nat, target: nat, now: real, q: Plant)
    requires p.Valid() && n <= |ids| && DistinctOrders(p, ids) && q == CancelSources(p, ids, n, target, now)
    requires forall i :: 0 <= i < |ids| ==> !p.orders[ids[i]].Terminal()
    ensures Reach(p, q)
    decreases n
  {
    if n == 0 {
      SameReach(p);
    } else {
      var m := CancelSources(p, ids, n - 1, target, now);
      CancelSourcesReach(p, ids, n - 1, target, now, m);
      CancelNextReach(p, ids, n, target, now, m, q);
    }
  }

  lemma CombinePieces(p: Plant, ids: seq<nat>, target: nat, now: real) returns (y: Order)
    requires p.Valid() && DistinctOrders(p, ids) && Combine(p, ids, target, now).Done?
    ensures p.Has(target)
    ensures y == p.orders[target].(quantity := y.quantity, base := y.base, end := y.end, progress := y.progress)
    ensures forall i :: 0 <= i < |ids| ==> !p.orders[ids[i]].Terminal()
    ensures Combine(p, ids, target, now).plant
      == CancelSources(SyncParentQuantity(p.Set(target, y), target), ids, |ids|, target, now)
  {
    y := Grown(p.orders[target], TotalQuantity(p, ids, |ids|), p.Reported(target, Approved));
  }

  lemma SyncKeepsStatus(p: Plant, o: nat, y: Order)
    requires p.Valid() && p.Has(o) && y.status == p.orders[o].status && y.parent == p.orders[o].parent
      && y.source == p.orders[o].source
    ensures var m := SyncParentQuantity(p.Set(o, y), o);
      m.Valid() && forall i :: 0 <= i < |p.orders| ==> m.orders[i].status == p.orders[i].status
  {
  }

  lemma CombineReach(p: Plant, ids: seq<nat>, target: nat, now: real)
    requires p.Valid() && DistinctOrders(p, ids)
    ensures Reach(p, Combine(p, ids, target, now).plant)
  {
    if Combine(p, ids, target, now).Done? {
      var y := CombinePieces(p, ids, target, now);
      MergeReach(p, ids, target, y, now, SyncParentQuantity(p.Set(target, y), target),
                 Combine(p, ids, target, now).plant);
    } else {
      SameReach(p);
    }
  }

  lemma MergeReach(p: Plant, ids: seq<nat>, target: nat, y: Order, now: real, m: Plant, z: Plant)
    requires p.Valid() && DistinctOrders(p, ids) && p.Has(target)
    requires y == p.orders[target].(quantity := y.quantity, base := y.base, end := y.end, progress := y.progress)
    requires forall i :: 0 <= i < |ids| ==> !p.orders[ids[i]].Terminal()
    requires m == SyncParentQuantity(p.Set(target, y), target) && z == CancelSources(m, ids, |ids|, target, now)
    ensures Reach(p, z)
  {
    SyncKeepsStatus(p, target, y);
    SyncedReach(p, target, y);
    CancelSourcesReach(m, ids, |ids|, target, now, z);
    Chain(p, m, z);
  }

  lemma AfterApprovalReach(p: Plant, o: nat, completion: bool, target: Option<nat>, slot: Slot, now: real)
    requires p.Valid() && p.Has(o)
    ensures Reach(p, AfterApproval(p, o, completion, target, slot, now).plant)
  {
    SameReach(p);
    EndThenNextReach(p, o, now);
    FinishIfCoveredReach(p, o, now);
    if target.Some? {
      SplitAfterApprovalReach(p, o, target.value, slot, now);
    }
    if completion {
      CompletionCases(p, o, target, slot, now);
    } else {
      PartialCases(p, o, target, slot, now);
    }
  }

  lemma SplitAfterApprovalReach(p: Plant, o: nat, machine: nat, slot: Slot, now: real)
    requires p.Valid() && p.Has(o)
    ensures var s := Split(p, o, Monus(p.orders[o].quantity, p.Reported(o, Approved)), machine, Some(now), slot,
                           now).plant;
      && Reach(p, s) && Reach(p, NextStage(s, o, now).plant) && Reach(p, FinishIfCovered(s, o, now).plant)
  {
    var s := Split(p, o, Monus(p.orders[o].quantity, p.Reported(o, Approved)), machine, Some(now), slot, now).plant;
    SplitReach(p, o, Monus(p.orders[o].quantity, p.Reported(o, Approved)), machine, Some(now), slot, now, s);
    FinishStageReach(s, o, None, now);
    Chain(p, s, NextStage(s, o, now).plant);
    FinishIfCoveredReach(s, o, now);
    Chain(p, s, FinishIfCovered(s, o, now).plant);
  }

  lemma ApproveLogReach(p: Plant, l: nat, target: Option<nat>, slot: Slot, now: real)
    requires p.Valid() && l < |p.logs|
    ensures Reach(p, ApproveLog(p, l, target, slot, now).plant)
  {
    SameReach(p);
    var m := SetLog(p, l, Approved);
    LogsReach(p, m.logs);
    AfterApprovalReach(m, p.logs[l].order, p.logs[l].completionRequested, target, slot, now);
    Chain(p, m, AfterApproval(m, p.logs[l].order, p.logs[l].completionRequested, target, slot, now).plant);
  }

  // ---- release, scrap, status changes ----

  lemma LotReleasedReach(p: Plant, o: nat, r: nat, quantity: nat, machine: Option<nat>, q: Plant)
    requires p.Valid() && p.Has(o) && p.Has(r) && p.orders[r].parent.None?
      && q == LotReleased(p, o, r, quantity, machine)
    ensures Reach(p, q)
  {
    var x := p.orders[o];
    AddAndAdvanceReach(p, o, x.(released := x.released + quantity), r, ReleasedTask(p, o, r, quantity, machine),
                       x.stage + 1, false, q);
  }

  lemma ReleaseCases(p: Plant, o: nat, quantity: int, machine: Option<nat>) returns (r: nat)
    requires p.Valid() && p.Has(o)
    ensures p.Has(r) && p.orders[r].parent.None?
    ensures Release(p, o, quantity, machine).plant == p
            || (quantity > 0 && Release(p, o, quantity, machine).plant == LotReleased(p, o, r, quantity, machine))
  {
    r := if p.orders[o].parent.Some? then p.orders[o].parent.value else o;
  }

  lemma ReleaseReach(p: Plant, o: nat, quantity: int, machine: Option<nat>)
    requires p.Valid() && p.Has(o)
    ensures Reach(p, Release(p, o, quantity, machine).plant)
  {
    var r := ReleaseCases(p, o, quantity, machine);
    SameReach(p);
    if quantity > 0 {
      LotReleasedReach(p, o, r, quantity, machine, LotReleased(p, o, r, quantity, machine));
    }
  }

  lemma ResolveReach(p: Plant, c: nat, quantity: nat)
    requires c < |p.checks|
    ensures Reach(p, Resolve(p, c, quantity))
  {
    QuietReach(p, Resolve(p, c, quantity));
  }

  lemma CompensatePieces(p: Plant, c: nat, quantity: int) returns (y: Order, w: Option<Order>)
    requires p.Valid() && c < |p.checks| && Compensate(p, c, quantity).Done?
    ensures quantity > 0 && LegalSet(p, ScrapOrder(p, c), y) && y.source == p.orders[ScrapOrder(p, c)].source
    ensures w.Some? ==> w.value.source.Some? && p.Has(w.value.source.value)
    ensures w.Some? ==> (LegalAdd(p.Set(ScrapOrder(p, c), y), w.value) && w.value.parent == Some(ScrapOrder(p, c))
      && p.orders[ScrapOrder(p, c)].parent.None?)
    ensures Compensate(p, c, quantity).plant ==
      Resolve(if w.Some? then p.Set(ScrapOrder(p, c), y).Add(w.value) else p.Set(ScrapOrder(p, c), y), c, quantity)
  {
    var r := ScrapOrder(p, c);
    var z := Compensate(p, c, quantity).plant;
    y := z.orders[r];
    w := if p.orders[p.checks[c].order].parent.Some? then Some(z.orders[|p.orders|]) else None;
  }

  lemma CompensateReach(p: Plant, c: nat, quantity: int)
    requires p.Valid() && c < |p.checks|
    ensures Reach(p, Compensate(p, c, quantity).plant)
  {
    if Compensate(p, c, quantity).Done? {
      var y, w := CompensatePieces(p, c, quantity);
      var m := p.Set(ScrapOrder(p, c), y);
      SetReach(p, ScrapOrder(p, c), y);
      if w.Some? {
        AddReach(m, w.value);
        Chain(p, m, m.Add(w.value));
      }
      var n := if w.Some? then m.Add(w.value) else m;
      ResolveReach(n, c, quantity);
      Chain(p, n, Resolve(n, c, quantity));
    } else {
      SameReach(p);
    }
  }

  lemma AcceptScrapReach(p: Plant, c: nat, quantity: int)
    requires p.Valid() && c < |p.checks|
    ensures Reach(p, AcceptScrap(p, c, quantity).plant)
  {
    var z := AcceptScrap(p, c, quantity);
    if z.Done? {
      var y := AcceptShape(p, c, quantity, z.plant);
      ResolvedReach(p, ScrapOrder(p, c), y, z.plant);
    } else {
      SameReach(p);
    }
  }

  lemma AcceptShape(p: Plant, c: nat, quantity: int, z: Plant) returns (y: Order)
    requires p.Valid() && c < |p.checks| && AcceptScrap(p, c, quantity) == Done(z)
    ensures y == p.orders[ScrapOrder(p, c)].(quantity := y.quantity, base := y.base)
      && z.orders == p.Set(ScrapOrder(p, c), y).orders
  {
    y := Reduced(p.orders[ScrapOrder(p, c)], quantity);
  }

  lemma ResolvedReach(p: Plant, r: nat, y: Order, z: Plant)
    requires p.Has(r) && y == p.orders[r].(quantity := y.quantity, base := y.base) && z.orders == p.Set(r, y).orders
    ensures Reach(p, z)
  {
    QuietReach(p, z);
  }

  lemma TransitionReach(p: Plant, o: nat, target: Status)
    requires p.Valid() && p.Has(o)
    ensures Reach(p, Transition(p, o, target).plant)
  {
    SameReach(p);
    SetReach(p, o, p.orders[o].(status := target));
  }

  lemma SyncParentCallReach(p: Plant, r: nat, now: real)
    requires p.Valid() && p.Has(r)
    ensures Reach(p, SyncParent(p, r, now).plant)
  {
    var z := SyncParent(p, r, now).plant;
    SetReach(p, r, z.orders[r]);
    assert z == p.Set(r, z.orders[r]);
  }

  lemma ReceiptReach(p: Plant, r: nat)
    requires p.Valid() && p.Has(r)
    ensures Reach(p, ConfirmReceipt(p, r).plant)
  {
    SameReach(p);
    SetReach(p, r, p.orders[r].(receipt := Received));
  }

  lemma CapReach(p: Plant, r: nat, now: real)
    ensures Reach(p, CapChildEnds(p, r, now))
  {
    QuietReach(p, CapChildEnds(p, r, now));
  }

  lemma ClosePieces(p: Plant, r: nat, ready: bool, now: real) returns (y: Order)
    requires p.Valid() && p.Has(r) && Close(p, r, ready, now).Done?
    ensures LegalSet(p, r, y) && y.source == p.orders[r].source
    ensures Close(p, r, ready, now).plant == CapChildEnds(p.Set(r, y), r, now)
  {
    var x := p.orders[r];
    y := x.(plannerAction := false, closed := true, end := EndBy(x.end, now));
  }

  lemma CloseReach(p: Plant, r: nat, ready: bool, now: real)
    requires p.Valid() && p.Has(r)
    ensures Reach(p, Close(p, r, ready, now).plant)
  {
    if Close(p, r, ready, now).Done? {
      var y := ClosePieces(p, r, ready, now);
      SetReach(p, r, y);
      CapReach(p.Set(r, y), r, now);
      Chain(p, p.Set(r, y), CapChildEnds(p.Set(r, y), r, now));
    } else {
      SameReach(p);
    }
  }

  // ---- runs ----

  /** One service call, or the automatic start of the next stage once a stage is finished. */
  datatype Step = Service(call: Call) | Advance(order: nat, gate: Gate, now: real)

  ghost predicate Possible(p: Plant, s: Step) {
    match s
    case Service(c) => Refers(p, c)
    case Advance(o, _, _) => p.Has(o)
  }

  ghost function Perform(p: Plant, s: Step): (q: Plant)
    requires p.Valid() && Possible(p, s)
    ensures q.Valid()
  {
    match s
    case Service(c) => Apply(p, c)
    case Advance(o, gate, now) => FinishStage(p, o, Some(gate), now).plant
  }

  lemma RejectReach(p: Plant, l: nat)
    requires p.Valid() && l < |p.logs|
    ensures Reach(p, RejectLog(p, l).plant)
  {
    LogsReach(p, SetLog(p, l, Rejected).logs);
  }

  lemma CallReach(p: Plant, c: Call, q: Plant)
    requires p.Valid() && Refers(p, c)
    ensures q == Apply(p, c) ==> Reach(p, q)
  {
    match c
    case Report(o, n, completion, now) => CreateLogReach(p, o, n, completion, now);
    case ApproveCall(l, target, slot, now) => ApproveLogReach(p, l, target, slot, now);
    case RejectCall(l) => RejectReach(p, l);
    case SplitCall(o, n, machine, finish, slot, now) => SplitReach(p, o, n, machine, finish, slot, now, Apply(p, c));
    case CancelCall(s, chosen, now) => CancelSplitReach(p, s, chosen, now);
    case CombineCall(ids, o, now) => CombineReach(p, ids, o, now);
    case ReleaseCall(o, n, machine) => ReleaseReach(p, o, n, machine);
    case MoveCall(o, status) => TransitionReach(p, o, status);
    case SyncCall(r, now) => SyncParentCallReach(p, r, now);
    case ReceiptCall(r) => ReceiptReach(p, r);
    case CloseCall(r, ready, now) => CloseReach(p, r, ready, now);
    case CompensateCall(k, n) => CompensateReach(p, k, n);
    case AcceptCall(k, n) => AcceptScrapReach(p, k, n);
  }

  lemma StepReach(p: Plant, s: Step, q: Plant)
    requires p.Valid() && Possible(p, s)
    ensures q == Perform(p, s) ==> Reach(p, q)
  {
    match s
    case Advance(o, gate, now) => FinishStageReach(p, o, Some(gate), now);
    case Service(c) => CallReach(p, c, q);
  }

  /** `q` is reached from `p` by the steps, whatever they are. */
  ghost predicate Run(p: Plant, steps: seq<Step>, q: Plant)
    decreases |steps|
  {
    if steps == [] then p == q
    else p.Valid() && Possible(p, steps[0]) && Run(Perform(p, steps[0]), steps[1..], q)
  }

  lemma {:induction false} RunReach(p: Plant, steps: seq<Step>, q: Plant)
    requires p.Valid() && Run(p, steps, q)
    ensures q.Valid() && Reach(p, q)
    decreases |steps|
  {
    if steps == [] {
      SameReach(p);
    } else {
      var m := Perform(p, steps[0]);
      StepReach(p, steps[0], m);
      RunReach(m, steps[1..], q);
      Chain(p, m, q);
    }
  }

  lemma LawfulAt(q: Plant, r: nat)
    requires Lawful(q) && q.Has(r)
    ensures Settled(q.orders[r])
    ensures q.orders[r].status == Completed && !q.orders[r].closed ==> ChildrenCompleted(q, r)
  {
    forall i | 0 <= i < |q.orders| && q.orders[i].parent == Some(r) && q.orders[r].status == Completed
      && !q.orders[r].closed
      ensures q.orders[i].status == Completed
    {
      assert FinishedBelow(q, i);
    }
  }

  /**
   * Over every run of any calls: a completed parent that the planner has not closed has only completed tasks,
   * and a closed order stays completed, received by the store and without open planner action.
   */
  lemma RunsStayLawful(p: Plant, steps: seq<Step>, q: Plant, r: nat)
    requires p.Valid() && Lawful(p) && Run(p, steps, q) && q.Has(r)
    ensures q.orders[r].status == Completed && !q.orders[r].closed ==> ChildrenCompleted(q, r)
    ensures q.orders[r].closed ==> (q.orders[r].status == Completed && q.orders[r].receipt == Received
      && !q.orders[r].plannerAction)
  {
    RunReach(p, steps, q);
    LawfulAt(q, r);
  }

  // ---- which orders can still be completed ----

  /** An order on its way, with no task that is stuck. */
  predicate Completable(p: Plant, r: nat)
    requires p.Has(r)
  {
    && (p.orders[r].status == Pending || p.orders[r].status == InProgress)
    && forall i :: 0 <= i < |p.orders| && p.orders[i].parent == Some(r) ==> !Stuck(p.orders[i].status)
  }

  /** An open order that is stuck, or has a stuck task, is never completed or closed in any run. */
  lemma StuckIsForEver(p: Plant, steps: seq<Step>, q: Plant, r: nat)
    requires p.Valid() && Lawful(p) && Run(p, steps, q) && p.Has(r) && p.orders[r].status != Completed
      && !Completable(p, r)
    ensures q.Has(r) && q.orders[r].status != Completed && !q.orders[r].closed
  {
    RunReach(p, steps, q);
    if !Stuck(p.orders[r].status) {
      var c :| 0 <= c < |p.orders| && p.orders[c].parent == Some(r) && Stuck(p.orders[c].status);
      assert StuckChild(p, r, c);
    }
    assert Settled(q.orders[r]);
  }

  /** A run can be continued by a step. */
  lemma {:induction false} RunThenStep(p: Plant, steps: seq<Step>, m: Plant, s: Step, q: Plant)
    requires p.Valid() && Run(p, steps, m) && m.Valid() && Possible(m, s) && q == Perform(m, s)
    ensures Run(p, steps + [s], q)
    decreases |steps|
  {
    if steps == [] {
      assert (steps + [s])[1..] == [];
    } else {
      RunThenStep(Perform(p, steps[0]), steps[1..], m, s, q);
      assert (steps + [s])[1..] == steps[1..] + [s];
    }
  }

  /** `q` is reached from `p` by status changes that the lifecycle allows. */
  ghost predicate Moves(p: Plant, moves: seq<(nat, Status)>, q: Plant)
    decreases |moves|
  {
    if moves == [] then p == q
    else
      var (i, s) := moves[0];
      p.Has(i) && MayMove(p, i, s) && Moves(p.Set(i, p.orders[i].(status := s)), moves[1..], q)
  }

  lemma {:induction false} MovesThenMove(p: Plant, moves: seq<(nat, Status)>, m: Plant, i: nat, s: Status, q: Plant)
    requires Moves(p, moves, m) && m.Has(i) && MayMove(m, i, s) && q == m.Set(i, m.orders[i].(status := s))
    ensures Moves(p, moves + [(i, s)], q)
    decreases |moves|
  {
    if moves == [] {
      assert (moves + [(i, s)])[1..] == [];
    } else {
      var (j, t) := moves[0];
      MovesThenMove(p.Set(j, p.orders[j].(status := t)), moves[1..], m, i, s, q);
      assert (moves + [(i, s)])[1..] == moves[1..] + [(i, s)];
    }
  }

  function AsSteps(moves: seq<(nat, Status)>): (steps: seq<Step>)
    ensures |steps| == |moves| && forall k :: 0 <= k < |moves| ==> steps[k] == Service(MoveCall(moves[k].0, moves[k].1))
  {
    seq(|moves|, k requires 0 <= k < |moves| => Service(MoveCall(moves[k].0, moves[k].1)))
  }

  /** Status changes are calls like all others. */
  lemma {:induction false} MovesAreRun(p: Plant, moves: seq<(nat, Status)>, q: Plant)
    requires p.Valid() && Moves(p, moves, q)
    ensures Run(p, AsSteps(moves), q)
    decreases |moves|
  {
    if moves != [] {
      var (i, s) := moves[0];
      MovesAreRun(p.Set(i, p.orders[i].(status := s)), moves[1..], q);
      assert AsSteps(moves)[1..] == AsSteps(moves[1..]);
      assert Perform(p, AsSteps(moves)[0]) == p.Set(i, p.orders[i].(status := s));
    }
  }

  lemma StartIfPending(p: Plant, moves: seq<(nat, Status)>, m: Plant, i: nat)
      returns (more: seq<(nat, Status)>, q: Plant)
    requires Moves(p, moves, m) && m.Has(i) && (m.orders[i].status == Pending ==> !m.orders[i].closed)
    ensures Moves(p, more, q)
    ensures q == if m.orders[i].status == Pending then m.Set(i, m.orders[i].(status := InProgress)) else m
  {
    more, q := moves, m;
    if m.orders[i].status == Pending {
      q := m.Set(i, m.orders[i].(status := InProgress));
      MovesThenMove(p, moves, m, i, InProgress, q);
      more := moves + [(i, InProgress)];
    }
  }

  /** The order is open, or completed already, and its tasks are all completed. */
  predicate CanFinish(m: Plant, i: nat) {
    m.Has(i) && ChildrenCompleted(m, i) && !Stuck(m.orders[i].status)
      && (m.orders[i].closed ==> m.orders[i].status == Completed)
  }

  /** An order whose tasks are all completed is completed by starting it, if need be, and finishing it. */
  lemma FinishOne(p: Plant, moves: seq<(nat, Status)>, m: Plant, i: nat) returns (more: seq<(nat, Status)>)
    requires Moves(p, moves, m) && m.Valid() && CanFinish(m, i)
    ensures Moves(p, more, m.Set(i, m.orders[i].(status := Completed)))
  {
    var started;
    more, started := StartIfPending(p, moves, m, i);
    var q := m.Set(i, m.orders[i].(status := Completed));
    if m.orders[i].status == Completed {
      assert q.orders == m.orders;
    } else {
      StartedCanFinish(m, i, started, q);
      MovesThenMove(p, more, started, i, Completed, q);
      more := more + [(i, Completed)];
    }
  }

  lemma StartedCanFinish(m: Plant, i: nat, started: Plant, q: Plant)
    requires m.Has(i) && ChildrenCompleted(m, i) && !Stuck(m.orders[i].status) && m.orders[i].status != Completed
    requires started == if m.orders[i].status == Pending then m.Set(i, m.orders[i].(status := InProgress)) else m
    requires q == m.Set(i, m.orders[i].(status := Completed)) && (m.Valid() ==> m.orders[i].parent != Some(i))
    ensures m.Valid() ==> MayMove(started, i, Completed)
    ensures q == started.Set(i, started.orders[i].(status := Completed))
  {
    assert q.orders == started.orders[i := started.orders[i].(status := Completed)];
  }

  /** `p` with the tasks of `r` among the first `n` orders completed. */
  function Finished(p: Plant, r: nat, n: nat): (q: Plant)
    ensures |q.orders| == |p.orders|
  {
    p.(orders := seq(|p.orders|, i requires 0 <= i < |p.orders| =>
      var x := p.orders[i];
      if i < n && x.parent == Some(r) then x.(status := Completed) else x))
  }

  /** Order `i` can be finished when its turn comes, if it is a task of `r`; `next` is the state after that. */
  ghost predicate CanFinishNext(p: Plant, m: Plant, r: nat, i: nat, next: Plant) {
    && p.Has(i) && m.Has(i)
    && if p.orders[i].parent == Some(r) then CanFinish(m, i)
      && next == m.Set(i, m.orders[i].(status := Completed)) else next == m
  }

  lemma NextCanBeFinished(p: Plant, r: nat, n: nat)
    requires p.Valid() && Lawful(p) && 0 < n <= |p.orders|
    requires p.orders[n - 1].parent == Some(r) ==> !Stuck(p.orders[n - 1].status)
    ensures CanFinishNext(p, Finished(p, r, n - 1), r, n - 1, Finished(p, r, n))
  {
    OneMoreFinished(p, r, n);
    if p.orders[n - 1].parent == Some(r) {
      TaskCanBeFinished(p, Finished(p, r, n - 1), r, n - 1);
    }
  }

  lemma FinishNext(p: Plant, before: seq<(nat, Status)>, m: Plant, r: nat, i: nat, next: Plant)
      returns (moves: seq<(nat, Status)>)
    requires Moves(p, before, m) && m.Valid() && CanFinishNext(p, m, r, i, next)
    ensures Moves(p, moves, next) && next.Valid()
  {
    if p.orders[i].parent == Some(r) {
      moves := FinishOne(p, before, m, i);
    } else {
      moves := before;
    }
  }

  lemma {:induction false} FinishTasks(p: Plant, r: nat, n: nat) returns (moves: seq<(nat, Status)>)
    requires p.Valid() && Lawful(p) && n <= |p.orders|
    requires forall i :: 0 <= i < |p.orders| && p.orders[i].parent == Some(r) ==> !Stuck(p.orders[i].status)
    ensures Finished(p, r, n).Valid() && Moves(p, moves, Finished(p, r, n))
  {
    if n == 0 {
      moves := [];
      NothingFinished(p, r);
    } else {
      var before := FinishTasks(p, r, n - 1);
      NextCanBeFinished(p, r, n);
      moves := FinishNext(p, before, Finished(p, r, n - 1), r, n - 1, Finished(p, r, n));
    }
  }

  lemma NothingFinished(p: Plant, r: nat)
    ensures Finished(p, r, 0) == p && Moves(p, [], p)
  {
    assert Finished(p, r, 0).orders == p.orders;
  }

  lemma TaskCanBeFinished(p: Plant, m: Plant, r: nat, i: nat)
    requires p.Valid() && Lawful(p) && m == Finished(p, r, i)
    requires p.Has(i) && p.orders[i].parent == Some(r) && !Stuck(p.orders[i].status)
    ensures CanFinish(m, i)
  {
    assert Settled(p.orders[i]);
    TasksHaveNoTasks(p, i);
  }

  lemma OneMoreFinished(p: Plant, r: nat, n: nat)
    requires 0 < n <= |p.orders|
    ensures var m := Finished(p, r, n - 1);
      Finished(p, r, n) == if p.orders[n - 1].parent == Some(r)
        then m.Set(n - 1, m.orders[n - 1].(status := Completed)) else m
  {
    var m := Finished(p, r, n - 1);
    if p.orders[n - 1].parent == Some(r) {
      assert Finished(p, r, n).orders == m.orders[n - 1 := m.orders[n - 1].(status := Completed)];
    } else {
      assert Finished(p, r, n).orders == m.orders;
    }
  }

  lemma TasksHaveNoTasks(p: Plant, i: nat)
    requires p.Valid() && p.Has(i) && p.orders[i].parent.Some?
    ensures ChildrenCompleted(p, i)
  {
  }

  /** The run completes order `r`. */
  ghost predicate Completes(p: Plant, steps: seq<Step>, q: Plant, r: nat) {
    Run(p, steps, q) && q.Has(r) && q.orders[r].status == Completed
  }

  lemma CompletableIsCompleted(p: Plant, r: nat) returns (steps: seq<Step>, q: Plant)
    requires p.Valid() && Lawful(p) && p.Has(r) && Completable(p, r)
    ensures Completes(p, steps, q, r)
  {
    var m := Finished(p, r, |p.orders|);
    var before := FinishTasks(p, r, |p.orders|);
    ParentCanBeFinished(p, m, r);
    var moves := FinishOne(p, before, m, r);
    q := m.Set(r, m.orders[r].(status := Completed));
    MovesAreRun(p, moves, q);
    steps := AsSteps(moves);
  }

  lemma ParentCanBeFinished(p: Plant, m: Plant, r: nat)
    requires p.Valid() && Lawful(p) && p.Has(r) && m == Finished(p, r, |p.orders|)
    ensures m.orders[r] == p.orders[r] && ChildrenCompleted(m, r)
    ensures p.orders[r].closed ==> p.orders[r].status == Completed
  {
    assert Settled(p.orders[r]);
    assert p.orders[r].parent != Some(r);
  }

  /**
   * From a lawful plant an open order can be completed in some run exactly if neither it nor one of its tasks is stuck.
   */
  lemma CanBeCompletedExactly(p: Plant, r: nat)
    requires p.Valid() && Lawful(p) && p.Has(r) && p.orders[r].status != Completed
    ensures (exists steps, q :: Completes(p, steps, q, r)) <==> Completable(p, r)
  {
    if Completable(p, r) {
      var steps, q := CompletableIsCompleted(p, r);
    } else {
      forall steps, q | Run(p, steps, q)
        ensures !Completes(p, steps, q, r)
      {
        StuckIsForEver(p, steps, q, r);
      }
    }
  }

  lemma ReturnLeavesCanceled(p: Plant, s: nat, t: nat, y: Order, now: real)
    requires p.Valid() && p.Has(s) && p.Has(t) && s != t
    requires y == p.orders[t].(quantity := y.quantity, base := y.base, end := y.end, progress := y.progress)
    ensures var z := ReturnTo(p, s, t, y, now);
      |z.orders| == |p.orders| && z.orders[s].parent == p.orders[s].parent && z.orders[s].status == Canceled
      && forall i :: 0 <= i < |p.orders| && i != s ==> (z.orders[i].status == p.orders[i].status
        && z.orders[i].closed == p.orders[i].closed)
  {
  }

  /**
   * Canceling a split of a stage task, though the quantity is returned, leaves its open parent unable ever to be
   * completed.
   */
  lemma CancelSplitBlocksParent(p: Plant, s: nat, chosen: Option<nat>, now: real, r: nat, steps: seq<Step>, q: Plant)
    requires p.Valid() && Lawful(p) && p.Has(s) && p.orders[s].parent == Some(r) && p.Has(r) && !p.orders[r].closed
    requires CancelSplit(p, s, chosen, now).Done? && Run(CancelSplit(p, s, chosen, now).plant, steps, q)
    ensures q.Has(r) && q.orders[r].status != Completed
  {
    var t, y := CancelPieces(p, s, chosen, now);
    ReturnLeavesCanceled(p, s, t, y, now);
    CancelSplitReach(p, s, chosen, now);
    assert FinishedBelow(p, s);
    StuckIsForEver(ReturnTo(p, s, t, y, now), steps, q, r);
  }

  lemma MergedSourceIsCanceled(p: Plant, ids: seq<nat>, target: nat, y: Order, now: real, j: nat)
    requires p.Valid() && DistinctOrders(p, ids) && j < |ids| && ids[j] != target && p.Has(target)
    requires y == p.orders[target].(quantity := y.quantity, base := y.base, end := y.end, progress := y.progress)
    ensures var z := CancelSources(SyncParentQuantity(p.Set(target, y), target), ids, |ids|, target, now);
      z.Has(ids[j]) && z.orders[ids[j]].status == Canceled && z.orders[ids[j]].parent == p.orders[ids[j]].parent
  {
    var m := SyncParentQuantity(p.Set(target, y), target);
    SourcesAreCanceled(m, ids, |ids|, target, now);
    assert IsSource(ids, |ids|, target, ids[j]);
  }

  /** So does merging a stage task into another. */
  lemma CombineBlocksParent(p: Plant, ids: seq<nat>, target: nat, now: real, j: nat, r: nat, steps: seq<Step>, q: Plant)
    requires p.Valid() && Lawful(p) && DistinctOrders(p, ids) && Combine(p, ids, target, now).Done?
    requires j < |ids| && ids[j] != target && p.orders[ids[j]].parent == Some(r) && p.Has(r) && !p.orders[r].closed
    requires Run(Combine(p, ids, target, now).plant, steps, q)
    ensures q.Has(r) && q.orders[r].status != Completed
  {
    var y := CombinePieces(p, ids, target, now);
    var z := Combine(p, ids, target, now).plant;
    MergedSourceIsCanceled(p, ids, target, y, now, j);
    CombineReach(p, ids, target, now);
    assert FinishedBelow(p, ids[j]) && FinishedBelow(z, ids[j]);
    OpenParentStaysOpen(p, ids, target, now, r);
    StuckIsForEver(z, steps, q, r);
  }

  lemma OpenParentStaysOpen(p: Plant, ids: seq<nat>, target: nat, now: real, r: nat)
    requires p.Valid() && DistinctOrders(p, ids) && Combine(p, ids, target, now).Done? && p.Has(r)
      && !p.orders[r].closed
    ensures Combine(p, ids, target, now).plant.Has(r) && !Combine(p, ids, target, now).plant.orders[r].closed
  {
    var y := CombinePieces(p, ids, target, now);
    MergeClosesNothing(p, ids, target, y, now, SyncParentQuantity(p.Set(target, y), target));
  }

  lemma MergeClosesNothing(p: Plant, ids: seq<nat>, target: nat, y: Order, now: real, m: Plant)
    requires p.Valid() && DistinctOrders(p, ids) && p.Has(target) && y.closed == p.orders[target].closed
    requires m == SyncParentQuantity(p.Set(target, y), target)
    ensures var z := CancelSources(m, ids, |ids|, target, now);
      |z.orders| == |p.orders| && forall i :: 0 <= i < |p.orders| ==> z.orders[i].closed == p.orders[i].closed
  {
    SyncClosesNothing(p, target, y, m);
    SourcesAreCanceled(m, ids, |ids|, target, now);
  }

  lemma SyncClosesNothing(p: Plant, o: nat, y: Order, m: Plant)
    requires p.Has(o) && y.closed == p.orders[o].closed && m == SyncParentQuantity(p.Set(o, y), o)
    ensures |m.orders| == |p.orders| && forall i :: 0 <= i < |p.orders| ==> m.orders[i].closed == p.orders[i].closed
  {
  }

  /** A running order with one pending task of ten units and a pending split of four units from it. */
  function SplitTaskPlant(): Plant {
    var root := Order(None, None, 0, 0, 0, false, None, false, 10, None, 0, 0, InProgress, false, false, false,
                      NotRequested, None, None, 0.0);
    var task := root.(parent := Some(0), status := Pending);
    Plant(2, [root, task, task.(source := Some(1), quantity := 4)], [], [])
  }

  lemma SplitTaskPlantIsLawful()
    ensures SplitTaskPlant().Valid() && Lawful(SplitTaskPlant()) && Completable(SplitTaskPlant(), 0)
  {
    var p := SplitTaskPlant();
    forall i | 0 <= i < |p.orders|
      ensures Settled(p.orders[i]) && FinishedBelow(p, i)
    {
    }
  }

  lemma SplitTaskCanBeCanceled(now: real)
    ensures SplitTaskPlant().Valid() && CancelSplit(SplitTaskPlant(), 2, None, now).Done?
  {
    var p := SplitTaskPlant();
    SourceTakesBack(p, 2, 1);
    assert CancelError(p, 2, None).None?;
  }

  lemma SourceTakesBack(p: Plant, s: nat, t: nat)
    requires p.Valid() && p.Has(s) && p.orders[s].source == Some(t) && !p.orders[t].Terminal()
    ensures ReturnTarget(p, s, None) == Some(t)
  {
  }

  /** The running order could be completed; once its split is canceled it cannot, whatever is called. */
  lemma CanceledSplitExample(now: real, steps: seq<Step>, q: Plant)
    ensures var p := SplitTaskPlant();
      && p.Valid() && CancelSplit(p, 2, None, now).Done? && (exists calls, z :: Completes(p, calls, z, 0))
      && !Completes(CancelSplit(p, 2, None, now).plant, steps, q, 0)
  {
    var p := SplitTaskPlant();
    SplitTaskPlantIsLawful();
    SplitTaskCanBeCanceled(now);
    CanBeCompletedExactly(p, 0);
    if Run(CancelSplit(p, 2, None, now).plant, steps, q) {
      CancelSplitBlocksParent(p, 2, None, now, 0, steps, q);
    }
  }
}
