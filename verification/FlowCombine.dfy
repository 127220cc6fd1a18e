/** Merging orders keeps a route sound. */
module FlowCombine {
  import opened Common
  import opened Flow
  import opened Sums
  import opened FlowInvariant
  import opened FlowMoves

  /** `i` is one of the first `n` orders of the set and not the target. */
  ghost predicate IsSource(ids: seq<nat>, n: nat, target: nat, i: nat) {
    i != target && exists j :: 0 <= j < n && j < |ids| && ids[j] == i
  }

  lemma {:induction false} SourcesAreCanceled(b: Plant, ids: seq<nat>, n: nat, target: nat, now: real)
    requires n <= |ids| && forall i :: 0 <= i < |ids| ==> ids[i] < |b.orders|
    requires forall i, j :: 0 <= i < j < |ids| ==> ids[i] != ids[j]
    ensures var z := CancelSources(b, ids, n, target, now);
      z.logs == b.logs && forall i :: 0 <= i < |b.orders| ==>
        z.orders[i] == if IsSource(ids, n, target, i) then CanceledOrder(b.orders[i], now) else b.orders[i]
    decreases n
  {
    if n > 0 {
      SourcesAreCanceled(b, ids, n - 1, target, now);
      forall i | 0 <= i < |b.orders|
        ensures IsSource(ids, n, target, i) <==> IsSource(ids, n - 1, target, i) || (i == ids[n - 1] && i != target)
      {
      }
    }
  }

  /** Quantities of the sources among the first `n`. */
  function SourceQuantity(p: Plant, ids: seq<nat>, n: nat, target: nat): nat
    requires n <= |ids| && forall i :: 0 <= i < |ids| ==> ids[i] < |p.orders|
  {
    if n == 0 then 0
    else SourceQuantity(p, ids, n - 1, target) + if ids[n - 1] == target then 0 else p.orders[ids[n - 1]].quantity
  }

  lemma {:induction false} TotalIsTargetPlusSources(p: Plant, ids: seq<nat>, n: nat, target: nat)
    requires n <= |ids| && target < |p.orders| && forall i :: 0 <= i < |ids| ==> ids[i] < |p.orders|
    requires forall i, j :: 0 <= i < j < |ids| ==> ids[i] != ids[j]
    ensures TotalQuantity(p, ids, n) == SourceQuantity(p, ids, n, target)
      + if exists j :: 0 <= j < n && ids[j] == target then p.orders[target].quantity else 0
    decreases n
  {
    if n > 0 {
      TotalIsTargetPlusSources(p, ids, n - 1, target);
    }
  }

  lemma {:induction false} Untouched(b: Plant, ids: seq<nat>, n: nat, target: nat, now: real, i: nat)
    requires n <= |ids| && i < |b.orders| && forall j :: 0 <= j < |ids| ==> ids[j] < |b.orders|
    requires forall j :: 0 <= j < n ==> ids[j] != i
    ensures CancelSources(b, ids, n, target, now).orders[i] == b.orders[i]
    decreases n
  {
    if n > 0 {
      Untouched(b, ids, n - 1, target, now, i);
    }
  }

  /** One step of the cancellation: source `x` at position `n - 1`. */
  lemma CancelOneVectors(b: Plant, ids: seq<nat>, n: nat, target: nat, now: real, x: Order, r: nat, k: nat)
    requires 0 < n <= |ids| && (forall i :: 0 <= i < |ids| ==> ids[i] < |b.orders|) && ids[n - 1] != target
    requires CancelSources(b, ids, n - 1, target, now).orders[ids[n - 1]] == x && !x.Inactive()
    ensures Sum(Released(CancelSources(b, ids, n, target, now), r, k))
      == Sum(Released(CancelSources(b, ids, n - 1, target, now), r, k))
    ensures Sum(Planned(CancelSources(b, ids, n, target, now), r, k)) + (if TaskOf(x, r, k) then x.quantity else 0)
         == Sum(Planned(CancelSources(b, ids, n - 1, target, now), r, k))
  {
    SetVectors(CancelSources(b, ids, n - 1, target, now), ids[n - 1], CanceledOrder(x, now), r, k);
  }

  ghost predicate AllAt(b: Plant, ids: seq<nat>, r: nat, k: nat, here: bool)
    requires forall i :: 0 <= i < |ids| ==> ids[i] < |b.orders|
  {
    forall i :: 0 <= i < |ids| ==> !b.orders[ids[i]].Inactive() && TaskOf(b.orders[ids[i]], r, k) == here
  }

  /** From `b` to `z` the plan of stage `k` loses `taken`, and nothing that was released. */
  ghost predicate PlanLess(b: Plant, z: Plant, r: nat, k: nat, taken: int) {
    Sum(Released(z, r, k)) == Sum(Released(b, r, k)) && Sum(Planned(z, r, k)) + taken == Sum(Planned(b, r, k))
  }

  lemma PlanLessTwice(b: Plant, m: Plant, z: Plant, r: nat, k: nat, t: int, u: int, v: int)
    requires v == t + u
    ensures PlanLess(b, m, r, k, t) && PlanLess(m, z, r, k, u) ==> PlanLess(b, z, r, k, v)
  {
  }

  /**
   * Canceling the sources takes exactly their quantities off the plan; `here` tells whether they stand at this stage.
   */
  lemma {:induction false} CanceledVectors(b: Plant, ids: seq<nat>, n: nat, target: nat, now: real, r: nat, k: nat,
                                           here: bool)
    requires n <= |ids| && forall i :: 0 <= i < |ids| ==> ids[i] < |b.orders|
    requires forall i, j :: 0 <= i < j < |ids| ==> ids[i] != ids[j]
    requires AllAt(b, ids, r, k, here)
    ensures PlanLess(b, CancelSources(b, ids, n, target, now), r, k,
                     if here then SourceQuantity(b, ids, n, target) else 0)
    decreases n
  {
    if n == 0 {
      NoSourcesYet(b, ids, target, now);
    } else {
      CanceledVectors(b, ids, n - 1, target, now, r, k, here);
      CanceledNext(b, ids, n, target, now, r, k, here);
    }
  }

  lemma CanceledNext(b: Plant, ids: seq<nat>, n: nat, target: nat, now: real, r: nat, k: nat, here: bool)
    requires 0 < n <= |ids| && forall i :: 0 <= i < |ids| ==> ids[i] < |b.orders|
    requires forall i, j :: 0 <= i < j < |ids| ==> ids[i] != ids[j]
    requires AllAt(b, ids, r, k, here)
    ensures PlanLess(b, CancelSources(b, ids, n - 1, target, now), r, k,
                     if here then SourceQuantity(b, ids, n - 1, target) else 0)
        ==> PlanLess(b, CancelSources(b, ids, n, target, now), r, k,
                     if here then SourceQuantity(b, ids, n, target) else 0)
  {
    var m, z := CancelSources(b, ids, n - 1, target, now), CancelSources(b, ids, n, target, now);
    var t := if here then SourceQuantity(b, ids, n - 1, target) else 0;
    var u := CanceledOneMore(b, ids, n, target, now, r, k, here, m, z);
    PlanLessTwice(b, m, z, r, k, t, u, if here then SourceQuantity(b, ids, n, target) else 0);
  }

  lemma NoSourcesYet(b: Plant, ids: seq<nat>, target: nat, now: real)
    requires forall i :: 0 <= i < |ids| ==> ids[i] < |b.orders|
    ensures CancelSources(b, ids, 0, target, now) == b && SourceQuantity(b, ids, 0, target) == 0
  {
  }

  lemma CanceledOneMore(b: Plant, ids: seq<nat>, n: nat, target: nat, now: real, r: nat, k: nat, here: bool, m: Plant,
                        z: Plant)
      returns (u: int)
    requires 0 < n <= |ids| && forall i :: 0 <= i < |ids| ==> ids[i] < |b.orders|
    requires forall i, j :: 0 <= i < j < |ids| ==> ids[i] != ids[j]
    requires AllAt(b, ids, r, k, here)
    requires m == CancelSources(b, ids, n - 1, target, now) && z == CancelSources(b, ids, n, target, now)
    ensures u == if here then SourceQuantity(b, ids, n, target) - SourceQuantity(b, ids, n - 1, target) else 0
    ensures PlanLess(m, z, r, k, u)
  {
    u := if here then SourceQuantity(b, ids, n, target) - SourceQuantity(b, ids, n - 1, target) else 0;
    assert !b.orders[ids[n - 1]].Inactive() && TaskOf(b.orders[ids[n - 1]], r, k) == here;
    if ids[n - 1] == target {
      assert z == m;
    } else {
      Untouched(b, ids, n - 1, target, now, ids[n - 1]);
      CancelOneVectors(b, ids, n, target, now, b.orders[ids[n - 1]], r, k);
    }
  }

  /** The target has everything, the sources are canceled: the plan of every stage is unchanged. */
  lemma CombinedVectors(p: Plant, ids: seq<nat>, target: nat, y: Order, now: real, r: nat, k: nat)
    requires forall i :: 0 <= i < |ids| ==> ids[i] < |p.orders|
    requires forall i, j :: 0 <= i < j < |ids| ==> ids[i] != ids[j]
    requires Combinable(p, ids, target) && Merged(p, ids, target, y)
    ensures var z := CancelSources(p.Set(target, y), ids, |ids|, target, now);
      Sum(Planned(z, r, k)) == Sum(Planned(p, r, k)) && Sum(Released(z, r, k)) == Sum(Released(p, r, k))
  {
    var b := p.Set(target, y);
    var first := ids[0];
    assert forall i :: 0 <= i < |ids| ==> Compatible(p.orders[ids[i]], p.orders[first]);
    CanceledVectors(b, ids, |ids|, target, now, r, k, TaskOf(p.orders[first], r, k));
    SetVectors(p, target, y, r, k);
    TotalIsTargetPlusSources(p, ids, |ids|, target);
    SameSourceQuantity(p, b, ids, |ids|, target);
    var j :| 0 <= j < |ids| && ids[j] == target;
    assert Compatible(p.orders[target], p.orders[ids[0]]);
  }

  lemma {:induction false} SameSourceQuantity(p: Plant, b: Plant, ids: seq<nat>, n: nat, target: nat)
    requires n <= |ids| && |b.orders| == |p.orders| && forall i :: 0 <= i < |ids| ==> ids[i] < |p.orders|
    requires forall i :: 0 <= i < |p.orders| && i != target ==> b.orders[i] == p.orders[i]
    ensures SourceQuantity(b, ids, n, target) == SourceQuantity(p, ids, n, target)
    decreases n
  {
    if n > 0 {
      SameSourceQuantity(p, b, ids, n - 1, target);
    }
  }

  /** `y` is the target with the total quantity. */
  ghost predicate Merged(p: Plant, ids: seq<nat>, target: nat, y: Order)
    requires forall i :: 0 <= i < |ids| ==> ids[i] < |p.orders|
  {
    target < |p.orders|
    && y == p.orders[target].(quantity := TotalQuantity(p, ids, |ids|), base := y.base, end := y.end,
                              progress := y.progress)
  }

  lemma CombinedIsBacked(p: Plant, ids: seq<nat>, target: nat, y: Order, now: real)
    requires forall i :: 0 <= i < |ids| ==> ids[i] < |p.orders|
    requires forall i, j :: 0 <= i < j < |ids| ==> ids[i] != ids[j]
    requires Combinable(p, ids, target) && Merged(p, ids, target, y) && Backed(p)
    ensures Backed(CancelSources(p.Set(target, y), ids, |ids|, target, now))
  {
    var z := CancelSources(p.Set(target, y), ids, |ids|, target, now);
    forall r: nat, k: nat | true
      ensures BackedAt(z, r, k)
    {
      CombinedVectors(p, ids, target, y, now, r, k + 1);
      CombinedVectors(p, ids, target, y, now, r, k);
      assert BackedAt(p, r, k);
    }
  }

  lemma CombinedTask(p: Plant, ids: seq<nat>, target: nat, y: Order, now: real, i: nat)
    requires forall i :: 0 <= i < |ids| ==> ids[i] < |p.orders|
    requires forall i, j :: 0 <= i < j < |ids| ==> ids[i] != ids[j]
    requires Combinable(p, ids, target) && Merged(p, ids, target, y) && p.Has(i) && TaskSound(p, i)
    ensures TaskSound(CancelSources(p.Set(target, y), ids, |ids|, target, now), i)
  {
    SourcesAreCanceled(p.Set(target, y), ids, |ids|, target, now);
    TotalIsTargetPlusSources(p, ids, |ids|, target);
    if IsSource(ids, |ids|, target, i) {
      var j :| 0 <= j < |ids| && ids[j] == i;
      assert !HasLogs(p, ids[j]);
      NoLogsNoOutput(p.logs, i, Approved);
      NoLogsNoOutput(p.logs, i, Waiting);
    }
  }

  lemma CombinedIsSound(p: Plant, ids: seq<nat>, target: nat, y: Order, now: real)
    requires forall i :: 0 <= i < |ids| ==> ids[i] < |p.orders|
    requires forall i, j :: 0 <= i < j < |ids| ==> ids[i] != ids[j]
    requires Combinable(p, ids, target) && Merged(p, ids, target, y) && Sound(p)
    ensures Sound(CancelSources(p.Set(target, y), ids, |ids|, target, now))
  {
    CombinedIsBacked(p, ids, target, y, now);
    var z := CancelSources(p.Set(target, y), ids, |ids|, target, now);
    forall i | 0 <= i < |z.orders|
      ensures TaskSound(z, i)
    {
      CombinedTask(p, ids, target, y, now, i);
    }
  }

  /** Letting the parent follow first changes no task: the parent is not among the merged orders. */
  lemma SyncBeforeCancelingSources(p: Plant, ids: seq<nat>, target: nat, y: Order, now: real)
    requires forall i :: 0 <= i < |ids| ==> ids[i] < |p.orders|
    requires forall i, j :: 0 <= i < j < |ids| ==> ids[i] != ids[j]
    requires p.Valid() && Combinable(p, ids, target) && Merged(p, ids, target, y)
    ensures SameTasks(CancelSources(p.Set(target, y), ids, |ids|, target, now),
                      CancelSources(SyncParentQuantity(p.Set(target, y), target), ids, |ids|, target, now))
  {
    var b := p.Set(target, y);
    var c := SyncParentQuantity(b, target);
    SyncParentKeepsTasks(b, target);
    SourcesOfSameTasks(b, c, ids, target, now);
  }

  lemma SourcesOfSameTasks(b: Plant, c: Plant, ids: seq<nat>, target: nat, now: real)
    requires forall i :: 0 <= i < |ids| ==> ids[i] < |b.orders|
    requires forall i, j :: 0 <= i < j < |ids| ==> ids[i] != ids[j]
    requires SameTasks(b, c)
    ensures SameTasks(CancelSources(b, ids, |ids|, target, now), CancelSources(c, ids, |ids|, target, now))
  {
    SourcesAreCanceled(b, ids, |ids|, target, now);
    SourcesAreCanceled(c, ids, |ids|, target, now);
  }

  lemma CombineShape(p: Plant, ids: seq<nat>, target: nat, now: real) returns (y: Order)
    requires forall i :: 0 <= i < |ids| ==> ids[i] < |p.orders|
    requires forall i, j :: 0 <= i < j < |ids| ==> ids[i] != ids[j]
    requires p.Valid() && Combine(p, ids, target, now).Done?
    ensures Combinable(p, ids, target) && Merged(p, ids, target, y)
    ensures Combine(p, ids, target, now).plant
      == CancelSources(SyncParentQuantity(p.Set(target, y), target), ids, |ids|, target, now)
  {
    y := Grown(p.orders[target], TotalQuantity(p, ids, |ids|), p.Reported(target, Approved));
  }

  lemma CombineKeepsSound(p: Plant, ids: seq<nat>, target: nat, now: real)
    requires forall i :: 0 <= i < |ids| ==> ids[i] < |p.orders|
    requires forall i, j :: 0 <= i < j < |ids| ==> ids[i] != ids[j]
    requires Sound(p)
    ensures Sound(Combine(p, ids, target, now).plant)
  {
    if Combine(p, ids, target, now).Done? {
      var y := CombineShape(p, ids, target, now);
      CombinedIsSound(p, ids, target, y, now);
      SyncBeforeCancelingSources(p, ids, target, y, now);
      SoundIffSameTasks(CancelSources(p.Set(target, y), ids, |ids|, target, now),
                        CancelSources(SyncParentQuantity(p.Set(target, y), target), ids, |ids|, target, now));
    } else {
      assert Combine(p, ids, target, now).plant == p;
    }
  }
}
