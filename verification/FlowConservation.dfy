/** Splitting, merging and canceling move quantity between leaf orders without creating or losing any. */
module FlowConservation {
  import opened Common
  import opened Flow
  import opened Sums
  import opened FlowInvariant
  import opened FlowMoves
  import opened FlowCombine
  import opened FlowRuns

  /** Quantity of an order that has no sub tasks and is not canceled or archived. */
  function LeafQuantity(p: Plant, i: nat): nat
    requires p.Has(i)
  {
    if p.IsParent(i) || p.orders[i].Inactive() then 0 else p.orders[i].quantity
  }

  function Leaves(p: Plant): (v: seq<nat>)
    ensures |v| == |p.orders| && forall i :: 0 <= i < |v| ==> v[i] == LeafQuantity(p, i)
  {
    seq(|p.orders|, i requires 0 <= i < |p.orders| => LeafQuantity(p, i))
  }

  function LeafTotal(p: Plant): nat {
    Sum(Leaves(p))
  }

  /** A leaf plans at least what it has already got approved. */
  ghost predicate Covered(p: Plant) {
    forall i :: 0 <= i < |p.orders| && !p.IsParent(i) ==> p.Reported(i, Approved) <= p.orders[i].quantity
  }

  /** Same hierarchy and logs; leaves keep quantity and activity. */
  ghost predicate SameLeaves(p: Plant, q: Plant) {
    && |p.orders| == |q.orders| && p.logs == q.logs
    && (forall i :: 0 <= i < |p.orders| ==> p.orders[i].parent == q.orders[i].parent)
    && forall i :: 0 <= i < |p.orders| && !p.IsParent(i) ==>
         p.orders[i].quantity == q.orders[i].quantity && p.orders[i].Inactive() == q.orders[i].Inactive()
  }

  lemma SameParents(p: Plant, q: Plant)
    requires |p.orders| == |q.orders| && forall i :: 0 <= i < |p.orders| ==> p.orders[i].parent == q.orders[i].parent
    ensures forall i :: p.IsParent(i) <==> q.IsParent(i)
  {
    forall i: nat | true
      ensures p.IsParent(i) <==> q.IsParent(i)
    {
      if p.IsParent(i) {
        var j :| 0 <= j < |p.orders| && p.orders[j].parent == Some(i);
        assert q.orders[j].parent == Some(i);
      }
      if q.IsParent(i) {
        var j :| 0 <= j < |q.orders| && q.orders[j].parent == Some(i);
        assert p.orders[j].parent == Some(i);
      }
    }
  }

  lemma SameLeavesSameTotal(p: Plant, q: Plant)
    ensures SameLeaves(p, q) ==> LeafTotal(p) == LeafTotal(q) && (Covered(p) <==> Covered(q))
  {
    if SameLeaves(p, q) {
      SameParents(p, q);
      assert Leaves(p) == Leaves(q);
      assert forall i :: 0 <= i < |p.orders| ==> p.Reported(i, Approved) == q.Reported(i, Approved);
    }
  }

  lemma SameLeavesCompose(p: Plant, q: Plant, z: Plant)
    ensures SameLeaves(p, q) && SameLeaves(q, z) ==> SameLeaves(p, z)
  {
    if SameLeaves(p, q) && SameLeaves(q, z) {
      SameParents(p, q);
    }
  }

  lemma StatusChangeKeepsLeaves(p: Plant, q: Plant, r: nat)
    requires p.Has(r)
    ensures StatusChange(p, q, r) ==> SameLeaves(p, q)
  {
  }

  lemma NextStageKeepsLeaves(p: Plant, o: nat, now: real)
    requires p.Valid() && p.Has(o)
    ensures SameLeaves(p, NextStage(p, o, now).plant)
  {
    var x := p.orders[o];
    if x.parent.None? {
      AfterStageIsStatusChange(p, o, o, now);
      StatusChangeKeepsLeaves(p, NextStage(p, o, now).plant, o);
    } else if x.status == Completed || MayMove(p, o, Completed) {
      var q := p.Set(o, x.(status := Completed, progress := 100.0, end := EndBy(x.end, now)));
      StatusChangeKeepsLeaves(p, q, o);
      AfterStageIsStatusChange(q, o, x.parent.value, now);
      StatusChangeKeepsLeaves(q, AfterStage(q, o, x.parent.value, None, now).plant, x.parent.value);
      SameLeavesCompose(p, q, AfterStage(q, o, x.parent.value, None, now).plant);
    }
  }

  lemma CloseAfterSplitKeepsLeaves(p: Plant, o: nat, approved: nat, now: real)
    requires p.Valid() && p.Has(o)
    ensures SameLeaves(p, CloseAfterSplit(p, o, approved, now).plant)
  {
    var x := p.orders[o];
    var q := p.Set(o, x.(status := Completed, end := EndBy(x.end, now)));
    if x.status == Pending || x.status == InProgress {
      StatusChangeKeepsLeaves(p, q, o);
      NextStageKeepsLeaves(q, o, now);
      SameLeavesCompose(p, q, NextStage(q, o, now).plant);
    }
  }

  /** The parent that follows a task's quantity is not a leaf. */
  lemma SyncedPairHasSameLeaves(p: Plant, o: nat, y: Order, w: Order)
    requires p.Valid() && p.Has(o) && y.parent == p.orders[o].parent && y.source == p.orders[o].source
    ensures SameLeaves(p.Set(o, y).Add(w), SyncParentQuantity(p.Set(o, y), o).Add(w))
  {
    var a := p.Set(o, y).Add(w);
    assert a.orders[o].parent == y.parent;
  }

  lemma SplitLeaves(p: Plant, o: nat, quantity: int, machine: nat, finish: Option<real>, slot: Slot, now: real)
      returns (y: Order, w: Order)
    requires p.Valid() && p.Has(o) && Splittable(p, o, quantity)
    ensures w.quantity == quantity && Shares(p.orders[o], o, y, w)
    ensures SameLeaves(p.Set(o, y).Add(w), Split(p, o, quantity, machine, finish, slot, now).plant)
  {
    var x := p.orders[o];
    y, w := Shrunk(x, quantity, p.Reported(o, Approved), finish), SplitOff(x, o, quantity, machine, slot);
    SplitShares(x, o, quantity, p.Reported(o, Approved), machine, finish, slot);
    var q := SyncParentQuantity(p.Set(o, y), o).Add(w);
    SyncedPairHasSameLeaves(p, o, y, w);
    CloseAfterSplitKeepsLeaves(q, o, p.Reported(o, Approved), now);
    SameLeavesCompose(p.Set(o, y).Add(w), q, Split(p, o, quantity, machine, finish, slot, now).plant);
  }

  /** Two orders sharing the quantity of a leaf have its total, and both stay covered. */
  lemma PairConserves(p: Plant, o: nat, y: Order, w: Order)
    requires p.Valid() && p.Has(o) && Covered(p) && !p.IsParent(o) && !p.orders[o].Inactive()
    requires Shares(p.orders[o], o, y, w) && w.quantity <= Monus(p.orders[o].quantity, p.Reported(o, Approved))
    ensures LeafTotal(p.Set(o, y).Add(w)) == LeafTotal(p) && Covered(p.Set(o, y).Add(w))
  {
    var a := p.Set(o, y).Add(w);
    PairHierarchy(p, o, y, w);
    assert Leaves(a) == Leaves(p)[o := y.quantity] + [w.quantity];
    SumUpdate(Leaves(p), o, y.quantity);
    SumAppend(Leaves(p)[o := y.quantity], w.quantity);
    PairIsCovered(p, o, y, w, a);
  }

  lemma PairIsCovered(p: Plant, o: nat, y: Order, w: Order, a: Plant)
    requires p.Valid() && p.Has(o) && Covered(p) && !p.IsParent(o)
    requires Shares(p.orders[o], o, y, w) && w.quantity <= Monus(p.orders[o].quantity, p.Reported(o, Approved))
    requires a == p.Set(o, y).Add(w)
    ensures Covered(a)
  {
    PairHierarchy(p, o, y, w);
    NewOrderHasNoOutput(p, Approved);
    forall i | 0 <= i < |a.orders| && !a.IsParent(i)
      ensures a.Reported(i, Approved) <= a.orders[i].quantity
    {
      assert i < |p.orders| ==> a.Reported(i, Approved) == p.Reported(i, Approved);
    }
  }

  lemma PairHierarchy(p: Plant, o: nat, y: Order, w: Order)
    requires p.Valid() && p.Has(o) && Shares(p.orders[o], o, y, w)
    ensures var a := p.Set(o, y).Add(w);
      (forall i :: 0 <= i < |p.orders| ==> (a.IsParent(i) <==> p.IsParent(i))) && !a.IsParent(|p.orders|)
  {
    var a := p.Set(o, y).Add(w);
    forall i | 0 <= i < |p.orders|
      ensures a.IsParent(i) <==> p.IsParent(i)
    {
      if p.IsParent(i) {
        var j :| 0 <= j < |p.orders| && p.orders[j].parent == Some(i);
        assert a.orders[j].parent == Some(i);
      }
      if a.IsParent(i) {
        var j :| 0 <= j < |a.orders| && a.orders[j].parent == Some(i);
        var k := if j < |p.orders| then j else o;
        assert p.orders[k].parent == Some(i);
      }
    }
  }

  lemma SplitConserves(p: Plant, o: nat, quantity: int, machine: nat, finish: Option<real>, slot: Slot, now: real)
    requires p.Valid() && p.Has(o) && Covered(p)
    ensures var q := Split(p, o, quantity, machine, finish, slot, now).plant;
      LeafTotal(q) == LeafTotal(p) && Covered(q)
  {
    if Splittable(p, o, quantity) {
      var y, w := SplitLeaves(p, o, quantity, machine, finish, slot, now);
      PairConserves(p, o, y, w);
      SameLeavesSameTotal(p.Set(o, y).Add(w), Split(p, o, quantity, machine, finish, slot, now).plant);
    }
  }

  // ---- cancel ----

  /** Changing one order in place changes the leaf total by what that order itself contributes. */
  lemma SetLeaf(q: Plant, i: nat, x: Order)
    requires q.Has(i) && x.parent == q.orders[i].parent
    ensures forall j :: q.Set(i, x).IsParent(j) <==> q.IsParent(j)
    ensures LeafTotal(q.Set(i, x)) + LeafQuantity(q, i) ==
      LeafTotal(q) + if q.IsParent(i) || x.Inactive() then 0 else x.quantity
  {
    var z := q.Set(i, x);
    SameParents(q, z);
    var n := if q.IsParent(i) || x.Inactive() then 0 else x.quantity;
    assert Leaves(z) == Leaves(q)[i := n];
    SumUpdate(Leaves(q), i, n);
  }

  /** Two plants that differ only in one parent order have the same leaves. */
  lemma ParentDoesNotCount(a: Plant, b: Plant, r: nat)
    requires DifferAt(a, b, r) && a.IsParent(r)
    ensures SameLeaves(a, b)
  {
  }

  lemma ReturnToLeaves(p: Plant, s: nat, t: nat, y: Order, now: real)
    requires p.Valid() && p.Has(s) && p.Has(t) && s != t && !p.IsParent(s)
    requires y.parent == p.orders[t].parent && y.source == p.orders[t].source
    ensures SameLeaves(p.Set(t, y).Set(s, CanceledOrder(p.orders[s], now)), ReturnTo(p, s, t, y, now))
  {
    var a, z := p.Set(t, y).Set(s, CanceledOrder(p.orders[s], now)), ReturnTo(p, s, t, y, now);
    assert p.orders[t].parent != Some(s);
    if y.parent.Some? {
      assert a.orders[t].parent == y.parent;
      ParentDoesNotCount(a, z, y.parent.value);
    } else {
      assert a == z;
    }
  }

  /** Returned quantity reaches the total only if the target is a leaf. */
  lemma ReturnConservesExactly(p: Plant, s: nat, t: nat, y: Order, now: real)
    requires p.Valid() && p.Has(s) && p.Has(t) && s != t && !p.IsParent(s) && !p.orders[s].Inactive()
      && !p.orders[t].Inactive()
    requires y == p.orders[t].(quantity := p.orders[t].quantity + p.orders[s].quantity, base := y.base, end := y.end,
                               progress := y.progress)
    ensures var a := p.Set(t, y).Set(s, CanceledOrder(p.orders[s], now));
      && LeafTotal(a) + (if p.IsParent(t) then p.orders[s].quantity else 0) == LeafTotal(p)
      && (Covered(p) ==> Covered(a))
  {
    var b := p.Set(t, y);
    SetLeaf(p, t, y);
    SetLeaf(b, s, CanceledOrder(p.orders[s], now));
    ReturnStaysCovered(p, s, t, y, now, b.Set(s, CanceledOrder(p.orders[s], now)));
  }

  lemma ReturnStaysCovered(p: Plant, s: nat, t: nat, y: Order, now: real, a: Plant)
    requires p.Has(s) && p.Has(t) && s != t && y.parent == p.orders[t].parent && p.orders[t].quantity <= y.quantity
    requires a == p.Set(t, y).Set(s, CanceledOrder(p.orders[s], now))
    ensures Covered(p) ==> Covered(a)
  {
    assert forall i :: 0 <= i < |p.orders| ==> a.orders[i].parent == p.orders[i].parent;
    assert forall i :: 0 <= i < |p.orders| ==> a.IsParent(i) == p.IsParent(i);
  }

  lemma CancelConservesExactly(p: Plant, s: nat, chosen: Option<nat>, now: real)
    requires p.Valid() && p.Has(s) && CancelSplit(p, s, chosen, now).Done?
    ensures ReturnTarget(p, s, chosen).Some?
    ensures var q := CancelSplit(p, s, chosen, now).plant;
      && LeafTotal(q) + (if p.IsParent(ReturnTarget(p, s, chosen).value) then p.orders[s].quantity else 0)
        == LeafTotal(p)
      && (Covered(p) ==> Covered(q))
  {
    var t, y := CancelShape(p, s, chosen, now);
    ReturnConservesExactly(p, s, t, y, now);
    ReturnToLeaves(p, s, t, y, now);
    SameLeavesSameTotal(p.Set(t, y).Set(s, CanceledOrder(p.orders[s], now)), ReturnTo(p, s, t, y, now));
  }

  // ---- combine ----

  lemma {:induction false} CanceledLeaves(b: Plant, ids: seq<nat>, n: nat, target: nat, now: real)
    requires n <= |ids| && forall i :: 0 <= i < |ids| ==> ids[i] < |b.orders|
    requires forall i, j :: 0 <= i < j < |ids| ==> ids[i] != ids[j]
    requires forall i :: 0 <= i < |ids| ==> !b.IsParent(ids[i]) && !b.orders[ids[i]].Inactive()
    ensures LeafTotal(CancelSources(b, ids, n, target, now)) + SourceQuantity(b, ids, n, target) == LeafTotal(b)
    decreases n
  {
    if n > 0 {
      CanceledLeaves(b, ids, n - 1, target, now);
      CanceledLeaf(b, ids, n, target, now);
    }
  }

  lemma {:induction false} SourcesKeepParents(b: Plant, ids: seq<nat>, n: nat, target: nat, now: real)
    requires n <= |ids| && forall i :: 0 <= i < |ids| ==> ids[i] < |b.orders|
    ensures forall i :: 0 <= i < |b.orders| ==>
      CancelSources(b, ids, n, target, now).orders[i].parent == b.orders[i].parent
    decreases n
  {
    if n > 0 {
      SourcesKeepParents(b, ids, n - 1, target, now);
    }
  }

  lemma CanceledLeaf(b: Plant, ids: seq<nat>, n: nat, target: nat, now: real)
    requires 0 < n <= |ids| && forall i :: 0 <= i < |ids| ==> ids[i] < |b.orders|
    requires forall i, j :: 0 <= i < j < |ids| ==> ids[i] != ids[j]
    requires !b.IsParent(ids[n - 1]) && !b.orders[ids[n - 1]].Inactive()
    ensures LeafTotal(CancelSources(b, ids, n, target, now))
      + (if ids[n - 1] == target then 0 else b.orders[ids[n - 1]].quantity)
         == LeafTotal(CancelSources(b, ids, n - 1, target, now))
  {
    var i := ids[n - 1];
    if i != target {
      var m := CancelSources(b, ids, n - 1, target, now);
      RowBeforeItIsCanceled(b, ids, n - 1, target, now, i, m);
      CancelLeaf(m, i, b.orders[i], now);
    }
  }

  lemma RowBeforeItIsCanceled(b: Plant, ids: seq<nat>, n: nat, target: nat, now: real, i: nat, m: Plant)
    requires n <= |ids| && (forall j :: 0 <= j < |ids| ==> ids[j] < |b.orders|) && b.Has(i)
    requires forall j :: 0 <= j < n ==> ids[j] != i
    ensures m == CancelSources(b, ids, n, target, now) ==>
      m.Has(i) && m.orders[i] == b.orders[i] && (m.IsParent(i) <==> b.IsParent(i))
  {
    Untouched(b, ids, n, target, now, i);
    SourcesKeepHierarchy(b, ids, n, target, now, i);
  }

  lemma SourcesKeepHierarchy(b: Plant, ids: seq<nat>, n: nat, target: nat, now: real, i: nat)
    requires n <= |ids| && forall i :: 0 <= i < |ids| ==> ids[i] < |b.orders|
    ensures CancelSources(b, ids, n, target, now).IsParent(i) <==> b.IsParent(i)
  {
    SourcesKeepParents(b, ids, n, target, now);
    SameParents(b, CancelSources(b, ids, n, target, now));
  }

  lemma CancelLeaf(q: Plant, i: nat, x: Order, now: real)
    requires q.Has(i) && q.orders[i] == x && !x.Inactive() && !q.IsParent(i)
    ensures LeafTotal(q.Set(i, CanceledOrder(x, now))) + x.quantity == LeafTotal(q)
  {
    SetLeaf(q, i, CanceledOrder(x, now));
  }

  lemma CombinedConserves(p: Plant, ids: seq<nat>, target: nat, y: Order, now: real)
    requires DistinctOrders(p, ids) && Combinable(p, ids, target) && Merged(p, ids, target, y)
    ensures LeafTotal(CancelSources(p.Set(target, y), ids, |ids|, target, now)) == LeafTotal(p)
  {
    var b := p.Set(target, y);
    SameParents(p, b);
    var j :| 0 <= j < |ids| && ids[j] == target;
    assert !p.IsParent(ids[j]) && !p.orders[ids[j]].Terminal();
    SetLeaf(p, target, y);
    CanceledLeaves(b, ids, |ids|, target, now);
    TotalIsTargetPlusSources(p, ids, |ids|, target);
    SameSourceQuantity(p, b, ids, |ids|, target);
  }

  lemma CombinedIsCovered(p: Plant, ids: seq<nat>, target: nat, y: Order, now: real)
    requires DistinctOrders(p, ids) && Combinable(p, ids, target) && Merged(p, ids, target, y) && Covered(p)
    ensures Covered(CancelSources(p.Set(target, y), ids, |ids|, target, now))
  {
    var b := p.Set(target, y);
    var z := CancelSources(b, ids, |ids|, target, now);
    SourcesAreCanceled(b, ids, |ids|, target, now);
    SourcesKeepParents(b, ids, |ids|, target, now);
    SameParents(p, b);
    SameParents(b, z);
    TotalIsTargetPlusSources(p, ids, |ids|, target);
    assert forall i :: 0 <= i < |p.orders| ==> z.Reported(i, Approved) == p.Reported(i, Approved);
    forall i | 0 <= i < |z.orders| && !z.IsParent(i)
      ensures z.Reported(i, Approved) <= z.orders[i].quantity
    {
      assert p.Reported(i, Approved) <= p.orders[i].quantity;
    }
  }

  lemma SyncThenSourcesHasSameLeaves(p: Plant, ids: seq<nat>, target: nat, y: Order, now: real)
    requires p.Valid() && DistinctOrders(p, ids) && Combinable(p, ids, target) && Merged(p, ids, target, y)
    ensures SameLeaves(CancelSources(p.Set(target, y), ids, |ids|, target, now),
                       CancelSources(SyncParentQuantity(p.Set(target, y), target), ids, |ids|, target, now))
  {
    var b := p.Set(target, y);
    var c := SyncParentQuantity(b, target);
    if y.parent.Some? {
      var r := y.parent.value;
      assert p.orders[target].parent == Some(r);
      assert p.IsParent(r);
      SameParents(p, b);
      SourcesBelowParent(b, c, ids, target, now, r);
    }
  }

  lemma SourcesBelowParent(b: Plant, c: Plant, ids: seq<nat>, target: nat, now: real, r: nat)
    requires forall i :: 0 <= i < |ids| ==> ids[i] < |b.orders|
    requires forall i, j :: 0 <= i < j < |ids| ==> ids[i] != ids[j]
    requires DifferAt(b, c, r) && b.IsParent(r)
    ensures SameLeaves(CancelSources(b, ids, |ids|, target, now), CancelSources(c, ids, |ids|, target, now))
  {
    SourcesDifferAt(b, c, ids, target, now, r);
    SourcesKeepHierarchy(b, ids, |ids|, target, now, r);
    ParentDoesNotCount(CancelSources(b, ids, |ids|, target, now), CancelSources(c, ids, |ids|, target, now), r);
  }

  lemma SourcesDifferAt(b: Plant, c: Plant, ids: seq<nat>, target: nat, now: real, r: nat)
    requires DifferAt(b, c, r) && forall i :: 0 <= i < |ids| ==> ids[i] < |b.orders|
    requires forall i, j :: 0 <= i < j < |ids| ==> ids[i] != ids[j]
    ensures DifferAt(CancelSources(b, ids, |ids|, target, now), CancelSources(c, ids, |ids|, target, now), r)
  {
    var y, z := CancelSources(b, ids, |ids|, target, now), CancelSources(c, ids, |ids|, target, now);
    forall i | 0 <= i < |y.orders| && i != r
      ensures y.orders[i] == z.orders[i]
    {
      SourcesOfSynced(b, c, ids, |ids|, target, now, r, i);
    }
    SourcesOfSynced(c, b, ids, |ids|, target, now, r, r);
    SourcesOfSynced(b, c, ids, |ids|, target, now, r, r);
    SourcesKeepParents(b, ids, |ids|, target, now);
    SourcesKeepParents(c, ids, |ids|, target, now);
  }

  /** The plants agree but for order `r`, which keeps its parent. */
  ghost predicate DifferAt(b: Plant, c: Plant, r: nat) {
    && |b.orders| == |c.orders| && b.logs == c.logs && b.Has(r) && b.orders[r].parent == c.orders[r].parent
    && forall i :: 0 <= i < |b.orders| && i != r ==> b.orders[i] == c.orders[i]
  }

  lemma SourceAt(b: Plant, ids: seq<nat>, n: nat, target: nat, now: real, i: nat)
    requires n <= |ids| && b.Has(i) && forall i :: 0 <= i < |ids| ==> ids[i] < |b.orders|
    requires forall i, j :: 0 <= i < j < |ids| ==> ids[i] != ids[j]
    ensures CancelSources(b, ids, n, target, now).orders[i] ==
      if IsSource(ids, n, target, i) then CanceledOrder(b.orders[i], now) else b.orders[i]
  {
    SourcesAreCanceled(b, ids, n, target, now);
  }

  lemma SourcesOfSynced(b: Plant, c: Plant, ids: seq<nat>, n: nat, target: nat, now: real, r: nat, i: nat)
    requires n <= |ids| && |b.orders| == |c.orders| && b.Has(i) && forall i :: 0 <= i < |ids| ==> ids[i] < |b.orders|
    requires forall i, j :: 0 <= i < j < |ids| ==> ids[i] != ids[j]
    ensures i != r && b.orders[i] == c.orders[i] ==>
      CancelSources(b, ids, n, target, now).orders[i] == CancelSources(c, ids, n, target, now).orders[i]
    ensures CancelSources(b, ids, n, target, now).logs == b.logs
  {
    SourceAt(b, ids, n, target, now, i);
    SourceAt(c, ids, n, target, now, i);
    SourcesAreCanceled(b, ids, n, target, now);
  }

  lemma CombineConserves(p: Plant, ids: seq<nat>, target: nat, now: real)
    requires p.Valid() && DistinctOrders(p, ids) && Covered(p)
    ensures LeafTotal(Combine(p, ids, target, now).plant) == LeafTotal(p) && Covered(Combine(p, ids, target, now).plant)
  {
    if Combine(p, ids, target, now).Done? {
      var y := CombineShape(p, ids, target, now);
      CombinedConserves(p, ids, target, y, now);
      CombinedIsCovered(p, ids, target, y, now);
      SyncThenSourcesHasSameLeaves(p, ids, target, y, now);
      SameLeavesSameTotal(CancelSources(p.Set(target, y), ids, |ids|, target, now),
                          CancelSources(SyncParentQuantity(p.Set(target, y), target), ids, |ids|, target, now));
    } else {
      assert Combine(p, ids, target, now).plant == p;
    }
  }

  // ---- runs ----

  /** Splits, merges, and cancellations whose quantity goes to a leaf. */
  ghost predicate MovesQuantity(p: Plant, c: Call)
    requires p.Valid() && Refers(p, c)
  {
    match c
    case SplitCall(_, _, _, _, _, _) => true
    case CombineCall(_, _, _) => true
    case CancelCall(s, chosen, _) => CancelError(p, s, chosen).None? ==> !p.IsParent(ReturnTarget(p, s, chosen).value)
    case _ => false
  }

  ghost predicate MovingRun(p: Plant, calls: seq<Call>, q: Plant)
    decreases |calls|
  {
    if calls == [] then p == q
    else p.Valid() && Refers(p, calls[0]) && MovesQuantity(p, calls[0]) && MovingRun(Apply(p, calls[0]), calls[1..], q)
  }

  lemma MoveConserves(p: Plant, c: Call)
    requires p.Valid() && Refers(p, c) && MovesQuantity(p, c) && Covered(p)
    ensures LeafTotal(Apply(p, c)) == LeafTotal(p) && Covered(Apply(p, c))
  {
    match c
    case SplitCall(o, n, machine, finish, slot, now) => SplitConserves(p, o, n, machine, finish, slot, now);
    case CombineCall(ids, o, now) => CombineConserves(p, ids, o, now);
    case CancelCall(s, chosen, now) =>
      if CancelSplit(p, s, chosen, now).Done? {
        CancelConservesExactly(p, s, chosen, now);
      } else {
        assert Apply(p, c) == p;
      }
  }

  /**
   * Over every such run the total quantity of the active leaves is the same, and no leaf falls below its approved
   * output.
   */
  lemma {:induction false} RunsConserveQuantity(p: Plant, calls: seq<Call>, q: Plant)
    requires p.Valid() && Covered(p) && MovingRun(p, calls, q)
    ensures LeafTotal(q) == LeafTotal(p) && Covered(q)
    decreases |calls|
  {
    if calls != [] {
      MoveConserves(p, calls[0]);
      RunsConserveQuantity(Apply(p, calls[0]), calls[1..], q);
    }
  }
}
