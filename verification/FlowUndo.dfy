/** Splitting an order and canceling the untouched split again: what comes back and what does not. */
module FlowUndo {
  import opened Common
  import opened Flow

  /** A base quantity, if set, is the quantity without compensation. */
  predicate BaseFollows(x: Order) {
    x.base.None? || x.base.value == Monus(x.quantity, x.extra)
  }

  /**
   * The order was consistent before the split: base, progress, a planned time of a minute at least, and a parent in
   * step.
   */
  predicate InStep(p: Plant, o: nat)
    requires p.Valid() && p.Has(o)
  {
    var x := p.orders[o];
    && BaseFollows(x)
    && x.progress == ProgressOf(x.quantity, p.Reported(o, Approved))
    && (HasDuration(x) ==> 60.0 <= x.end.value - x.start.value)
    && (x.parent.Some? ==> p.orders[x.parent.value].quantity == x.quantity && BaseFollows(p.orders[x.parent.value]))
  }

  /** The order as split and cancellation together leave it. */
  function Restored(x: Order, approved: nat): Order {
    SyncBase(x).(end := AtLeastAMinute(x), progress := ProgressOf(x.quantity, approved))
  }

  /** A planned time of less than a minute becomes a minute. */
  function AtLeastAMinute(x: Order): Option<real> {
    if HasDuration(x) && x.end.value - x.start.value < 60.0 then Some(x.start.value + 60.0) else x.end
  }

  /** Shrinking a length and stretching it again gives it back. */
  lemma ScaledBack(length: real, now: nat, was: nat)
    requires 0.0 < length && 0 < now && 0 < was
    ensures 0.0 < Scaled(length, now, was)
    ensures Scaled(Scaled(length, now, was), was, now) == length
  {
    var part := Scaled(length, now, was);
    assert part * was as real == length * now as real;
    assert length * now as real > 0.0;
  }

  /** A split that leaves something keeps a planned time planned, in proportion. */
  lemma ShrunkShape(x: Order, quantity: nat, approved: nat) returns (part: real, progress: real)
    requires 0 < quantity < x.quantity
    ensures HasDuration(x) ==> (0.0 < part && Scaled(part, x.quantity, x.quantity - quantity)
      == x.end.value - x.start.value)
    ensures Shrunk(x, quantity, approved, None)
         == SyncBase(x.(quantity := x.quantity - quantity)).(end := if HasDuration(x) then Some(x.start.value + part)
                                                             else x.end,
                                                             progress := progress)
  {
    progress := ProgressOf(x.quantity - quantity, approved);
    if HasDuration(x) {
      part := Scaled(x.end.value - x.start.value, x.quantity - quantity, x.quantity);
      ScaledBack(x.end.value - x.start.value, x.quantity - quantity, x.quantity);
    } else {
      part := 0.0;
    }
  }

  /** A planned time stretched to `length`, but to a minute at least. */
  function StretchedEnd(y: Order, length: real): Option<real> {
    if HasDuration(y) then Some(y.start.value + if length < 60.0 then 60.0 else length) else y.end
  }

  lemma GrownShape(y: Order, quantity: nat, approved: nat, length: real)
    requires y.quantity > 0 && (HasDuration(y) ==> Scaled(y.end.value - y.start.value, quantity, y.quantity) == length)
    ensures Grown(y, quantity, approved)
         == SyncBase(y.(quantity := quantity)).(end := StretchedEnd(y, length),
                                                progress := ProgressOf(quantity, approved))
  {
  }

  lemma ShrunkThenGrown(x: Order, quantity: nat, approved: nat)
    requires 0 < quantity < x.quantity
    ensures Grown(Shrunk(x, quantity, approved, None), x.quantity, approved) == Restored(x, approved)
  {
    var part, progress := ShrunkShape(x, quantity, approved);
    var y := Shrunk(x, quantity, approved, None);
    var length := if HasDuration(x) then x.end.value - x.start.value else 0.0;
    StretchedBack(x, y, part, length);
    GrownShape(y, x.quantity, approved, length);
    var end := if HasDuration(x) then Some(x.start.value + part) else x.end;
    GrownBack(x, x.quantity - quantity, end, progress, y, Grown(y, x.quantity, approved), approved);
  }

  lemma StretchedBack(x: Order, y: Order, part: real, length: real)
    requires y.start == x.start && y.end == if HasDuration(x) then Some(x.start.value + part) else x.end
    requires HasDuration(x) ==> 0.0 < part && length == x.end.value - x.start.value
    ensures HasDuration(y) <==> HasDuration(x)
    ensures HasDuration(y) ==> y.end.value - y.start.value == part
    ensures StretchedEnd(y, length) == AtLeastAMinute(x)
  {
  }

  lemma GrownBack(x: Order, n: nat, end: Option<real>, progress: real, y: Order, g: Order, approved: nat)
    requires y == SyncBase(x.(quantity := n)).(end := end, progress := progress)
    requires g == SyncBase(y.(quantity := x.quantity)).(end := AtLeastAMinute(x),
                                                        progress := ProgressOf(x.quantity, approved))
    ensures g == Restored(x, approved)
  {
    BaseFollowsAgain(x, n, end, progress, y);
  }

  lemma BaseFollowsAgain(x: Order, n: nat, end: Option<real>, progress: real, y: Order)
    requires y == SyncBase(x.(quantity := n)).(end := end, progress := progress)
    ensures SyncBase(y.(quantity := x.quantity)) == SyncBase(x).(end := end, progress := progress)
  {
    if x.base.None? {
      assert y == x.(quantity := n, end := end, progress := progress);
    } else {
      assert y == x.(quantity := n, base := Some(Monus(n, x.extra)), end := end, progress := progress);
    }
  }

  /** The original and its split-off share everything a cancellation looks at. */
  predicate Twins(x: Order, o: nat, y: Order, w: Order) {
    && y == x.(quantity := y.quantity, base := y.base, end := y.end, progress := y.progress)
    && w.parent == x.parent && w.source == Some(o) && w.kind == x.kind && w.stage == x.stage && w.current == x.current
    && w.parallel == x.parallel && w.status == Pending
  }

  lemma SplitShape(x: Order, o: nat, quantity: nat, approved: nat, machine: nat, slot: Slot)
      returns (y: Order, w: Order)
    requires 0 < quantity < x.quantity
    ensures y == Shrunk(x, quantity, approved, None) && w == SplitOff(x, o, quantity, machine, slot)
    ensures Twins(x, o, y, w) && y.quantity + quantity == x.quantity && w.quantity == quantity
    ensures Grown(y, x.quantity, approved) == Restored(x, approved)
  {
    y, w := Shrunk(x, quantity, approved, None), SplitOff(x, o, quantity, machine, slot);
    ShrunkThenGrown(x, quantity, approved);
  }

  lemma StaysOpen(q: Plant, o: nat, approved: nat, now: real)
    requires q.Valid() && q.Has(o)
    ensures approved < q.orders[o].quantity ==> CloseAfterSplit(q, o, approved, now) == Done(q)
  {
  }

  lemma SyncedRows(p: Plant, o: nat, y: Order, w: Order)
    requires p.Valid() && p.Has(o) && y.parent == p.orders[o].parent && y.source == p.orders[o].source
    requires w.parent == y.parent && w.source == Some(o)
    ensures var q := SyncParentQuantity(p.Set(o, y), o).Add(w);
      && q.Valid() && |q.orders| == |p.orders| + 1 && q.orders[o] == y && q.orders[|p.orders|] == w && q.logs == p.logs
      && !HasLogs(q, |p.orders|) && !q.IsParent(|p.orders|)
      && forall i :: 0 <= i < |p.orders| ==> q.orders[i].parent == p.orders[i].parent
  {
    var q := SyncParentQuantity(p.Set(o, y), o).Add(w);
    assert forall i :: 0 <= i < |q.orders| ==> q.orders[i].parent != Some(|p.orders|);
  }

  /** The quantity of an untouched split goes back to its source, unless that is closed. */
  lemma ReturnsToSource(q: Plant, o: nat, s: nat, chosen: Option<nat>)
    requires q.Valid() && q.Has(o) && q.Has(s) && s != o && !HasLogs(q, s) && !q.IsParent(s)
    requires Twins(q.orders[o], o, q.orders[o], q.orders[s]) && !q.orders[o].Terminal()
    requires chosen.None? || chosen == Some(o)
    ensures ReturnTarget(q, s, chosen) == Some(o)
    ensures CancelError(q, s, chosen).None? <==> !q.orders[o].closed
  {
  }

  lemma SplitStaysOpen(p: Plant, o: nat, quantity: int, machine: nat, slot: Slot, now: real)
      returns (y: Order, w: Order)
    requires p.Valid() && p.Has(o) && Splittable(p, o, quantity)
      && quantity + p.Reported(o, Approved) < p.orders[o].quantity
    ensures Split(p, o, quantity, machine, None, slot, now) == Done(SyncParentQuantity(p.Set(o, y), o).Add(w))
    ensures Twins(p.orders[o], o, y, w) && y.quantity + quantity == p.orders[o].quantity && w.quantity == quantity
    ensures Grown(y, p.orders[o].quantity, p.Reported(o, Approved)) == Restored(p.orders[o], p.Reported(o, Approved))
    ensures w == SplitOff(p.orders[o], o, quantity, machine, slot)
  {
    y, w := SplitShape(p.orders[o], o, quantity, p.Reported(o, Approved), machine, slot);
    SyncedRows(p, o, y, w);
    StaysOpen(SyncParentQuantity(p.Set(o, y), o).Add(w), o, p.Reported(o, Approved), now);
  }

  /** What canceling an untouched split of `o` leads to. */
  function Returned(p: Plant, o: nat, quantity: nat, machine: nat, slot: Slot, later: real): Plant
    requires p.Valid() && p.Has(o)
  {
    var y := Restored(p.orders[o], p.Reported(o, Approved));
    SyncParentQuantity(p.Set(o, y), o).Add(CanceledOrder(SplitOff(p.orders[o], o, quantity, machine, slot), later))
  }

  /** Row `i` once order `o` is `y` and its parent follows. */
  function RowAfter(p: Plant, o: nat, y: Order, i: nat): Order
    requires p.Has(o) && p.Has(i)
  {
    if i == o then y else if y.parent == Some(i) then SyncBase(p.orders[i].(quantity := y.quantity)) else p.orders[i]
  }

  lemma SyncedRow(p: Plant, o: nat, y: Order, m: Plant)
    requires p.Has(o) && y.parent != Some(o) && m == SyncParentQuantity(p.Set(o, y), o)
    ensures m.logs == p.logs && m.checks == p.checks && m.stages == p.stages && |m.orders| == |p.orders|
    ensures forall i :: 0 <= i < |p.orders| ==> m.orders[i] == RowAfter(p, o, y, i)
  {
  }

  lemma SyncParentTwice(p: Plant, o: nat, y: Order, z: Order, w: Order, v: Order)
    requires p.Valid() && p.Has(o) && y.parent == p.orders[o].parent == z.parent
    ensures SyncParentQuantity(SyncParentQuantity(p.Set(o, y), o).Add(w).Set(o, z), o).Set(|p.orders|, v)
         == SyncParentQuantity(p.Set(o, z), o).Add(v)
  {
    var m := SyncParentQuantity(p.Set(o, y), o);
    SyncedRow(p, o, y, m);
    SyncedAgain(p, o, y, z, w, v, m, SyncParentQuantity(m.Add(w).Set(o, z), o), SyncParentQuantity(p.Set(o, z), o));
  }

  lemma SyncedAgain(p: Plant, o: nat, y: Order, z: Order, w: Order, v: Order, m: Plant, a: Plant, b: Plant)
    requires p.Valid() && p.Has(o) && y.parent == p.orders[o].parent == z.parent
    requires m.logs == p.logs && m.checks == p.checks && m.stages == p.stages && |m.orders| == |p.orders|
    requires forall i :: 0 <= i < |p.orders| ==> m.orders[i] == RowAfter(p, o, y, i)
    requires a == SyncParentQuantity(m.Add(w).Set(o, z), o) && b == SyncParentQuantity(p.Set(o, z), o)
    ensures |a.orders| == |p.orders| + 1 && a.Set(|p.orders|, v) == b.Add(v)
  {
    SyncedRow(m.Add(w), o, z, a);
    SyncedRow(p, o, z, b);
    forall i | 0 <= i < |p.orders|
      ensures a.orders[i] == b.orders[i]
    {
      assert m.Add(w).orders[i] == m.orders[i];
      SyncedTwice(p.orders[i], y.quantity, z.quantity);
    }
    SameButLast(a, b, v);
  }

  lemma SameButLast(a: Plant, b: Plant, v: Order)
    requires |a.orders| == |b.orders| + 1 && a.logs == b.logs && a.checks == b.checks && a.stages == b.stages
    requires forall i :: 0 <= i < |b.orders| ==> a.orders[i] == b.orders[i]
    ensures a.Set(|b.orders|, v) == b.Add(v)
  {
    assert a.orders[|b.orders| := v] == b.orders + [v];
  }

  lemma SyncedTwice(x: Order, n: nat, m: nat)
    ensures SyncBase(SyncBase(x.(quantity := n)).(quantity := m)) == SyncBase(x.(quantity := m))
  {
  }

  lemma CancelTo(q: Plant, s: nat, chosen: Option<nat>, t: nat, later: real)
    requires q.Valid() && q.Has(s) && ReturnTarget(q, s, chosen) == Some(t)
    ensures CancelError(q, s, chosen).None? ==> (CancelSplit(q, s, chosen, later)
      == Done(ReturnTo(q, s, t, TakenBack(q, s, t), later)))
    ensures CancelError(q, s, chosen).Some? ==> (CancelSplit(q, s, chosen, later).Failed?
      && CancelSplit(q, s, chosen, later).plant == q)
  {
  }

  lemma TakenBackIs(q: Plant, s: nat, t: nat, y: Order, quantity: nat, approved: nat)
    requires q.Has(s) && q.Has(t) && q.orders[t] == y && y.quantity + q.orders[s].quantity == quantity
      && q.Reported(t, Approved) == approved
    ensures TakenBack(q, s, t) == Grown(y, quantity, approved)
  {
  }

  lemma CancelOfTwins(p: Plant, o: nat, y: Order, w: Order, chosen: Option<nat>, later: real)
    requires p.Valid() && p.Has(o) && Twins(p.orders[o], o, y, w) && y.quantity + w.quantity == p.orders[o].quantity
      && !p.orders[o].Terminal()
    requires chosen.None? || chosen == Some(o)
    ensures var q := SyncParentQuantity(p.Set(o, y), o).Add(w);
      q.Valid() && |q.orders| == |p.orders| + 1
      && var z := CancelSplit(q, |p.orders|, chosen, later);
         && (p.orders[o].closed ==> z.Failed? && z.plant == q)
         && (!p.orders[o].closed ==>
             z == Done(ReturnTo(q, |p.orders|, o, Grown(y, p.orders[o].quantity, p.Reported(o, Approved)), later)))
  {
    var q := SyncParentQuantity(p.Set(o, y), o).Add(w);
    SyncedRows(p, o, y, w);
    ReturnsToSource(q, o, |p.orders|, chosen);
    CancelTo(q, |p.orders|, chosen, o, later);
    TakenBackIs(q, |p.orders|, o, y, p.orders[o].quantity, p.Reported(o, Approved));
  }

  lemma ReturnOfTwins(p: Plant, o: nat, y: Order, z: Order, w: Order, later: real)
    requires p.Valid() && p.Has(o) && y.parent == z.parent == w.parent == p.orders[o].parent
      && y.source == p.orders[o].source && w.source == Some(o)
    ensures var q := SyncParentQuantity(p.Set(o, y), o).Add(w);
      q.Has(|p.orders|) && ReturnTo(q, |p.orders|, o, z, later)
        == SyncParentQuantity(p.Set(o, z), o).Add(CanceledOrder(w, later))
  {
    SyncedRows(p, o, y, w);
    SyncParentTwice(p, o, y, z, w, CanceledOrder(w, later));
    var q := SyncParentQuantity(p.Set(o, y), o).Add(w);
    assert SyncParentQuantity(q.Set(o, z), o).orders[|p.orders|] == w;
  }

  /**
   * Splitting part of an order that stays open, and canceling the split before anything happens to it:
   * the cancellation is refused exactly when the original is closed, and otherwise leads to `Returned`.
   */
  lemma SplitThenCancel(p: Plant, o: nat, quantity: int, machine: nat, slot: Slot, now: real, chosen: Option<nat>,
                        later: real)
    requires p.Valid() && p.Has(o) && Splittable(p, o, quantity)
      && quantity + p.Reported(o, Approved) < p.orders[o].quantity
    requires chosen.None? || chosen == Some(o)
    ensures var q := Split(p, o, quantity, machine, None, slot, now).plant;
      && |q.orders| == |p.orders| + 1
      && var z := CancelSplit(q, |p.orders|, chosen, later);
         if p.orders[o].closed then z.Failed? && z.plant == q
         else z == Done(Returned(p, o, quantity, machine, slot, later))
  {
    var y, w := SplitStaysOpen(p, o, quantity, machine, slot, now);
    CancelOfTwins(p, o, y, w, chosen, later);
    ReturnOfTwins(p, o, y, Restored(p.orders[o], p.Reported(o, Approved)), w, later);
  }

  lemma RestoredIsSameExactly(x: Order, approved: nat)
    ensures Restored(x, approved) == x <==>
      BaseFollows(x) && x.progress == ProgressOf(x.quantity, approved)
        && (HasDuration(x) ==> 60.0 <= x.end.value - x.start.value)
  {
    assert x.(base := x.base) == x;
  }

  lemma RowsAreSameExactly(p: Plant, o: nat, y: Order, v: Order)
    requires p.Valid() && p.Has(o) && y.quantity == p.orders[o].quantity && y.parent == p.orders[o].parent
    ensures var z := SyncParentQuantity(p.Set(o, y), o).Add(v);
      var r := y.parent;
      && |z.orders| == |p.orders| + 1 && z.orders[|p.orders|] == v && z.logs == p.logs && z.checks == p.checks
      && (z.orders[..|p.orders|] == p.orders <==>
            y == p.orders[o] && (r.Some? ==> (p.orders[r.value].quantity == y.quantity
                                 && BaseFollows(p.orders[r.value]))))
  {
    var m := SyncParentQuantity(p.Set(o, y), o);
    SyncedRow(p, o, y, m);
    assert m.Add(v).orders[..|p.orders|] == m.orders;
    SameRowsExactly(p, o, y, m.orders);
  }

  lemma SameRowsExactly(p: Plant, o: nat, y: Order, rows: seq<Order>)
    requires p.Valid() && p.Has(o) && y.parent == p.orders[o].parent && |rows| == |p.orders|
    requires forall i :: 0 <= i < |p.orders| ==> rows[i] == RowAfter(p, o, y, i)
    ensures rows == p.orders <==>
      y == p.orders[o] && (y.parent.Some? ==> (p.orders[y.parent.value].quantity == y.quantity
                           && BaseFollows(p.orders[y.parent.value])))
  {
    assert rows[o] == y;
    if y.parent.Some? {
      var r := p.orders[y.parent.value];
      assert rows[y.parent.value] == SyncBase(r.(quantity := y.quantity));
      FollowedExactly(r, y.quantity);
    }
  }

  lemma FollowedExactly(r: Order, quantity: nat)
    ensures SyncBase(r.(quantity := quantity)) == r <==> r.quantity == quantity && BaseFollows(r)
  {
  }

  lemma ReturnedIsSameExactly(p: Plant, o: nat, v: Order)
    requires p.Valid() && p.Has(o)
    ensures var z := SyncParentQuantity(p.Set(o, Restored(p.orders[o], p.Reported(o, Approved))), o).Add(v);
      && |z.orders| == |p.orders| + 1 && z.orders[|p.orders|] == v
      && (z.orders[..|p.orders|] == p.orders && z.logs == p.logs && z.checks == p.checks <==> InStep(p, o))
  {
    var x := p.orders[o];
    RestoredIsSameExactly(x, p.Reported(o, Approved));
    RowsAreSameExactly(p, o, Restored(x, p.Reported(o, Approved)), v);
  }

  /**
   * Split and cancellation together leave every order as it was exactly when the order and its parent were consistent
   * before.
   */
  lemma CancelUndoesSplitExactly(p: Plant, o: nat, quantity: int, machine: nat, slot: Slot, now: real,
                                 chosen: Option<nat>, later: real)
    requires p.Valid() && p.Has(o) && Splittable(p, o, quantity)
      && quantity + p.Reported(o, Approved) < p.orders[o].quantity
    requires !p.orders[o].closed && (chosen.None? || chosen == Some(o))
    ensures var q := Split(p, o, quantity, machine, None, slot, now).plant;
      && |q.orders| == |p.orders| + 1
      && var z := CancelSplit(q, |p.orders|, chosen, later).plant;
         && z.orders[|p.orders|].status == Canceled
         && (z.orders[..|p.orders|] == p.orders && z.logs == p.logs && z.checks == p.checks <==> InStep(p, o))
  {
    SplitThenCancel(p, o, quantity, machine, slot, now, chosen, later);
    ReturnedIsSameExactly(p, o, CanceledOrder(SplitOff(p.orders[o], o, quantity, machine, slot), later));
  }
}
