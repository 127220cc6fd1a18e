/** Splitting, joining and releasing keep a route sound, within exact limits. */
module FlowMoves {
  import opened Common
  import opened Flow
  import opened Sums
  import opened FlowInvariant

  lemma NewOrderHasNoOutput(p: Plant, s: LogStatus)
    requires p.Valid()
    ensures p.Reported(|p.orders|, s) == 0
  {
    NoLogsNoOutput(p.logs, |p.orders|, s);
  }

  /** What order `i` contributes to the plan of stage `k` of route `r`. */
  function PlannedBy(x: Order, r: nat, k: nat): nat {
    if TaskOf(x, r, k) && !x.Inactive() then x.quantity else 0
  }

  function ReleasedBy(x: Order, r: nat, k: nat): nat {
    if TaskOf(x, r, k) then x.released else 0
  }

  lemma SetVectors(p: Plant, o: nat, y: Order, r: nat, k: nat)
    requires p.Has(o)
    ensures Planned(p, r, k)[o] == PlannedBy(p.orders[o], r, k) && Released(p, r, k)[o] == ReleasedBy(p.orders[o], r, k)
    ensures Sum(Planned(p.Set(o, y), r, k)) == Sum(Planned(p, r, k)) - PlannedBy(p.orders[o], r, k) + PlannedBy(y, r, k)
    ensures Sum(Released(p.Set(o, y), r, k)) == Sum(Released(p, r, k)) - ReleasedBy(p.orders[o], r, k)
      + ReleasedBy(y, r, k)
  {
    assert Planned(p.Set(o, y), r, k) == Planned(p, r, k)[o := PlannedBy(y, r, k)];
    assert Released(p.Set(o, y), r, k) == Released(p, r, k)[o := ReleasedBy(y, r, k)];
    SumUpdate(Planned(p, r, k), o, PlannedBy(y, r, k));
    SumUpdate(Released(p, r, k), o, ReleasedBy(y, r, k));
  }

  lemma AddVectors(p: Plant, y: Order, r: nat, k: nat)
    ensures Sum(Planned(p.Add(y), r, k)) == Sum(Planned(p, r, k)) + PlannedBy(y, r, k)
    ensures Sum(Released(p.Add(y), r, k)) == Sum(Released(p, r, k)) + ReleasedBy(y, r, k)
  {
    assert Planned(p.Add(y), r, k) == Planned(p, r, k) + [PlannedBy(y, r, k)];
    assert Released(p.Add(y), r, k) == Released(p, r, k) + [ReleasedBy(y, r, k)];
    SumAppend(Planned(p, r, k), PlannedBy(y, r, k));
    SumAppend(Released(p, r, k), ReleasedBy(y, r, k));
  }

  // ---- split ----

  /** Orders `y` and `z` share out the quantity of `x`, `y` keeping its place and `z` fresh beside it. */
  predicate Shares(x: Order, o: nat, y: Order, z: Order) {
    && y.quantity + z.quantity == x.quantity
    && y.parent == x.parent && y.source == x.source && y.stage == x.stage && y.released == x.released
      && y.status == x.status
    && z.parent == x.parent && z.source == Some(o) && z.stage == x.stage && z.released == 0 && z.status == Pending
  }

  lemma SplitShares(x: Order, o: nat, quantity: nat, approved: nat, machine: nat, finish: Option<real>, slot: Slot)
    requires quantity <= x.quantity
    ensures Shares(x, o, Shrunk(x, quantity, approved, finish), SplitOff(x, o, quantity, machine, slot))
  {
  }

  lemma PairVectors(p: Plant, o: nat, y: Order, z: Order, r: nat, k: nat)
    requires p.Has(o) && Shares(p.orders[o], o, y, z) && !p.orders[o].Inactive()
    ensures Sum(Planned(p.Set(o, y).Add(z), r, k)) == Sum(Planned(p, r, k))
    ensures Sum(Released(p.Set(o, y).Add(z), r, k)) == Sum(Released(p, r, k))
  {
    SetVectors(p, o, y, r, k);
    AddVectors(p.Set(o, y), z, r, k);
  }

  lemma PairIsBacked(p: Plant, o: nat, y: Order, z: Order)
    requires Sound(p) && p.Has(o) && Shares(p.orders[o], o, y, z) && !p.orders[o].Inactive()
    ensures p.Set(o, y).Add(z).Valid() && Backed(p.Set(o, y).Add(z))
  {
    var q := p.Set(o, y).Add(z);
    forall r: nat, k: nat | true
      ensures BackedAt(q, r, k)
    {
      PairVectors(p, o, y, z, r, k + 1);
      PairVectors(p, o, y, z, r, k);
      assert BackedAt(p, r, k);
    }
  }

  /** The waiting output still fits order `o` once `quantity` is taken from it. */
  predicate Fits(p: Plant, o: nat, quantity: nat)
    requires p.Has(o)
  {
    p.orders[o].parent.Some? ==> p.Reported(o, Approved) + p.Reported(o, Waiting) + quantity <= p.orders[o].quantity
  }

  lemma PairTasks(p: Plant, o: nat, y: Order, z: Order, i: nat)
    requires Sound(p) && p.Has(o) && Shares(p.orders[o], o, y, z) && !p.orders[o].Inactive() && i <= |p.orders|
    ensures TaskSound(p.Set(o, y).Add(z), i) <==> (i == o ==> Fits(p, o, z.quantity))
  {
    NewOrderHasNoOutput(p, Approved);
    NewOrderHasNoOutput(p, Waiting);
    assert TaskSound(p, o);
    if i < |p.orders| {
      assert TaskSound(p, i);
    }
  }

  /** Sharing out an order keeps the route backed, and sound exactly when the waiting output still fits what is kept. */
  lemma PairSoundExactly(p: Plant, o: nat, y: Order, z: Order)
    requires Sound(p) && p.Has(o) && Shares(p.orders[o], o, y, z) && !p.orders[o].Inactive()
    ensures Sound(p.Set(o, y).Add(z)) <==> Fits(p, o, z.quantity)
  {
    var q := p.Set(o, y).Add(z);
    PairIsBacked(p, o, y, z);
    forall i | 0 <= i < |q.orders|
      ensures TaskSound(q, i) <==> (i == o ==> Fits(p, o, z.quantity))
    {
      PairTasks(p, o, y, z, i);
    }
    assert q.Has(o) && (TaskSound(q, o) <==> Fits(p, o, z.quantity));
  }

  lemma CloseAfterSplitKeepsTasks(p: Plant, o: nat, approved: nat, now: real)
    requires p.Valid() && p.Has(o)
    ensures SameTasks(p, CloseAfterSplit(p, o, approved, now).plant)
  {
    var x := p.orders[o];
    var q := p.Set(o, x.(status := Completed, end := EndBy(x.end, now)));
    CloseAfterSplitCases(p, o, approved, now, q);
    if x.status == Pending || x.status == InProgress {
      StatusChangeKeepsTasks(p, q, o);
      NextStageKeepsTasks(q, o, now);
      SameTasksCompose(p, q, NextStage(q, o, now).plant);
    }
  }

  lemma CloseAfterSplitCases(p: Plant, o: nat, approved: nat, now: real, q: Plant)
    requires p.Valid() && p.Has(o)
      && q == p.Set(o, p.orders[o].(status := Completed, end := EndBy(p.orders[o].end, now)))
    ensures var z := CloseAfterSplit(p, o, approved, now).plant;
      z == p || ((p.orders[o].status == Pending || p.orders[o].status == InProgress)
                 && (z == q || z == NextStage(q, o, now).plant))
  {
  }

  lemma SyncedPairHasSameTasks(p: Plant, o: nat, y: Order, z: Order)
    requires p.Valid() && p.Has(o) && y.parent == p.orders[o].parent && y.source == p.orders[o].source
    ensures SameTasks(p.Set(o, y).Add(z), SyncParentQuantity(p.Set(o, y), o).Add(z))
  {
  }

  /** What a successful split does to the tasks: two orders share the quantity of one. */
  lemma SplitEffect(p: Plant, o: nat, quantity: int, machine: nat, finish: Option<real>, slot: Slot, now: real)
      returns (n: nat, y: Order, w: Order)
    requires p.Valid() && p.Has(o) && Splittable(p, o, quantity)
    ensures n == quantity && w.quantity == n && Shares(p.orders[o], o, y, w) && !p.orders[o].Inactive()
    ensures p.Set(o, y).Add(w).Valid()
      && SameTasks(p.Set(o, y).Add(w), Split(p, o, quantity, machine, finish, slot, now).plant)
  {
    var x := p.orders[o];
    n, y, w := quantity, Shrunk(x, quantity, p.Reported(o, Approved), finish), SplitOff(x, o, quantity, machine, slot);
    SplitShares(x, o, n, p.Reported(o, Approved), machine, finish, slot);
    var q := SyncParentQuantity(p.Set(o, y), o).Add(w);
    SyncedPairHasSameTasks(p, o, y, w);
    CloseAfterSplitKeepsTasks(q, o, p.Reported(o, Approved), now);
    SameTasksCompose(p.Set(o, y).Add(w), q, Split(p, o, quantity, machine, finish, slot, now).plant);
  }

  /**
   * The whole split call, with all it does to parent and statuses: sound exactly when the waiting output still fits.
   */
  lemma SplitSoundExactly(p: Plant, o: nat, quantity: int, machine: nat, finish: Option<real>, slot: Slot, now: real)
    requires Sound(p) && p.Has(o)
    ensures Sound(Split(p, o, quantity, machine, finish, slot, now).plant) <==>
      (Splittable(p, o, quantity) ==> Fits(p, o, quantity))
  {
    if Splittable(p, o, quantity) {
      var n, y, w := SplitEffect(p, o, quantity, machine, finish, slot, now);
      SharedSoundExactly(p, o, y, w);
      SoundIffSameTasks(p.Set(o, y).Add(w), Split(p, o, quantity, machine, finish, slot, now).plant);
    }
  }

  lemma SharedSoundExactly(p: Plant, o: nat, y: Order, w: Order)
    requires Sound(p) && p.Has(o) && !p.orders[o].Inactive()
    ensures Shares(p.orders[o], o, y, w) ==> (Sound(p.Set(o, y).Add(w)) <==> Fits(p, o, w.quantity))
  {
    if Shares(p.orders[o], o, y, w) {
      PairSoundExactly(p, o, y, w);
    }
  }

  lemma SameTasksCompose(p: Plant, q: Plant, z: Plant)
    requires SameTasks(p, q) && SameTasks(q, z)
    ensures SameTasks(p, z) && SameTasks(z, p)
  {
  }

  // ---- release ----

  /** Order `o` records `n` more released, and `z` is the lot of `n` at the next stage. */
  predicate ReleasesLot(x: Order, o: nat, n: nat, y: Order, z: Order) {
    && y == x.(released := x.released + n)
    && z.parent == x.parent && z.source == Some(o) && z.stage == x.stage + 1 && z.quantity == n && z.released == 0
      && z.status == Pending
  }

  lemma ReleaseVectors(p: Plant, o: nat, n: nat, y: Order, z: Order, r: nat, k: nat)
    requires p.Has(o) && ReleasesLot(p.orders[o], o, n, y, z)
    ensures Sum(Planned(p.Set(o, y).Add(z), r, k)) == Sum(Planned(p, r, k)) + if TaskOf(z, r, k) then n else 0
    ensures Sum(Released(p.Set(o, y).Add(z), r, k)) ==
      Sum(Released(p, r, k)) + if TaskOf(p.orders[o], r, k) then n else 0
  {
    SetVectors(p, o, y, r, k);
    AddVectors(p.Set(o, y), z, r, k);
  }

  lemma ReleaseIsBacked(p: Plant, o: nat, n: nat, y: Order, z: Order)
    requires Sound(p) && p.Has(o) && p.orders[o].parent.Some? && ReleasesLot(p.orders[o], o, n, y, z)
    ensures p.Set(o, y).Add(z).Valid() && Backed(p.Set(o, y).Add(z))
  {
    var q := p.Set(o, y).Add(z);
    forall r: nat, k: nat | true
      ensures BackedAt(q, r, k)
    {
      ReleaseVectors(p, o, n, y, z, r, k + 1);
      ReleaseVectors(p, o, n, y, z, r, k);
      assert BackedAt(p, r, k);
    }
  }

  lemma ReleaseTasks(p: Plant, o: nat, n: nat, y: Order, z: Order, i: nat)
    requires Sound(p) && p.Has(o) && ReleasesLot(p.orders[o], o, n, y, z) && i <= |p.orders|
    requires p.orders[o].released + n <= p.Reported(o, Approved)
    ensures TaskSound(p.Set(o, y).Add(z), i)
  {
    NewOrderHasNoOutput(p, Approved);
    NewOrderHasNoOutput(p, Waiting);
    if i < |p.orders| {
      assert TaskSound(p, i);
    }
  }

  lemma LotIsSound(p: Plant, o: nat, n: nat, y: Order, z: Order)
    requires Sound(p) && p.Has(o) && p.orders[o].parent.Some? && ReleasesLot(p.orders[o], o, n, y, z)
    requires p.orders[o].released + n <= p.Reported(o, Approved)
    ensures Sound(p.Set(o, y).Add(z))
  {
    var q := p.Set(o, y).Add(z);
    ReleaseIsBacked(p, o, n, y, z);
    forall i | 0 <= i < |q.orders|
      ensures TaskSound(q, i)
    {
      ReleaseTasks(p, o, n, y, z, i);
    }
  }

  /** Where a released lot goes: below the task's parent, or below a root order itself. */
  function LotParent(p: Plant, o: nat): (r: nat)
    requires p.Valid() && p.Has(o)
    ensures p.Has(r) && p.orders[r].parent.None?
  {
    if p.orders[o].parent.Some? then p.orders[o].parent.value else o
  }

  lemma ReleaseIsLot(p: Plant, o: nat, quantity: int, machine: Option<nat>)
    requires p.Valid() && p.Has(o)
    ensures Release(p, o, quantity, machine).Failed? ==> Release(p, o, quantity, machine).plant == p
    ensures Release(p, o, quantity, machine).Done? ==>
      && 0 < quantity && p.orders[o].released + quantity <= p.Reported(o, Approved) && !p.IsParent(o)
      && Release(p, o, quantity, machine).plant == LotReleased(p, o, LotParent(p, o), quantity, machine)
  {
  }

  /** The lot and the record of it, before the parent moves on. */
  lemma LotShape(p: Plant, o: nat, r: nat, quantity: nat, machine: Option<nat>) returns (y: Order, z: Order)
    requires p.Has(o) && p.Has(r)
    ensures y == p.orders[o].(released := p.orders[o].released + quantity)
    ensures z.parent == Some(r) && z.source == Some(o) && z.stage == p.orders[o].stage + 1 && z.quantity == quantity
            && z.released == 0 && z.status == Pending && !z.closed
    ensures LotReleased(p, o, r, quantity, machine)
      == AdvanceParent(p.Set(o, y).Add(z), r, p.orders[o].stage + 1, false)
  {
    var x := p.orders[o];
    y, z := x.(released := x.released + quantity), ReleasedTask(p, o, r, quantity, machine);
    SetThenAdd(p, o, y, z);
  }

  lemma SetThenAdd(p: Plant, o: nat, y: Order, z: Order)
    requires p.Has(o)
    ensures p.Set(o, y).Add(z) == p.Add(z).Set(o, y)
  {
  }

  lemma TaskLotIsSound(p: Plant, o: nat, quantity: nat, machine: Option<nat>)
    requires Sound(p) && p.Has(o) && p.orders[o].parent.Some?
    requires p.orders[o].released + quantity <= p.Reported(o, Approved)
    ensures Sound(LotReleased(p, o, LotParent(p, o), quantity, machine))
  {
    var r := LotParent(p, o);
    var y, z := LotShape(p, o, r, quantity, machine);
    LotIsSound(p, o, quantity, y, z);
    AdvanceStaysSound(p.Set(o, y).Add(z), r, p.orders[o].stage + 1, false);
  }

  lemma NothingReleasedBelow(p: Plant, o: nat, k: nat)
    requires p.Has(o) && !p.IsParent(o)
    ensures Sum(Released(p, o, k)) == 0
  {
    NothingToSum(Released(p, o, k), |p.orders|);
  }

  /** Work released straight from a root order without stage tasks is backed by no stage. */
  lemma RootLotIsUnsound(p: Plant, o: nat, quantity: nat, machine: Option<nat>)
    requires p.Valid() && p.Has(o) && p.orders[o].parent.None? && !p.IsParent(o) && 0 < quantity
    ensures !Sound(LotReleased(p, o, o, quantity, machine))
  {
    var stage := p.orders[o].stage;
    var y, z := LotShape(p, o, o, quantity, machine);
    var a := p.Set(o, y).Add(z);
    NothingReleasedBelow(p, o, stage);
    LotSums(p, o, o, y, z, stage);
    assert !BackedAt(a, o, stage);
    AdvanceKeepsTasks(a, o, stage + 1, false);
    SoundIffSameTasks(a, AdvanceParent(a, o, stage + 1, false));
  }

  lemma LotSums(p: Plant, o: nat, r: nat, y: Order, z: Order, k: nat)
    requires p.Has(o) && y == p.orders[o].(released := y.released) && z.released == 0 && y.parent.None?
    requires TaskOf(z, r, k + 1) && !z.Inactive()
    ensures Sum(Planned(p.Set(o, y).Add(z), r, k + 1)) == Sum(Planned(p, r, k + 1)) + z.quantity
    ensures Sum(Released(p.Set(o, y).Add(z), r, k)) == Sum(Released(p, r, k))
  {
    SetVectors(p, o, y, r, k);
    SetVectors(p, o, y, r, k + 1);
    AddVectors(p.Set(o, y), z, r, k);
    AddVectors(p.Set(o, y), z, r, k + 1);
  }

  /** A release keeps the route sound exactly when it is refused or made from a stage task. */
  lemma ReleaseSoundExactly(p: Plant, o: nat, quantity: int, machine: Option<nat>)
    requires Sound(p) && p.Has(o)
    ensures var z := Release(p, o, quantity, machine);
      Sound(z.plant) <==> z.Failed? || p.orders[o].parent.Some?
  {
    ReleaseIsLot(p, o, quantity, machine);
    if Release(p, o, quantity, machine).Done? {
      if p.orders[o].parent.Some? {
        TaskLotIsSound(p, o, quantity, machine);
      } else {
        RootLotIsUnsound(p, o, quantity, machine);
      }
    }
  }

  lemma AdvanceKeepsTasks(p: Plant, r: nat, stage: nat, ready: bool)
    requires p.Has(r)
    ensures SameTasks(p, AdvanceParent(p, r, stage, ready))
  {
    StatusChangeKeepsTasks(p, AdvanceParent(p, r, stage, ready), r);
  }

  lemma AdvanceStaysSound(p: Plant, r: nat, stage: nat, ready: bool)
    requires Sound(p) && p.Has(r)
    ensures Sound(AdvanceParent(p, r, stage, ready))
  {
    AdvanceKeepsTasks(p, r, stage, ready);
    SameTasksStaySound(p, AdvanceParent(p, r, stage, ready));
  }

  // ---- scrap compensation ----

  /**
   * A replenishment task of that quantity for the check's order would be backed: none is made, or its stage has the
   * work for it.
   */
  ghost predicate ReplenishmentIsBacked(p: Plant, c: nat, quantity: nat)
    requires p.Valid() && c < |p.checks|
  {
    var x := p.orders[p.checks[c].order];
    || x.parent.None? || x.stage == 0
    || Sum(Planned(p, x.parent.value, x.stage)) + quantity <= Sum(Released(p, x.parent.value, x.stage - 1))
  }

  lemma CompensateShape(p: Plant, c: nat, quantity: int) returns (y: Order, w: Order)
    requires p.Valid() && c < |p.checks| && Compensate(p, c, quantity).Done?
    ensures 0 < quantity && p.orders[ScrapOrder(p, c)].parent.None? && y.parent.None?
      && y.source == p.orders[ScrapOrder(p, c)].source
    ensures var o := p.checks[c].order;
      && w.parent == Some(ScrapOrder(p, c)) && w.source == Some(o) && w.stage == p.orders[o].stage
        && w.quantity == quantity
      && w.released == 0 && w.status == Pending
      && Compensate(p, c, quantity).plant.orders
         == if p.orders[o].parent.Some? then p.Set(ScrapOrder(p, c), y).Add(w).orders
           else p.Set(ScrapOrder(p, c), y).orders
    ensures Compensate(p, c, quantity).plant.logs == p.logs
  {
    var r := ScrapOrder(p, c);
    y, w := Compensated(p.orders[r], quantity), Replenishment(p, p.checks[c].order, r, quantity);
  }

  lemma RootChangeKeepsTasks(p: Plant, r: nat, y: Order, q: Plant)
    requires p.Has(r) && p.orders[r].parent.None? && y.parent.None? && q.orders == p.Set(r, y).orders
      && q.logs == p.logs
    ensures SameTasks(p, q)
  {
  }

  lemma AddedTaskBackedAt(p: Plant, w: Order, q: Plant, r: nat, k: nat)
    requires w.released == 0 && !w.Inactive() && q.orders == p.Add(w).orders && BackedAt(p, r, k)
    ensures TaskOf(w, r, k + 1) ==>
      (BackedAt(q, r, k) <==> Sum(Planned(p, r, k + 1)) + w.quantity <= Sum(Released(p, r, k)))
    ensures !TaskOf(w, r, k + 1) ==> BackedAt(q, r, k)
  {
    AddVectors(p, w, r, k + 1);
    AddVectors(p, w, r, k);
    assert Planned(q, r, k + 1) == Planned(p.Add(w), r, k + 1) && Released(q, r, k) == Released(p.Add(w), r, k);
  }

  /** A new task keeps the route sound exactly when the stage before it has released the work for it. */
  lemma AddedTaskSoundExactly(p: Plant, w: Order, q: Plant)
    requires Sound(p) && q.Valid() && w.released == 0 && w.status == Pending && w.parent.Some?
    requires q.orders == p.Add(w).orders && q.logs == p.logs
    ensures Sound(q) <==>
      || w.stage == 0
      || Sum(Planned(p, w.parent.value, w.stage)) + w.quantity <= Sum(Released(p, w.parent.value, w.stage - 1))
  {
    forall i | 0 <= i < |q.orders|
      ensures TaskSound(q, i)
    {
      NewOrderHasNoOutput(p, Approved);
      NewOrderHasNoOutput(p, Waiting);
      assert i < |p.orders| ==> TaskSound(p, i);
    }
    if w.stage > 0 {
      assert BackedAt(p, w.parent.value, w.stage - 1);
      AddedTaskBackedAt(p, w, q, w.parent.value, w.stage - 1);
    }
    forall r: nat, k: nat | !TaskOf(w, r, k + 1)
      ensures BackedAt(q, r, k)
    {
      assert BackedAt(p, r, k);
      AddedTaskBackedAt(p, w, q, r, k);
    }
    assert w.stage > 0 && !BackedAt(q, w.parent.value, w.stage - 1) ==> !Sound(q);
  }

  lemma TaskAfterRootChange(p: Plant, m: Plant, w: Order, q: Plant)
    requires Sound(p) && SameTasks(p, m) && m.Valid() && q.Valid() && w.released == 0 && w.status == Pending
      && w.parent.Some?
    requires q.orders == m.Add(w).orders && q.logs == m.logs
    ensures Sound(q) <==>
      || w.stage == 0
      || Sum(Planned(p, w.parent.value, w.stage)) + w.quantity <= Sum(Released(p, w.parent.value, w.stage - 1))
  {
    SameTasksStaySound(p, m);
    AddedTaskSoundExactly(m, w, q);
    SameSums(p, m, w.parent.value, w.stage);
    if w.stage > 0 {
      SameSums(p, m, w.parent.value, w.stage - 1);
    }
  }

  lemma StageScrapSoundExactly(p: Plant, c: nat, quantity: int)
    requires Sound(p) && c < |p.checks| && Compensate(p, c, quantity).Done? && p.orders[p.checks[c].order].parent.Some?
    ensures 0 < quantity && (Sound(Compensate(p, c, quantity).plant) <==> ReplenishmentIsBacked(p, c, quantity))
  {
    var y, w := CompensateShape(p, c, quantity);
    var m := p.Set(ScrapOrder(p, c), y);
    RootChangeKeepsTasks(p, ScrapOrder(p, c), y, m);
    TaskAfterRootChange(p, m, w, Compensate(p, c, quantity).plant);
  }

  lemma RootScrapStaysSound(p: Plant, c: nat, quantity: int)
    requires Sound(p) && c < |p.checks| && Compensate(p, c, quantity).Done? && p.orders[p.checks[c].order].parent.None?
    ensures 0 < quantity && Sound(Compensate(p, c, quantity).plant)
  {
    var y, w := CompensateShape(p, c, quantity);
    RootChangeKeepsTasks(p, ScrapOrder(p, c), y, Compensate(p, c, quantity).plant);
    SameTasksStaySound(p, Compensate(p, c, quantity).plant);
  }

  /** A compensation keeps the route sound exactly when it is refused or its replenishment is backed. */
  lemma CompensateSoundExactly(p: Plant, c: nat, quantity: int)
    requires Sound(p) && c < |p.checks|
    ensures var z := Compensate(p, c, quantity);
      if z.Failed? then z.plant == p else 0 < quantity && (Sound(z.plant) <==> ReplenishmentIsBacked(p, c, quantity))
  {
    if Compensate(p, c, quantity).Done? {
      if p.orders[p.checks[c].order].parent.Some? {
        StageScrapSoundExactly(p, c, quantity);
      } else {
        RootScrapStaysSound(p, c, quantity);
      }
    }
  }

  lemma SameSums(p: Plant, q: Plant, r: nat, k: nat)
    requires SameTasks(p, q)
    ensures Sum(Planned(p, r, k)) == Sum(Planned(q, r, k)) && Sum(Released(p, r, k)) == Sum(Released(q, r, k))
  {
    assert Planned(p, r, k) == Planned(q, r, k) && Released(p, r, k) == Released(q, r, k);
  }

  // ---- cancel a split ----

  /** The quantity of `s` may go to `t`: it stays at its stage, or the target's stage has the released work for it. */
  ghost predicate ReturnIsBacked(p: Plant, s: nat, t: nat)
    requires p.Has(s) && p.Has(t)
  {
    var x, y := p.orders[s], p.orders[t];
    || y.parent.None? || y.stage == 0
    || (y.parent == x.parent && y.stage == x.stage)
    || Sum(Planned(p, y.parent.value, y.stage)) + x.quantity <= Sum(Released(p, y.parent.value, y.stage - 1))
  }

  /** `y` is `x` with more quantity, `z` is `w` canceled. */
  predicate Returned(x: Order, y: Order, w: Order, z: Order) {
    && y.quantity == x.quantity + w.quantity && y.parent == x.parent && y.stage == x.stage && y.released == x.released
    && y.status == x.status && y.source == x.source
    && z.parent == w.parent && z.stage == w.stage && z.released == w.released && z.status == Canceled
      && z.source == w.source
    && z.quantity == w.quantity
  }

  lemma ReturnVectors(p: Plant, s: nat, t: nat, y: Order, z: Order, r: nat, k: nat)
    requires p.Has(s) && p.Has(t) && s != t && !p.orders[s].Inactive() && !p.orders[t].Inactive()
    requires Returned(p.orders[t], y, p.orders[s], z)
    ensures Sum(Planned(p.Set(t, y).Set(s, z), r, k)) + (if TaskOf(p.orders[s], r, k) then p.orders[s].quantity else 0)
         == Sum(Planned(p, r, k)) + (if TaskOf(p.orders[t], r, k) then p.orders[s].quantity else 0)
    ensures Sum(Released(p.Set(t, y).Set(s, z), r, k)) == Sum(Released(p, r, k))
  {
    SetVectors(p, t, y, r, k);
    SetVectors(p.Set(t, y), s, z, r, k);
  }

  lemma ReturnBackedAt(p: Plant, s: nat, t: nat, y: Order, z: Order, r: nat, k: nat)
    requires Backed(p) && p.Has(s) && p.Has(t) && s != t && !p.orders[s].Inactive() && !p.orders[t].Inactive()
    requires Returned(p.orders[t], y, p.orders[s], z)
    ensures TaskOf(p.orders[t], r, k + 1) && !TaskOf(p.orders[s], r, k + 1) ==>
      (BackedAt(p.Set(t, y).Set(s, z), r, k) <==>
       Sum(Planned(p, r, k + 1)) + p.orders[s].quantity <= Sum(Released(p, r, k)))
    ensures !TaskOf(p.orders[t], r, k + 1) || TaskOf(p.orders[s], r, k + 1) ==> BackedAt(p.Set(t, y).Set(s, z), r, k)
  {
    ReturnVectors(p, s, t, y, z, r, k + 1);
    ReturnVectors(p, s, t, y, z, r, k);
    assert BackedAt(p, r, k);
  }

  lemma BackedReturnStaysBacked(p: Plant, s: nat, t: nat, y: Order, z: Order)
    requires Backed(p) && p.Has(s) && p.Has(t) && s != t && !p.orders[s].Inactive() && !p.orders[t].Inactive()
    requires Returned(p.orders[t], y, p.orders[s], z) && ReturnIsBacked(p, s, t)
    ensures Backed(p.Set(t, y).Set(s, z))
  {
    var q := p.Set(t, y).Set(s, z);
    forall r: nat, k: nat | true
      ensures BackedAt(q, r, k)
    {
      ReturnBackedAt(p, s, t, y, z, r, k);
    }
  }

  lemma BackedAfterReturnWasBacked(p: Plant, s: nat, t: nat, y: Order, z: Order)
    requires Backed(p) && p.Has(s) && p.Has(t) && s != t && !p.orders[s].Inactive() && !p.orders[t].Inactive()
    requires Returned(p.orders[t], y, p.orders[s], z) && Backed(p.Set(t, y).Set(s, z))
    ensures ReturnIsBacked(p, s, t)
  {
    var x := p.orders[t];
    if x.parent.Some? && x.stage > 0 {
      ReturnBackedAt(p, s, t, y, z, x.parent.value, x.stage - 1);
      assert BackedAt(p.Set(t, y).Set(s, z), x.parent.value, x.stage - 1);
    }
  }

  lemma ReturnTasks(p: Plant, s: nat, t: nat, y: Order, z: Order, i: nat)
    requires Sound(p) && p.Has(s) && p.Has(t) && s != t && !p.orders[t].Inactive() && !HasLogs(p, s)
    requires Returned(p.orders[t], y, p.orders[s], z) && p.Has(i)
    ensures TaskSound(p.Set(t, y).Set(s, z), i)
  {
    assert TaskSound(p, i);
    NoLogsNoOutput(p.logs, s, Approved);
    NoLogsNoOutput(p.logs, s, Waiting);
  }

  lemma ReturnSoundExactly(p: Plant, s: nat, t: nat, y: Order, z: Order)
    requires Sound(p) && p.Has(s) && p.Has(t) && s != t && !p.orders[s].Inactive() && !p.orders[t].Inactive()
      && !HasLogs(p, s)
    ensures Returned(p.orders[t], y, p.orders[s], z) ==> (Sound(p.Set(t, y).Set(s, z)) <==> ReturnIsBacked(p, s, t))
  {
    if Returned(p.orders[t], y, p.orders[s], z) {
      ReturnedSoundExactly(p, s, t, y, z);
    }
  }

  lemma ReturnedSoundExactly(p: Plant, s: nat, t: nat, y: Order, z: Order)
    requires Sound(p) && p.Has(s) && p.Has(t) && s != t && !p.orders[s].Inactive() && !p.orders[t].Inactive()
      && !HasLogs(p, s)
    requires Returned(p.orders[t], y, p.orders[s], z)
    ensures Sound(p.Set(t, y).Set(s, z)) <==> ReturnIsBacked(p, s, t)
  {
    var q := p.Set(t, y).Set(s, z);
    if ReturnIsBacked(p, s, t) {
      BackedReturnStaysBacked(p, s, t, y, z);
    } else if Backed(q) {
      BackedAfterReturnWasBacked(p, s, t, y, z);
    }
    forall i | 0 <= i < |q.orders|
      ensures TaskSound(q, i)
    {
      ReturnTasks(p, s, t, y, z, i);
    }
  }

  lemma SoundIffSameTasks(p: Plant, q: Plant)
    ensures SameTasks(p, q) && p.Valid() && q.Valid() ==> (Sound(p) <==> Sound(q))
  {
    if SameTasks(p, q) && p.Valid() && q.Valid() {
      SameTasksCompose(p, q, q);
      if Sound(p) {
        SameTasksStaySound(p, q);
      } else if Sound(q) {
        SameTasksStaySound(q, p);
      }
    }
  }

  lemma CancelShape(p: Plant, s: nat, chosen: Option<nat>, now: real) returns (t: nat, y: Order)
    requires p.Valid() && p.Has(s) && CancelSplit(p, s, chosen, now).Done?
    ensures p.Has(t) && ReturnTarget(p, s, chosen) == Some(t) && s != t && !p.orders[s].Inactive()
      && !p.orders[t].Inactive()
    ensures !HasLogs(p, s) && !p.IsParent(s)
    ensures y == p.orders[t].(quantity := p.orders[t].quantity + p.orders[s].quantity, base := y.base, end := y.end,
                              progress := y.progress)
    ensures CancelSplit(p, s, chosen, now).plant == ReturnTo(p, s, t, y, now)
  {
    t := ReturnTarget(p, s, chosen).value;
    y := TakenBack(p, s, t);
  }

  /** Returning quantity touches the tasks at `t` and `s` only. */
  lemma ReturnToTasks(p: Plant, s: nat, t: nat, y: Order, now: real)
    requires p.Valid() && p.Has(s) && p.Has(t) && s != t && !p.IsParent(s)
    requires y.parent == p.orders[t].parent && y.source == p.orders[t].source
    ensures p.Set(t, y).Set(s, CanceledOrder(p.orders[s], now)).Valid()
    ensures SameTasks(p.Set(t, y).Set(s, CanceledOrder(p.orders[s], now)), ReturnTo(p, s, t, y, now))
  {
    assert p.orders[t].parent != Some(s);
    var a, z := p.Set(t, y).Set(s, CanceledOrder(p.orders[s], now)), ReturnTo(p, s, t, y, now);
    SyncTouchesParent(p.Set(t, y), t);
    assert forall i :: 0 <= i < |p.orders| && p.orders[t].parent != Some(i) ==> z.orders[i] == a.orders[i];
  }

  lemma SyncTouchesParent(p: Plant, o: nat)
    requires p.Has(o)
    ensures var q := SyncParentQuantity(p, o);
      && q.logs == p.logs && |q.orders| == |p.orders|
      && (forall i :: 0 <= i < |p.orders| && p.orders[o].parent != Some(i) ==> q.orders[i] == p.orders[i])
      && (forall i :: 0 <= i < |p.orders| ==> q.orders[i].parent == p.orders[i].parent)
  {
  }

  lemma CanceledSplitSoundExactly(p: Plant, s: nat, chosen: Option<nat>, now: real)
    requires Sound(p) && p.Has(s) && CancelSplit(p, s, chosen, now).Done?
    ensures ReturnTarget(p, s, chosen).Some?
    ensures Sound(CancelSplit(p, s, chosen, now).plant) <==> ReturnIsBacked(p, s, ReturnTarget(p, s, chosen).value)
  {
    var t, y := CancelShape(p, s, chosen, now);
    ReturnSoundExactly(p, s, t, y, CanceledOrder(p.orders[s], now));
    ReturnToTasks(p, s, t, y, now);
    SoundIffSameTasks(p.Set(t, y).Set(s, CanceledOrder(p.orders[s], now)), ReturnTo(p, s, t, y, now));
  }

  /** Canceling a split keeps the route sound exactly when the returned quantity is backed where it goes. */
  lemma CancelSplitSoundExactly(p: Plant, s: nat, chosen: Option<nat>, now: real)
    requires Sound(p) && p.Has(s)
    ensures var w := CancelSplit(p, s, chosen, now);
      Sound(w.plant) <==> (w.Failed? || ReturnIsBacked(p, s, ReturnTarget(p, s, chosen).value))
  {
    if CancelSplit(p, s, chosen, now).Done? {
      CanceledSplitSoundExactly(p, s, chosen, now);
    } else {
      assert CancelSplit(p, s, chosen, now).plant == p;
    }
  }
}
