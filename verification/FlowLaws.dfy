/** What a service call promises its caller: the laws of the other modules, put together call by call. */
module FlowLaws {
  import opened Common
  import opened Flow
  import opened Sums
  import opened FlowInvariant
  import opened FlowMoves
  import opened FlowRuns
  import opened FlowConservation
  import opened FlowScrap
  import opened FlowLifecycle

  /**
   * Every call keeps the lifecycle laws, frees no stuck order and completes none above a stuck one;
   * and it keeps a sound route sound exactly if it is safe.
   */
  ghost predicate KeepsLaws(p: Plant, c: Call, q: Plant)
    requires p.Valid() && Refers(p, c)
  {
    && q.Valid()
    && (Lawful(p) ==> Lawful(q) && Tame(p, q))
    && (Sound(p) ==> (Sound(q) <==> Safe(p, c)))
  }

  lemma CallKeepsLaws(p: Plant, c: Call)
    requires p.Valid() && Refers(p, c)
    ensures KeepsLaws(p, c, Apply(p, c))
  {
    var q := Apply(p, c);
    CallReach(p, c, q);
    if Sound(p) {
      CallSoundExactly(p, c, q);
    }
  }

  // ---- reporting ----

  /** `n` more units of `o` wait for review, which with all its other output still fits the order. */
  predicate ReportsOutput(p: Plant, q: Plant, o: nat, n: nat) {
    && q.Has(o) && q.Reported(o, Approved) == p.Reported(o, Approved)
      && q.Reported(o, Waiting) == p.Reported(o, Waiting) + n
    && q.Reported(o, Approved) + q.Reported(o, Waiting) <= q.orders[o].quantity
    && forall i, s :: 0 <= i < |p.orders| && i != o ==> q.Reported(i, s) == p.Reported(i, s)
  }

  lemma CreateLogReports(p: Plant, o: nat, quantity: int, completion: bool, now: real)
    requires p.Has(o)
    ensures var z := CreateLog(p, o, quantity, completion, now);
      if z.Done? then 0 < quantity && ReportsOutput(p, z.plant, o, quantity) else z.plant == p
  {
    var z := CreateLog(p, o, quantity, completion, now);
    if z.Done? {
      forall i: nat, s | i < |p.orders|
        ensures z.plant.Reported(i, s) == p.Reported(i, s) + if i == o && s == Waiting then quantity else 0
      {
        LogSumAppend(p.logs, Log(o, quantity, Waiting, completion), i, s);
      }
    }
  }

  // ---- quantity ----

  /** The total over active leaves stays, and every leaf still plans at least what it has got approved. */
  ghost predicate KeepsQuantity(p: Plant, q: Plant) {
    Covered(p) ==> LeafTotal(q) == LeafTotal(p) && Covered(q)
  }

  lemma SplitKeepsQuantity(p: Plant, o: nat, quantity: int, machine: nat, finish: Option<real>, slot: Slot, now: real)
    requires p.Valid() && p.Has(o)
    ensures KeepsQuantity(p, Split(p, o, quantity, machine, finish, slot, now).plant)
  {
    if Covered(p) {
      SplitConserves(p, o, quantity, machine, finish, slot, now);
    }
  }

  lemma CombineKeepsQuantity(p: Plant, ids: seq<nat>, target: nat, now: real)
    requires p.Valid() && DistinctOrders(p, ids)
    ensures KeepsQuantity(p, Combine(p, ids, target, now).plant)
  {
    if Covered(p) {
      CombineConserves(p, ids, target, now);
    }
  }

  /** The quantity of `s` goes to `t`, and is lost to the leaves exactly if `t` has tasks of its own. */
  ghost predicate ReturnsQuantity(p: Plant, q: Plant, s: nat, t: nat)
    requires p.Has(s)
  {
    && LeafTotal(q) + (if p.IsParent(t) then p.orders[s].quantity else 0) == LeafTotal(p)
    && (Covered(p) ==> Covered(q))
  }

  lemma CancelReturnsQuantity(p: Plant, s: nat, chosen: Option<nat>, now: real)
    requires p.Valid() && p.Has(s)
    ensures var z := CancelSplit(p, s, chosen, now);
      if z.Done? then ReturnTarget(p, s, chosen).Some?
        && ReturnsQuantity(p, z.plant, s, ReturnTarget(p, s, chosen).value)
      else z.plant == p
  {
    if CancelSplit(p, s, chosen, now).Done? {
      CancelConservesExactly(p, s, chosen, now);
    }
  }

  // ---- releases ----

  /**
   * `n` more of the approved output of task `o` are released, and as much is planned at the next stage of its route.
   */
  ghost predicate ReleasesOutput(p: Plant, q: Plant, o: nat, n: nat)
    requires p.Valid() && p.Has(o)
  {
    var x, r := p.orders[o], LotParent(p, o);
    && x.released + n <= p.Reported(o, Approved) && q.logs == p.logs
    && Sum(Planned(q, r, x.stage + 1)) == Sum(Planned(p, r, x.stage + 1)) + n
    && Sum(Released(q, r, x.stage)) == Sum(Released(p, r, x.stage)) + if x.parent.Some? then n else 0
  }

  lemma LotSumsUp(p: Plant, o: nat, r: nat, y: Order, z: Order)
    requires p.Has(o) && p.Has(r) && y == p.orders[o].(released := y.released) && y.released >= p.orders[o].released
    requires z.parent == Some(r) && z.stage == y.stage + 1 && z.released == 0 && z.status == Pending
    ensures var q := p.Set(o, y).Add(z);
      && Sum(Planned(q, r, y.stage + 1)) == Sum(Planned(p, r, y.stage + 1)) + z.quantity
      && Sum(Released(q, r, y.stage)) == Sum(Released(p, r, y.stage)) + if y.parent == Some(r)
        then y.released - p.orders[o].released else 0
  {
    SetVectors(p, o, y, r, y.stage);
    SetVectors(p, o, y, r, y.stage + 1);
    AddVectors(p.Set(o, y), z, r, y.stage);
    AddVectors(p.Set(o, y), z, r, y.stage + 1);
  }

  lemma LotReleases(p: Plant, o: nat, r: nat, n: nat, machine: Option<nat>, q: Plant)
    requires p.Has(o) && p.Has(r)
    ensures q == LotReleased(p, o, r, n, machine) ==>
      && q.logs == p.logs
      && Sum(Planned(q, r, p.orders[o].stage + 1)) == Sum(Planned(p, r, p.orders[o].stage + 1)) + n
      && Sum(Released(q, r, p.orders[o].stage)) ==
         Sum(Released(p, r, p.orders[o].stage)) + if p.orders[o].parent == Some(r) then n else 0
  {
    var y, z := LotShape(p, o, r, n, machine);
    LotThenAdvance(p, o, r, y, z, p.Set(o, y).Add(z), q);
  }

  lemma LotThenAdvance(p: Plant, o: nat, r: nat, y: Order, z: Order, a: Plant, q: Plant)
    requires p.Has(o) && p.Has(r) && y == p.orders[o].(released := y.released)
      && y.released == p.orders[o].released + z.quantity
    requires z.parent == Some(r) && z.stage == y.stage + 1 && z.released == 0 && z.status == Pending
    requires a == p.Set(o, y).Add(z)
    ensures q == AdvanceParent(a, r, y.stage + 1, false) ==>
      && q.logs == p.logs
      && Sum(Planned(q, r, y.stage + 1)) == Sum(Planned(p, r, y.stage + 1)) + z.quantity
      && Sum(Released(q, r, y.stage)) == Sum(Released(p, r, y.stage)) + if y.parent == Some(r) then z.quantity else 0
  {
    LotSumsUp(p, o, r, y, z);
    AdvanceKeepsSums(a, r, y.stage, q);
  }

  lemma AdvanceKeepsSums(a: Plant, r: nat, stage: nat, q: Plant)
    requires a.Has(r)
    ensures q == AdvanceParent(a, r, stage + 1, false) ==>
      && q.logs == a.logs
      && Sum(Planned(q, r, stage + 1)) == Sum(Planned(a, r, stage + 1))
        && Sum(Released(q, r, stage)) == Sum(Released(a, r, stage))
  {
    if q == AdvanceParent(a, r, stage + 1, false) {
      AdvanceKeepsTasks(a, r, stage + 1, false);
      SameSums(a, q, r, stage);
      SameSums(a, q, r, stage + 1);
    }
  }

  lemma ReleaseReleases(p: Plant, o: nat, quantity: int, machine: Option<nat>)
    requires p.Valid() && p.Has(o)
    ensures var z := Release(p, o, quantity, machine);
      if z.Done? then 0 < quantity && ReleasesOutput(p, z.plant, o, quantity) else z.plant == p
  {
    ReleaseIsLot(p, o, quantity, machine);
    var z := Release(p, o, quantity, machine);
    if z.Done? {
      LotReleases(p, o, LotParent(p, o), quantity, machine, z.plant);
    }
  }

  // ---- scrap ----

  /**
   * The breakdowns keep adding up; the target's quantity changes by what was decided, and so much more of its scrap is
   * resolved.
   */
  ghost predicate KeepsBooks(p: Plant, q: Plant, c: Call)
    requires p.Valid() && IsScrapCall(c) && c.check < |p.checks|
  {
    var r := ScrapOrder(p, c.check);
    Balanced(p) ==>
      && q.Valid() && q.Has(r) && Balanced(q)
      && (TakesEffect(p, c) ==>
            && 0 < c.quantity && Sum(ResolvedFor(q, r)) == Sum(ResolvedFor(p, r)) + c.quantity
            && q.orders[r].quantity == p.orders[r].quantity
                                       + if c.CompensateCall? then c.quantity
                                         else Monus(c.quantity, BaseOf(p.orders[r])) - c.quantity)
  }

  lemma ScrapKeepsBooks(p: Plant, c: Call)
    requires p.Valid() && IsScrapCall(c) && c.check < |p.checks|
    ensures KeepsBooks(p, Apply(p, c), c)
    ensures !TakesEffect(p, c) ==> Apply(p, c) == p
  {
    var r := ScrapOrder(p, c.check);
    DecisionCounts(p, c, r);
    if Balanced(p) {
      DecisionKeepsBooks(p, c, r, Tally(0, 0, 0));
    }
  }

  lemma DecisionCounts(p: Plant, c: Call, r: nat)
    requires p.Valid() && IsScrapCall(c) && c.check < |p.checks| && r == ScrapOrder(p, c.check)
    ensures !TakesEffect(p, c) ==> Apply(p, c) == p
    ensures TakesEffect(p, c) ==> (0 < c.quantity && Count(p, c, r, Tally(0, 0, 0)) ==
      if c.CompensateCall? then Tally(c.quantity, 0, 0)
        else Tally(0, c.quantity, Monus(c.quantity, BaseOf(p.orders[r]))))
  {
  }

  // ---- the planner close ----

  /** Order `r` is closed for good, and all its tasks are completed and end by the close. */
  predicate SealedAt(q: Plant, r: nat, now: real) {
    && q.Has(r) && q.orders[r].closed && Settled(q.orders[r])
    && forall i :: 0 <= i < |q.orders| && q.orders[i].parent == Some(r) ==>
         q.orders[i].status == Completed && (q.orders[i].end.Some? ==> q.orders[i].end.value <= now)
  }

  lemma CloseSeals(p: Plant, r: nat, ready: bool, now: real)
    requires p.Valid() && p.Has(r)
    ensures var z := Close(p, r, ready, now);
      if z.Done? then SealedAt(z.plant, r, now) else z.plant == p
  {
  }

  // ---- parents ----

  /** The steps synchronise some of the parents and nothing else. */
  ghost predicate OnlySyncs(steps: seq<Step>, parents: seq<nat>) {
    forall i :: 0 <= i < |steps| ==> steps[i].Service? && steps[i].call.SyncCall? && steps[i].call.order in parents
  }

  lemma RunThenSync(p: Plant, steps: seq<Step>, m: Plant, parents: seq<nat>, r: nat, now: real, q: Plant)
    requires p.Valid() && m.Valid() && m.Has(r) && r in parents && Run(p, steps, m) && OnlySyncs(steps, parents)
    requires q == SyncParent(m, r, now).plant
    ensures q.Valid() && Run(p, steps + [Service(SyncCall(r, now))], q)
    ensures OnlySyncs(steps + [Service(SyncCall(r, now))], parents)
  {
    RunThenStep(p, steps, m, Service(SyncCall(r, now)), q);
  }

  /** A run of synchronisations keeps the lifecycle laws and soundness. */
  lemma {:induction false} SyncsKeepLaws(p: Plant, steps: seq<Step>, parents: seq<nat>, q: Plant)
    requires p.Valid() && Run(p, steps, q) && OnlySyncs(steps, parents)
    ensures q.Valid() && (Lawful(p) ==> Lawful(q) && Tame(p, q)) && (Sound(p) ==> Sound(q))
    decreases |steps|
  {
    RunReach(p, steps, q);
    if steps != [] {
      var m := Perform(p, steps[0]);
      if Sound(p) {
        SyncStaysSound(p, steps[0].call.order, steps[0].call.now);
      }
      SyncsKeepLaws(m, steps[1..], parents, q);
    }
  }
}
