/** Scrap found by quality checks: what compensations and acceptances do to the quantities, over every run of them. */
module FlowScrap {
  import opened Common
  import opened Flow
  import opened Sums
  import opened FlowRuns

  /** The breakdown shown to the planner adds up: base plus compensation is the quantity. */
  predicate AddsUp(x: Order) {
    BaseOf(x) + x.extra == x.quantity
  }

  /** Every breakdown adds up and no check has more scrap resolved than found. */
  ghost predicate Balanced(p: Plant) {
    && (forall i :: 0 <= i < |p.orders| ==> AddsUp(p.orders[i]))
    && (forall c :: 0 <= c < |p.checks| ==> p.checks[c].resolved <= p.checks[c].faulty)
  }

  /** Resolved scrap of each check whose target is `r`. */
  function ResolvedFor(p: Plant, r: nat): (v: seq<nat>)
    requires p.Valid()
    ensures |v| == |p.checks|
  {
    seq(|p.checks|, c requires 0 <= c < |p.checks| => if ScrapOrder(p, c) == r then p.checks[c].resolved else 0)
  }

  /**
   * What the planner decided: quantity compensated and quantity accepted on target `r`, and what acceptances took
   * beyond its base.
   */
  datatype Tally = Tally(compensated: nat, accepted: nat, beyond: nat)

  predicate IsScrapCall(c: Call) {
    c.CompensateCall? || c.AcceptCall?
  }

  /** The decision takes effect. */
  predicate TakesEffect(p: Plant, c: Call)
    requires p.Valid() && IsScrapCall(c) && c.check < |p.checks|
  {
    if c.CompensateCall? then Compensate(p, c.check, c.quantity).Done? else AcceptScrap(p, c.check, c.quantity).Done?
  }

  function Count(p: Plant, c: Call, r: nat, t: Tally): Tally
    requires p.Valid() && p.Has(r) && IsScrapCall(c) && c.check < |p.checks|
  {
    if !TakesEffect(p, c) || ScrapOrder(p, c.check) != r || c.quantity < 0 then t
    else if c.CompensateCall? then t.(compensated := t.compensated + c.quantity)
    else t.(accepted := t.accepted + c.quantity, beyond := t.beyond + Monus(c.quantity, BaseOf(p.orders[r])))
  }

  /** `q` is reached from `p` by scrap decisions only; the tally of target `r` goes from `t` to `u`. */
  ghost predicate ScrapRun(p: Plant, t: Tally, calls: seq<Call>, q: Plant, u: Tally, r: nat)
    requires p.Valid() && p.Has(r)
    decreases |calls|
  {
    if calls == [] then p == q && t == u
    else
      && IsScrapCall(calls[0]) && Refers(p, calls[0]) && Apply(p, calls[0]).Has(r)
      && ScrapRun(Apply(p, calls[0]), Count(p, calls[0], r, t), calls[1..], q, u, r)
  }

  /** `q` comes from `p` by resolving `quantity` of check `k`, turning its target into `y`, and perhaps adding tasks. */
  ghost predicate Decided(p: Plant, q: Plant, k: nat, quantity: nat, r: nat, y: Order) {
    && k < |p.checks| && quantity <= Monus(p.checks[k].faulty, p.checks[k].resolved)
    && q.checks == p.checks[k := p.checks[k].(resolved := p.checks[k].resolved + quantity)]
    && p.Has(r) && |p.orders| <= |q.orders| && y.parent == p.orders[r].parent && AddsUp(y) && q.orders[r] == y
    && (forall i :: 0 <= i < |p.orders| && i != r ==> q.orders[i] == p.orders[i])
    && (forall i :: |p.orders| <= i < |q.orders| ==> AddsUp(q.orders[i]))
  }

  lemma CompensateEffect(p: Plant, k: nat, quantity: int) returns (y: Order)
    requires p.Valid() && k < |p.checks| && !ScrapBlocked(p, k, quantity)
    ensures y.quantity == p.orders[ScrapOrder(p, k)].quantity + quantity
    ensures AddsUp(p.orders[ScrapOrder(p, k)]) ==>
      Decided(p, Compensate(p, k, quantity).plant, k, quantity, ScrapOrder(p, k), y)
  {
    y := Compensate(p, k, quantity).plant.orders[ScrapOrder(p, k)];
  }

  lemma AcceptEffect(p: Plant, k: nat, quantity: int) returns (y: Order)
    requires p.Valid() && k < |p.checks| && AcceptScrap(p, k, quantity).Done?
    ensures quantity > 0
    ensures var x := p.orders[ScrapOrder(p, k)];
      AddsUp(x) ==> y.quantity + quantity == x.quantity + Monus(quantity, BaseOf(x))
                    && Decided(p, AcceptScrap(p, k, quantity).plant, k, quantity, ScrapOrder(p, k), y)
  {
    y := AcceptScrap(p, k, quantity).plant.orders[ScrapOrder(p, k)];
  }

  lemma DecidedStaysBalanced(p: Plant, q: Plant, k: nat, quantity: nat, r: nat, y: Order)
    ensures Balanced(p) && Decided(p, q, k, quantity, r, y) ==> Balanced(q)
  {
  }

  lemma DecidedResolves(p: Plant, q: Plant, k: nat, quantity: nat, y: Order, r: nat)
    requires p.Valid() && q.Valid() && k < |p.checks| && Decided(p, q, k, quantity, ScrapOrder(p, k), y)
    ensures Sum(ResolvedFor(q, r)) == Sum(ResolvedFor(p, r)) + if ScrapOrder(p, k) == r then quantity else 0
  {
    TargetsStay(p, q, k, quantity, y);
    var now := p.checks[k].resolved + quantity;
    if ScrapOrder(p, k) == r {
      assert ResolvedFor(q, r) == ResolvedFor(p, r)[k := now];
      SumUpdate(ResolvedFor(p, r), k, now);
    } else {
      assert ResolvedFor(q, r) == ResolvedFor(p, r);
    }
  }

  lemma TargetsStay(p: Plant, q: Plant, k: nat, quantity: nat, y: Order)
    requires p.Valid() && q.Valid() && k < |p.checks| && Decided(p, q, k, quantity, ScrapOrder(p, k), y)
    ensures |q.checks| == |p.checks| && forall c :: 0 <= c < |p.checks| ==> ScrapOrder(q, c) == ScrapOrder(p, c)
    ensures forall c :: 0 <= c < |p.checks| && c != k ==> q.checks[c].resolved == p.checks[c].resolved
  {
    forall c | 0 <= c < |p.checks|
      ensures ScrapOrder(q, c) == ScrapOrder(p, c)
    {
      var o := p.checks[c].order;
      assert q.orders[o].parent == p.orders[o].parent;
    }
  }

  /**
   * One decision keeps the books and moves the target's quantity by what was decided, but never below its compensation.
   */
  lemma DecisionKeepsBooks(p: Plant, c: Call, r: nat, t: Tally)
    requires p.Valid() && Balanced(p) && p.Has(r) && IsScrapCall(c) && c.check < |p.checks|
    ensures var q, u := Apply(p, c), Count(p, c, r, t);
      && q.Valid() && q.Has(r) && Balanced(q)
      && q.orders[r].quantity + u.accepted + t.compensated + t.beyond
        == p.orders[r].quantity + t.accepted + u.compensated + u.beyond
      && Sum(ResolvedFor(q, r)) + t.compensated + t.accepted == Sum(ResolvedFor(p, r)) + u.compensated + u.accepted
  {
    var k, n := c.check, c.quantity;
    if TakesEffect(p, c) {
      var y;
      if c.CompensateCall? {
        y := CompensateEffect(p, k, n);
      } else {
        y := AcceptEffect(p, k, n);
      }
      assert AddsUp(p.orders[ScrapOrder(p, k)]);
      DecidedStaysBalanced(p, Apply(p, c), k, n, ScrapOrder(p, k), y);
      DecidedResolves(p, Apply(p, c), k, n, y, r);
    } else {
      assert Apply(p, c) == p;
    }
  }

  /**
   * Over every run of scrap decisions on any checks, the breakdown keeps adding up and no check resolves more than its
   * scrap;
   * the quantity of a target changes by what was compensated less what was accepted, but for what acceptances took
   * beyond its base; and the decisions are exactly the scrap its checks have resolved.
   */
  lemma {:induction false} ScrapRunsKeepBooks(p: Plant, t: Tally, calls: seq<Call>, q: Plant, u: Tally, r: nat)
    requires p.Valid() && Balanced(p) && p.Has(r) && ScrapRun(p, t, calls, q, u, r)
    ensures q.Valid() && q.Has(r) && Balanced(q)
    ensures q.orders[r].quantity + u.accepted + t.compensated + t.beyond
      == p.orders[r].quantity + t.accepted + u.compensated + u.beyond
    ensures Sum(ResolvedFor(q, r)) + t.compensated + t.accepted == Sum(ResolvedFor(p, r)) + u.compensated + u.accepted
    decreases |calls|
  {
    if calls != [] {
      var c := calls[0];
      DecisionKeepsBooks(p, c, r, t);
      ScrapRunsKeepBooks(Apply(p, c), Count(p, c, r, t), calls[1..], q, u, r);
    }
  }

  /** Together, all decisions on a target stay within the scrap its checks found. */
  lemma DecisionsWithinScrap(p: Plant, calls: seq<Call>, q: Plant, t: Tally, r: nat, found: seq<nat>)
    requires p.Valid() && Balanced(p) && p.Has(r) && ScrapRun(p, Tally(0, 0, 0), calls, q, t, r)
    requires q.Valid() && |found| == |q.checks| && forall c :: 0 <= c < |found| ==> found[c] == q.checks[c].faulty
    ensures t.compensated + t.accepted <= Sum(found)
  {
    ScrapRunsKeepBooks(p, Tally(0, 0, 0), calls, q, t, r);
    SumMonotone(ResolvedFor(q, r), found);
  }

  /** An acceptance shrinks the quantity by exactly what is accepted if and only if it stays within the base. */
  lemma AcceptanceIsExactWithinBase(p: Plant, k: nat, quantity: int)
    requires p.Valid() && Balanced(p) && k < |p.checks| && AcceptScrap(p, k, quantity).Done?
    ensures var r := ScrapOrder(p, k);
      AcceptScrap(p, k, quantity).plant.orders[r].quantity == p.orders[r].quantity - quantity <==>
        quantity <= BaseOf(p.orders[r])
  {
    assert AddsUp(p.orders[ScrapOrder(p, k)]);
  }

  /**
   * When a parent takes over a task's quantity, its breakdown adds up exactly if the task plans at least the parent's
   * compensation.
   */
  lemma SyncAddsUpExactly(p: Plant, o: nat)
    requires p.Valid() && p.Has(o) && p.orders[o].parent.Some?
    ensures var r := p.orders[o].parent.value;
      AddsUp(SyncParentQuantity(p, o).orders[r]) <==> p.orders[r].extra <= p.orders[o].quantity
  {
  }

  // ---- concrete states in which the two expectations fail ----

  /** A root order of ten, eight of them compensation. */
  function MostlyCompensated(): Order {
    Order(None, None, 0, 0, 0, false, None, false, 10, Some(2), 8, 0,
          InProgress, false, false, false, NotRequested, None, None, 0.0)
  }

  /** Its only task, which plans three. */
  function SmallTask(): Order {
    Order(Some(0), None, 0, 0, 0, false, None, false, 3, None, 0, 0,
          Pending, false, false, false, NotRequested, None, None, 0.0)
  }

  /** Accepting five of ten where the base is two leaves eight: five are resolved, two come off. */
  lemma AcceptanceBeyondBase()
    ensures var p := Plant(2, [MostlyCompensated()], [], [Check(0, true, 5, 0)]);
      && p.Valid() && Balanced(p)
      && var z := AcceptScrap(p, 0, 5);
         z.Done? && z.plant.checks[0].resolved == 5 && z.plant.orders[0].quantity == 8
  {
    var p := Plant(2, [MostlyCompensated()], [], [Check(0, true, 5, 0)]);
    assert p.Valid() && Balanced(p);
    AcceptanceIsExactWithinBase(p, 0, 5);
  }

  /** A parent that takes over a quantity of three keeps eight as compensation, and the breakdown does not add up. */
  lemma SyncBelowCompensation()
    ensures var p := Plant(2, [MostlyCompensated(), SmallTask()], [], []);
      && p.Valid() && Balanced(p) && p.Has(1)
      && !AddsUp(SyncParentQuantity(p, 1).orders[0])
  {
    var p := Plant(2, [MostlyCompensated(), SmallTask()], [], []);
    assert p.Valid() && Balanced(p);
    SyncAddsUpExactly(p, 1);
  }
}
