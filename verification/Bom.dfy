/** Recursive bill-of-material costing with path-based cycle detection. */
module Bom {
  import opened Common

  // ---- units ----

  datatype Kind = Weight | Length | Volume | Count

  /** The measurement type of a unit and its size in base units. */
  datatype Unit = Unit(kind: Kind, rate: real)

  function LookUp(unit: string): (r: Option<Unit>)
    ensures r.Some? ==> r.value.rate > 0.0
  {
    if unit == "kg" then Some(Unit(Weight, 1.0))
    else if unit == "gm" then Some(Unit(Weight, 0.001))
    else if unit == "mg" then Some(Unit(Weight, 0.000001))
    else if unit == "tonne" then Some(Unit(Weight, 1000.0))
    else if unit == "m" then Some(Unit(Length, 1.0))
    else if unit == "cm" then Some(Unit(Length, 0.01))
    else if unit == "mm" then Some(Unit(Length, 0.001))
    else if unit == "km" then Some(Unit(Length, 1000.0))
    else if unit == "l" then Some(Unit(Volume, 1.0))
    else if unit == "ml" then Some(Unit(Volume, 0.001))
    else if unit == "pcs" then Some(Unit(Count, 1.0))
    else if unit == "dozen" then Some(Unit(Count, 12.0))
    else None
  }

  function Convert(quantity: real, from: string, to: string): (r: Result<real>)
    ensures r.Ok? && quantity >= 0.0 ==> r.value >= 0.0
  {
    if from == to then Ok(quantity)
    else
      var a, b := LookUp(from), LookUp(to);
      if a.None? || b.None? then Err("unknown unit")
      else if a.value.kind != b.value.kind then Err("incompatible units")
      else Ok(quantity * a.value.rate / b.value.rate)
  }

  predicate Compatible(from: string, to: string) {
    from == to || (LookUp(from).Some? && LookUp(to).Some? && LookUp(from).value.kind == LookUp(to).value.kind)
  }

  /** Conversion succeeds exactly between units of one type, and converting back undoes it. */
  lemma ConvertRoundTrip(quantity: real, from: string, to: string)
    ensures Convert(quantity, from, to).Ok? <==> Compatible(from, to)
    ensures Compatible(from, to) ==> Convert(Convert(quantity, from, to).value, to, from) == Ok(quantity)
  {
    if Compatible(from, to) && from != to {
      var a, b := LookUp(from).value.rate, LookUp(to).value.rate;
      assert quantity * a / b * b / a == quantity;
    }
  }

  // ---- components ----

  datatype ScrapType = Irretrievable | SellAsScrap | ReturnToStock

  datatype Component = Component(
    product: Option<nat>,
    name: string,
    quantity: real,
    unit: string,
    costPerUnit: real,
    wastageQuantity: real,
    scrapValuePerUnit: real,
    scrapType: ScrapType,
    subBom: Option<nat>
  ) {
    ghost predicate NonNegative() {
      quantity >= 0.0 && costPerUnit >= 0.0
    }

    function TotalCost(): (r: real)
      ensures NonNegative() ==> r >= 0.0
    {
      NetCost(quantity, costPerUnit, wastageQuantity, scrapValuePerUnit, scrapType)
    }
  }

  /** Net cost of a line on its own, in cents; recovered scrap value never makes it negative. */
  function NetCost(quantity: real, costPerUnit: real, wastage: real, scrapValue: real, scrapType: ScrapType): (r: real)
    ensures (quantity >= 0.0 && costPerUnit >= 0.0) || scrapType != Irretrievable ==> r >= 0.0
  {
    var gross := quantity * costPerUnit;
    if scrapType == Irretrievable then Round2(gross)
    else
      var net := Round2(gross - wastage * scrapValue);
      if net < 0.0 then 0.0 else net
  }

  /** Decimal rounding to two places, halves to the even neighbour. */
  function Round2(x: real): (r: real)
    ensures x - 0.005 <= r <= x + 0.005
    ensures x >= 0.0 ==> r >= 0.0
  {
    var scaled := x * 100.0;
    var down := scaled.Floor;
    var rest := scaled - down as real;
    var cents := if rest < 0.5 || (rest == 0.5 && down % 2 == 0) then down else down + 1;
    cents as real / 100.0
  }

  datatype BillOfMaterial = BillOfMaterial(
    product: Option<nat>,
    version: string,
    baseQuantity: real,
    uom: string,
    parent: Option<nat>,
    components: seq<Component>
  )

  type Graph = map<nat, BillOfMaterial>

  /** Foreign keys point at existing rows. */
  ghost predicate Closed(g: Graph) {
    forall b, i :: b in g && 0 <= i < |g[b].components| && g[b].components[i].subBom.Some? ==>
      g[b].components[i].subBom.value in g
  }

  // ---- costing ----

  datatype Cost = Total(value: real) | Cycle(bom: nat)

  /** Cost of a line that is made from its own bill, `cost` being what a batch of that bill costs. */
  function SubLineCost(quantity: real, unit: string, costPerUnit: real, uom: string, baseQuantity: real,
                       cost: real): (r: real)
    ensures quantity >= 0.0 && costPerUnit >= 0.0 && cost >= 0.0 ==> r >= 0.0
  {
    match Convert(quantity, unit, uom)
    case Ok(normalized) =>
      if baseQuantity > 0.0 then
        assert cost >= 0.0 ==> cost / baseQuantity >= 0.0;
        cost / baseQuantity * normalized
      else cost
    case Err(_) => if costPerUnit > 0.0 then quantity * costPerUnit else 0.0
  }

  function SubLine(c: Component, sub: BillOfMaterial, cost: real): (r: real) {
    SubLineCost(c.quantity, c.unit, c.costPerUnit, sub.uom, sub.baseQuantity, cost)
  }

  /** Cost of bill `b` when the bills in `path` are being costed already. */
  function CostOf(g: Graph, b: nat, path: set<nat>): Cost
    requires Closed(g) && b in g && path <= g.Keys
    decreases |g.Keys - path|, 0
  {
    if b in path then Cycle(b)
    else
      Shrinks(g.Keys, path, b);
      CostOfLines(g, b, |g[b].components|, path)
  }

  /** Sum of the first `n` lines of bill `b`. */
  function CostOfLines(g: Graph, b: nat, n: nat, path: set<nat>): Cost
    requires Closed(g) && b in g && path <= g.Keys && b !in path && n <= |g[b].components|
    requires |g.Keys - path - {b}| < |g.Keys - path|
    decreases |g.Keys - path - {b}|, 1, n
  {
    if n == 0 then Total(0.0)
    else
      var before := CostOfLines(g, b, n - 1, path);
      if before.Cycle? then before
      else
        var line := CostOfLine(g, b, n - 1, path);
        if line.Cycle? then line else Total(before.value + line.value)
  }

  function CostOfLine(g: Graph, b: nat, i: nat, path: set<nat>): Cost
    requires Closed(g) && b in g && path <= g.Keys && b !in path && i < |g[b].components|
    decreases |g.Keys - path - {b}|, 1, 0
  {
    var c := g[b].components[i];
    if c.subBom.None? then Total(c.TotalCost())
    else
      assert g.Keys - (path + {b}) == g.Keys - path - {b};
      var sub := CostOf(g, c.subBom.value, path + {b});
      if sub.Cycle? then sub else Total(SubLine(c, g[c.subBom.value], sub.value))
  }

  lemma Shrinks(all: set<nat>, path: set<nat>, b: nat)
    requires b in all && b !in path
    ensures |all - path - {b}| < |all - path|
  {
    assert all - path == (all - path - {b}) + {b};
  }

  /** The recursive computation as written: add the bill to the visited ids, then accumulate its lines. */
  method CalculateCost(g: Graph, b: nat, visited: set<nat>) returns (r: Cost)
    requires Closed(g) && b in g && visited <= g.Keys
    ensures r == CostOf(g, b, visited)
    decreases |g.Keys - visited|
  {
    if b in visited {
      return Cycle(b);
    }
    Shrinks(g.Keys, visited, b);
    var path := visited + {b};
    assert g.Keys - path == g.Keys - visited - {b};
    var total := 0.0;
    for i := 0 to |g[b].components|
      invariant CostOfLines(g, b, i, visited) == Total(total)
    {
      var c := g[b].components[i];
      var line := c.TotalCost();
      if c.subBom.Some? {
        var sub := CalculateCost(g, c.subBom.value, path);
        if sub.Cycle? {
          CycleInALine(g, b, i, |g[b].components|, visited);
          return sub;
        }
        line := SubLine(c, g[c.subBom.value], sub.value);
      }
      total := total + line;
    }
    return Total(total);
  }

  /** The first line that hits a cycle decides the whole bill. */
  lemma {:induction false} CycleInALine(g: Graph, b: nat, i: nat, n: nat, path: set<nat>)
    requires Closed(g) && b in g && path <= g.Keys && b !in path && i < n <= |g[b].components|
    requires |g.Keys - path - {b}| < |g.Keys - path|
    requires CostOfLine(g, b, i, path).Cycle?
    ensures CostOfLines(g, b, n, path).Cycle?
    ensures CostOfLines(g, b, i, path).Total? ==> CostOfLines(g, b, n, path) == CostOfLine(g, b, i, path)
    decreases n
  {
    if i < n - 1 {
      CycleInALine(g, b, i, n - 1, path);
    }
  }

  lemma {:induction false} FirstCycleLine(g: Graph, b: nat, n: nat, path: set<nat>) returns (i: nat)
    requires Closed(g) && b in g && path <= g.Keys && b !in path && n <= |g[b].components|
    requires |g.Keys - path - {b}| < |g.Keys - path|
    requires CostOfLines(g, b, n, path).Cycle?
    ensures i < n && CostOfLine(g, b, i, path) == CostOfLines(g, b, n, path)
    decreases n
  {
    if CostOfLines(g, b, n - 1, path).Cycle? {
      i := FirstCycleLine(g, b, n - 1, path);
    } else {
      i := n - 1;
    }
  }

  // ---- the circular-dependency error is raised exactly when a cycle is reachable ----

  predicate UsesAt(g: Graph, a: nat, b: nat, i: nat)
    requires a in g
  {
    i < |g[a].components| && g[a].components[i].subBom == Some(b)
  }

  ghost predicate Uses(g: Graph, a: nat, b: nat) {
    a in g && exists i: nat :: UsesAt(g, a, b, i)
  }

  ghost predicate IsPath(g: Graph, p: seq<nat>) {
    p != [] && forall i :: 0 <= i < |p| - 1 ==> Uses(g, p[i], p[i + 1])
  }

  /** A path from `b` that comes back to one of its own earlier bills. */
  ghost predicate ReachesCycle(g: Graph, b: nat, p: seq<nat>) {
    IsPath(g, p) && p[0] == b && exists i :: 0 <= i < |p| - 1 && p[i] == p[|p| - 1]
  }

  /** The same, also ending when the path meets a bill that is being costed already. */
  ghost predicate Lasso(g: Graph, b: nat, path: set<nat>, p: seq<nat>) {
    IsPath(g, p) && p[0] == b && (p[|p| - 1] in path || exists i :: 0 <= i < |p| - 1 && p[i] == p[|p| - 1])
  }

  lemma {:induction false} CycleGivesLasso(g: Graph, b: nat, path: set<nat>) returns (p: seq<nat>)
    requires Closed(g) && b in g && path <= g.Keys && CostOf(g, b, path).Cycle?
    ensures Lasso(g, b, path, p)
    decreases |g.Keys - path|
  {
    if b in path {
      p := [b];
    } else {
      Shrinks(g.Keys, path, b);
      var i := FirstCycleLine(g, b, |g[b].components|, path);
      var sub := g[b].components[i].subBom.value;
      assert g.Keys - (path + {b}) == g.Keys - path - {b};
      var q := CycleGivesLasso(g, sub, path + {b});
      assert UsesAt(g, b, sub, i);
      LongerLasso(g, b, path, sub, q);
      p := [b] + q;
    }
  }

  lemma LongerLasso(g: Graph, b: nat, path: set<nat>, sub: nat, q: seq<nat>)
    requires Uses(g, b, sub) && Lasso(g, sub, path + {b}, q)
    ensures Lasso(g, b, path, [b] + q)
  {
    var p := [b] + q;
    assert forall j :: 0 <= j < |q| ==> p[j + 1] == q[j];
    forall j | 0 <= j < |p| - 1
      ensures Uses(g, p[j], p[j + 1])
    {
      if j > 0 {
        assert Uses(g, q[j - 1], q[j - 1 + 1]);
      }
    }
    if q[|q| - 1] !in path && q[|q| - 1] != b {
      var j :| 0 <= j < |q| - 1 && q[j] == q[|q| - 1];
      assert p[j + 1] == p[|p| - 1];
    }
  }

  lemma {:induction false} LassoGivesCycle(g: Graph, b: nat, path: set<nat>, p: seq<nat>)
    requires Closed(g) && b in g && path <= g.Keys && Lasso(g, b, path, p)
    ensures CostOf(g, b, path).Cycle?
    decreases |p|
  {
    if b !in path {
      Shrinks(g.Keys, path, b);
      var q := p[1..];
      assert Uses(g, p[0], p[1]);
      var i: nat :| UsesAt(g, b, p[1], i);
      assert forall j :: 0 <= j < |q| ==> q[j] == p[j + 1];
      if p[|p| - 1] !in path {
        var j :| 0 <= j < |p| - 1 && p[j] == p[|p| - 1];
        assert j > 0 ==> q[j - 1] == q[|q| - 1];
      }
      LassoGivesCycle(g, p[1], path + {b}, q);
      CycleInALine(g, b, i, |g[b].components|, path);
    }
  }

  lemma CycleErrorIsExact(g: Graph, b: nat)
    requires Closed(g) && b in g
    ensures CostOf(g, b, {}).Cycle? <==> exists p :: ReachesCycle(g, b, p)
  {
    if CostOf(g, b, {}).Cycle? {
      var p := CycleGivesLasso(g, b, {});
      assert ReachesCycle(g, b, p);
    }
    if p :| ReachesCycle(g, b, p) {
      LassoGivesCycle(g, b, {}, p);
    }
  }

  // ---- the plain cost: the bill unfolded into a tree, each use of a sub-assembly costed afresh ----

  datatype Tree = Node(bom: BillOfMaterial, subs: seq<Option<Tree>>)

  ghost predicate Unfolds(g: Graph, b: nat, t: Tree)
    decreases t
  {
    && b in g && t.bom == g[b] && |t.subs| == |t.bom.components|
    && forall i :: 0 <= i < |t.subs| ==>
         (t.subs[i].Some? <==> t.bom.components[i].subBom.Some?)
         && (t.subs[i].Some? ==> Unfolds(g, t.bom.components[i].subBom.value, t.subs[i].value))
  }

  /** Cost of an unfolded bill: no ids, no visited set. */
  function TreeCost(t: Tree): real
    decreases t, |t.subs| + 1
  {
    TreeLines(t, if |t.subs| < |t.bom.components| then |t.subs| else |t.bom.components|)
  }

  function TreeLines(t: Tree, n: nat): real
    requires n <= |t.subs| && n <= |t.bom.components|
    decreases t, n
  {
    if n == 0 then 0.0
    else
      var c := t.bom.components[n - 1];
      TreeLines(t, n - 1)
      + if t.subs[n - 1].None? then c.TotalCost()
        else SubLine(c, t.subs[n - 1].value.bom, TreeCost(t.subs[n - 1].value))
  }

  lemma {:induction false} UnfoldingIsUnique(g: Graph, b: nat, t: Tree, u: Tree)
    requires Unfolds(g, b, t) && Unfolds(g, b, u)
    ensures t == u
    decreases t
  {
    forall i | 0 <= i < |t.subs|
      ensures t.subs[i] == u.subs[i]
    {
      if t.subs[i].Some? {
        UnfoldingIsUnique(g, g[b].components[i].subBom.value, t.subs[i].value, u.subs[i].value);
      }
    }
    assert t.subs == u.subs;
  }

  /**
   * A bill costed without a cycle unfolds into a finite tree, and its cost is the tree's, whatever was visited before.
   */
  lemma {:induction false} CostIsTreeCost(g: Graph, b: nat, path: set<nat>) returns (t: Tree)
    requires Closed(g) && b in g && path <= g.Keys && CostOf(g, b, path).Total?
    ensures Unfolds(g, b, t) && CostOf(g, b, path) == Total(TreeCost(t))
    decreases |g.Keys - path|, 1
  {
    Shrinks(g.Keys, path, b);
    var subs := UnfoldLines(g, b, |g[b].components|, path);
    t := Node(g[b], subs);
    LinesAreTreeLines(g, b, |subs|, path, t);
  }

  /** The trees of the first `n` lines. */
  lemma {:induction false} UnfoldLines(g: Graph, b: nat, n: nat, path: set<nat>) returns (subs: seq<Option<Tree>>)
    requires Closed(g) && b in g && path <= g.Keys && b !in path && n <= |g[b].components|
    requires |g.Keys - path - {b}| < |g.Keys - path|
    requires CostOfLines(g, b, n, path).Total?
    ensures |subs| == n
    ensures forall i :: 0 <= i < n ==> LineUnfolds(g, b, i, path, subs[i])
    decreases |g.Keys - path - {b}|, 2, n
  {
    if n == 0 {
      subs := [];
    } else {
      var front := UnfoldLines(g, b, n - 1, path);
      var c := g[b].components[n - 1];
      if c.subBom.Some? {
        assert g.Keys - (path + {b}) == g.Keys - path - {b};
        var t := CostIsTreeCost(g, c.subBom.value, path + {b});
        subs := front + [Some(t)];
      } else {
        subs := front + [None];
      }
    }
  }

  /** Line `i` of bill `b` unfolds to `sub` and costs what the tree says. */
  ghost predicate LineUnfolds(g: Graph, b: nat, i: nat, path: set<nat>, sub: Option<Tree>)
    requires Closed(g) && b in g && path <= g.Keys && i < |g[b].components|
  {
    var c := g[b].components[i];
    && (sub.Some? <==> c.subBom.Some?)
    && (sub.Some? ==> (Unfolds(g, c.subBom.value, sub.value)
        && CostOf(g, c.subBom.value, path + {b}) == Total(TreeCost(sub.value))))
  }

  lemma {:induction false} LinesAreTreeLines(g: Graph, b: nat, n: nat, path: set<nat>, t: Tree)
    requires Closed(g) && b in g && path <= g.Keys && b !in path && n <= |g[b].components|
    requires |g.Keys - path - {b}| < |g.Keys - path|
    requires t.bom == g[b] && |t.subs| == |g[b].components|
    requires forall i :: 0 <= i < |t.subs| ==> LineUnfolds(g, b, i, path, t.subs[i])
    ensures CostOfLines(g, b, n, path) == Total(TreeLines(t, n))
    decreases n
  {
    if n > 0 {
      LinesAreTreeLines(g, b, n - 1, path, t);
      assert LineUnfolds(g, b, n - 1, path, t.subs[n - 1]);
    }
  }

  function Size(t: Tree): nat
    decreases t, |t.subs| + 1
  {
    1 + SizeOf(t, |t.subs|)
  }

  function SizeOf(t: Tree, n: nat): nat
    requires n <= |t.subs|
    decreases t, n
  {
    if n == 0 then 0 else SizeOf(t, n - 1) + if t.subs[n - 1].Some? then Size(t.subs[n - 1].value) else 0
  }

  lemma {:induction false} SubtreeIsSmaller(t: Tree, n: nat, i: nat)
    requires i < n <= |t.subs| && t.subs[i].Some?
    ensures Size(t.subs[i].value) <= SizeOf(t, n)
    decreases n
  {
    if i < n - 1 {
      SubtreeIsSmaller(t, n - 1, i);
    }
  }

  /** Following a path goes strictly down the unfolded tree. */
  lemma {:induction false} PathDescends(g: Graph, p: seq<nat>, t: Tree, k: nat) returns (u: Tree)
    requires IsPath(g, p) && Unfolds(g, p[0], t) && k < |p|
    ensures Unfolds(g, p[k], u) && Size(u) + k <= Size(t)
    decreases k
  {
    if k == 0 {
      u := t;
    } else {
      var v := PathDescends(g, p, t, k - 1);
      assert Uses(g, p[k - 1], p[k - 1 + 1]);
      var i: nat :| UsesAt(g, p[k - 1], p[k], i);
      u := v.subs[i].value;
      SubtreeIsSmaller(v, |v.subs|, i);
    }
  }

  /** A bill that unfolds into a finite tree is costed without an error, at the tree's cost. */
  lemma UnfoldedBillIsCosted(g: Graph, b: nat, t: Tree)
    requires Closed(g) && b in g && Unfolds(g, b, t)
    ensures CostOf(g, b, {}) == Total(TreeCost(t))
  {
    if CostOf(g, b, {}).Cycle? {
      var p := CycleGivesLasso(g, b, {});
      var j :| 0 <= j < |p| - 1 && p[j] == p[|p| - 1];
      var u := PathDescends(g, p, t, j);
      var q := p[j..];
      assert forall k :: 0 <= k < |q| ==> q[k] == p[j + k];
      assert IsPath(g, q) by {
        forall k | 0 <= k < |q| - 1
          ensures Uses(g, q[k], q[k + 1])
        {
          assert Uses(g, p[j + k], p[j + k + 1]);
        }
      }
      var v := PathDescends(g, q, u, |q| - 1);
      UnfoldingIsUnique(g, p[j], u, v);
      assert false;
    }
    var u := CostIsTreeCost(g, b, {});
    UnfoldingIsUnique(g, b, t, u);
  }

  ghost predicate HasUnfolding(g: Graph, b: nat) {
    exists t :: Unfolds(g, b, t)
  }

  /** Costing succeeds exactly when the bill has a finite unfolding, which is exactly when no cycle is reachable. */
  lemma CostingSucceedsExactly(g: Graph, b: nat)
    requires Closed(g) && b in g
    ensures CostOf(g, b, {}).Total? <==> HasUnfolding(g, b)
    ensures HasUnfolding(g, b) <==> !exists p :: ReachesCycle(g, b, p)
  {
    CycleErrorIsExact(g, b);
    if HasUnfolding(g, b) {
      var t :| Unfolds(g, b, t);
      UnfoldedBillIsCosted(g, b, t);
    } else if CostOf(g, b, {}).Total? {
      var t := CostIsTreeCost(g, b, {});
      assert false;
    }
  }

  /** With non-negative quantities and unit costs no cost is negative. */
  lemma CostIsNonNegative(g: Graph, b: nat, path: set<nat>)
    requires Closed(g) && b in g && path <= g.Keys && CostOf(g, b, path).Total?
    requires forall a, i :: a in g && 0 <= i < |g[a].components| ==> g[a].components[i].NonNegative()
    ensures CostOf(g, b, path).value >= 0.0
  {
    var t := CostIsTreeCost(g, b, path);
    TreeCostIsNonNegative(g, b, t, |t.subs|);
  }

  lemma {:induction false} TreeCostIsNonNegative(g: Graph, b: nat, t: Tree, n: nat)
    requires Unfolds(g, b, t) && n <= |t.subs|
    requires forall a, i :: a in g && 0 <= i < |g[a].components| ==> g[a].components[i].NonNegative()
    ensures TreeLines(t, n) >= 0.0
    decreases t, n
  {
    if n > 0 {
      TreeCostIsNonNegative(g, b, t, n - 1);
      if t.subs[n - 1].Some? {
        var sub := t.subs[n - 1].value;
        TreeCostIsNonNegative(g, g[b].components[n - 1].subBom.value, sub, |sub.subs|);
      }
    }
  }
}
