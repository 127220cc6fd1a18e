/** What the environment copy preserves: the cost of every bill. */
module CopyMeaning {
  import opened Common
  import opened Bom
  import opened BomCopy
  import opened SetupCopy

  /** Product names are unique within a company. */
  ghost predicate UniqueNames(products: map<nat, string>) {
    forall p, q :: p in products && q in products && products[p] == products[q] ==> p == q
  }

  /** No two copied bills share product and version. */
  ghost predicate DistinctKeys(source: Source) {
    forall a, b :: (source.Copies(a) && source.Copies(b) && SameKey(source.boms[a], source.boms[b])) ==> a == b
  }

  predicate SameKey(a: BillOfMaterial, b: BillOfMaterial) {
    a.product == b.product && a.version == b.version
  }

  lemma DistinctKeysGetDistinctBills(source: Source, ids: seq<nat>, pm: map<nat, nat>, m: map<nat, nat>,
                                     products: map<nat, string>, boms: Graph)
    requires Copied(source, ids, pm, m, products, boms)
    requires UniqueNames(source.products) && DistinctKeys(source)
    ensures Injective(m)
  {
    forall a, b | a in m && b in m && m[a] == m[b]
      ensures a == b
    {
      assert CopiedBill(source, ids, pm, m, boms, a) && CopiedBill(source, ids, pm, m, boms, b);
      var p, q := source.boms[a].product.value, source.boms[b].product.value;
      assert products[pm[p]] == source.products[p] && products[pm[q]] == source.products[q];
    }
  }

  lemma SameBillSameSource(ids: seq<nat>, bills: map<nat, nat>, j: nat, k: nat)
    requires j < |ids| && k < |ids| && ids[j] in bills && ids[k] in bills && Injective(bills)
    requires forall j, k :: 0 <= j < k < |ids| ==> ids[j] != ids[k]
    ensures bills[ids[j]] == bills[ids[k]] <==> j == k
  {
  }

  /** Where no other bill that shares the target has lines, the target receives the bill's own lines only. */
  lemma {:induction false} OnlyLinesOf(g: Graph, ids: seq<nat>, n: nat, products: map<nat, nat>, bills: map<nat, nat>,
                                       t: nat, i: nat, lines: seq<Component>)
    requires n <= |ids| && i < |ids| && (forall j :: 0 <= j < |ids| ==> ids[j] in g && ids[j] in bills)
      && bills[ids[i]] == t
    requires forall j :: 0 <= j < |ids| && j != i && bills[ids[j]] == t ==> g[ids[j]].components == []
    requires lines == LinesFor(g, ids, n, products, bills, t)
    ensures lines == if i < n then CopyLines(g[ids[i]].components, products, bills) else []
    decreases n
  {
    if n > 0 {
      var before := LinesFor(g, ids, n - 1, products, bills, t);
      OnlyLinesOf(g, ids, n - 1, products, bills, t, i, before);
      OneMoreBill(g, ids, n, products, bills, t, before, lines);
      if n - 1 == i {
        assert lines == CopyLines(g[ids[i]].components, products, bills);
      } else {
        assert lines == before;
      }
    }
  }

  lemma OneMoreBill(g: Graph, ids: seq<nat>, n: nat, products: map<nat, nat>, bills: map<nat, nat>, t: nat,
                    before: seq<Component>, lines: seq<Component>)
    requires 0 < n <= |ids| && forall j :: 0 <= j < |ids| ==> ids[j] in g && ids[j] in bills
    requires before == LinesFor(g, ids, n - 1, products, bills, t) && lines == LinesFor(g, ids, n, products, bills, t)
    ensures bills[ids[n - 1]] != t || g[ids[n - 1]].components == [] ==> lines == before
    ensures bills[ids[n - 1]] == t && before == [] ==> lines == CopyLines(g[ids[n - 1]].components, products, bills)
  {
    if bills[ids[n - 1]] == t && before == [] {
      assert lines == [] + CopyLines(g[ids[n - 1]].components, products, bills);
    } else {
      assert before + [] == before;
    }
  }

  lemma {:induction false} OwnBillIsLast(ids: seq<nat>, n: nat, bills: map<nat, nat>, i: nat)
    requires i < n <= |ids| && (forall j :: 0 <= j < |ids| ==> ids[j] in bills) && Injective(bills)
    requires forall j, k :: 0 <= j < k < |ids| ==> ids[j] != ids[k]
    ensures LastSource(ids, n, bills, bills[ids[i]]) == Some(ids[i])
    decreases n
  {
    if i < n - 1 {
      SameBillSameSource(ids, bills, n - 1, i);
      OwnBillIsLast(ids, n - 1, bills, i);
    }
  }

  lemma CopiedBillIsRenamed(source: Source, ids: seq<nat>, pm: map<nat, nat>, m: map<nat, nat>,
                            products: map<nat, string>, boms: Graph, b: nat)
    requires Copied(source, ids, pm, m, products, boms) && Injective(m) && b in m
    ensures RenamedBill(source.boms[b], boms[m[b]], m)
    ensures boms[m[b]].components == CopyLines(source.boms[b].components, pm, m)
    ensures boms[m[b]].parent == Lookup(m, source.boms[b].parent)
  {
    assert CopiedBill(source, ids, pm, m, boms, b);
    var i :| 0 <= i < |ids| && ids[i] == b;
    forall j | 0 <= j < |ids| && j != i
      ensures m[ids[j]] != m[b]
    {
      SameBillSameSource(ids, m, j, i);
    }
    OnlyLinesOf(source.boms, ids, |ids|, pm, m, m[b], i, LinesFor(source.boms, ids, |ids|, pm, m, m[b]));
    OwnBillIsLast(ids, |ids|, m, i);
  }

  // ---- what every copied bill costs ----

  /** The graph without its links to bills outside `copied`. */
  function Pruned(g: Graph, copied: set<nat>): (h: Graph)
    ensures h.Keys == g.Keys
    ensures Closed(g) ==> Closed(h)
  {
    map b | b in g :: PrunedBill(g[b], copied)
  }

  function PrunedBill(bill: BillOfMaterial, copied: set<nat>): (r: BillOfMaterial)
    ensures |r.components| == |bill.components|
    ensures forall i :: 0 <= i < |bill.components| ==> r.components[i] == PrunedLine(bill.components[i], copied)
  {
    bill.(components := seq(|bill.components|,
                            i requires 0 <= i < |bill.components| => PrunedLine(bill.components[i], copied)))
  }

  function PrunedLine(c: Component, copied: set<nat>): Component {
    if c.subBom.Some? && c.subBom.value !in copied then c.(subBom := None) else c
  }

  lemma PrunedBillIsRenamed(source: Source, ids: seq<nat>, pm: map<nat, nat>, m: map<nat, nat>,
                            products: map<nat, string>, boms: Graph, b: nat)
    requires Copied(source, ids, pm, m, products, boms) && Injective(m) && b in m
    ensures RenamedBill(PrunedBill(source.boms[b], m.Keys), boms[m[b]], m)
  {
    CopiedBillIsRenamed(source, ids, pm, m, products, boms, b);
    var was, pruned, now := source.boms[b], PrunedBill(source.boms[b], m.Keys), boms[m[b]];
    forall i | 0 <= i < |was.components|
      ensures RenamedLine(pruned.components[i], now.components[i], m)
    {
      assert RenamedLine(was.components[i], now.components[i], m);
    }
  }

  lemma PrunedIsRenamed(source: Source, ids: seq<nat>, pm: map<nat, nat>, m: map<nat, nat>, products: map<nat, string>,
                        boms: Graph)
    requires Copied(source, ids, pm, m, products, boms) && Closed(source.boms) && Closed(boms) && Injective(m)
    ensures Renaming(Pruned(source.boms, m.Keys), boms, m)
  {
    var g := Pruned(source.boms, m.Keys);
    forall b | b in m
      ensures b in g && RenamedBill(g[b], boms[m[b]], m)
    {
      PrunedBillIsRenamed(source, ids, pm, m, products, boms, b);
    }
    forall b, i | b in m.Keys && b in g && 0 <= i < |g[b].components| && g[b].components[i].subBom.Some?
      ensures g[b].components[i].subBom.value in m.Keys
    {
    }
  }

  /**
   * Whatever is copied along: each target bill costs exactly what its source costs without the links to bills that are
   * not copied.
   */
  lemma CopyCostsPrunedSource(source: Source, ids: seq<nat>, pm: map<nat, nat>, m: map<nat, nat>,
                              products: map<nat, string>, boms: Graph, b: nat)
    requires Copied(source, ids, pm, m, products, boms) && Closed(source.boms) && Closed(boms) && Injective(m) && b in m
    ensures SameCost(m, CostOf(Pruned(source.boms, m.Keys), b, {}), CostOf(boms, m[b], {}))
  {
    PrunedIsRenamed(source, ids, pm, m, products, boms);
    CostIsRenamed(Pruned(source.boms, m.Keys), boms, m, b, {});
    assert Image(m, {}) == {};
  }

  /** The bill and all that it is made from, at any depth, are in the set. */
  ghost predicate MadeWithin(g: Graph, b: nat, s: set<nat>) {
    forall p :: IsPath(g, p) && p[0] == b ==> p[|p| - 1] in s
  }

  /** `x` is made into `b`, at some depth. */
  ghost predicate MadeFrom(g: Graph, b: nat, x: nat) {
    exists p :: IsPath(g, p) && p[0] == b && p[|p| - 1] == x
  }

  lemma UsedIsMadeFrom(g: Graph, b: nat, x: nat, i: nat)
    requires x in g && MadeFrom(g, b, x) && i < |g[x].components| && g[x].components[i].subBom.Some?
    ensures MadeFrom(g, b, g[x].components[i].subBom.value)
  {
    var y := g[x].components[i].subBom.value;
    var p :| IsPath(g, p) && p[0] == b && p[|p| - 1] == x;
    var q := p + [y];
    assert UsesAt(g, x, y, i);
    forall j | 0 <= j < |q| - 1
      ensures Uses(g, q[j], q[j + 1])
    {
      if j < |p| - 1 {
        assert Uses(g, p[j], p[j + 1]);
      }
    }
    assert IsPath(g, q) && q[0] == b && q[|q| - 1] == y;
  }

  /** The renaming of the bills that `b` is made from. */
  ghost function Below(g: Graph, b: nat, m: map<nat, nat>): map<nat, nat> {
    map x | x in m && MadeFrom(g, b, x) :: m[x]
  }

  lemma BelowIsClosed(g: Graph, b: nat, m: map<nat, nat>)
    requires MadeWithin(g, b, m.Keys)
    ensures SubBomsCopied(g, Below(g, b, m).Keys)
  {
    var part := Below(g, b, m);
    forall x, i | x in part.Keys && x in g && 0 <= i < |g[x].components| && g[x].components[i].subBom.Some?
      ensures g[x].components[i].subBom.value in part.Keys
    {
      UsedIsMadeFrom(g, b, x, i);
    }
  }

  lemma BelowIsRenamed(g: Graph, h: Graph, b: nat, m: map<nat, nat>)
    requires Closed(g) && Closed(h) && Injective(m) && MadeWithin(g, b, m.Keys)
    requires forall x :: x in m ==> x in g && m[x] in h && RenamedBill(g[x], h[m[x]], m)
    ensures Renaming(g, h, Below(g, b, m))
  {
    var part := Below(g, b, m);
    BelowIsClosed(g, b, m);
    forall x | x in part
      ensures RenamedBill(g[x], h[part[x]], part)
    {
      assert RenamedBill(g[x], h[m[x]], m);
      forall i | 0 <= i < |g[x].components|
        ensures RenamedLine(g[x].components[i], h[m[x]].components[i], part)
      {
        assert RenamedLine(g[x].components[i], h[m[x]].components[i], m);
      }
    }
  }

  /**
   * A bill whose sub-assemblies are all copied along, at any depth, costs in the target what it costs in the source.
   */
  lemma CopyPreservesCost(source: Source, ids: seq<nat>, pm: map<nat, nat>, m: map<nat, nat>,
                          products: map<nat, string>, boms: Graph, b: nat)
    requires Copied(source, ids, pm, m, products, boms) && Closed(source.boms) && Closed(boms)
    requires UniqueNames(source.products) && DistinctKeys(source) && b in m && MadeWithin(source.boms, b, m.Keys)
    ensures SameCost(m, CostOf(source.boms, b, {}), CostOf(boms, m[b], {}))
  {
    DistinctKeysGetDistinctBills(source, ids, pm, m, products, boms);
    forall x | x in m
      ensures RenamedBill(source.boms[x], boms[m[x]], m)
    {
      CopiedBillIsRenamed(source, ids, pm, m, products, boms, x);
    }
    var part := Below(source.boms, b, m);
    BelowIsRenamed(source.boms, boms, b, m);
    assert IsPath(source.boms, [b]);
    CostIsRenamed(source.boms, boms, part, b, {});
    assert Image(part, {}) == {};
  }

  lemma {:induction false} CopiedIsClosedUnderUse(g: Graph, copied: set<nat>, p: seq<nat>)
    requires SubBomsCopied(g, copied) && IsPath(g, p) && p[0] in copied
    ensures p[|p| - 1] in copied
    decreases |p|
  {
    if |p| > 1 {
      assert Uses(g, p[0], p[0 + 1]);
      var i: nat :| UsesAt(g, p[0], p[1], i);
      var q := p[1..];
      forall j | 0 <= j < |q| - 1
        ensures Uses(g, q[j], q[j + 1])
      {
        assert Uses(g, p[j + 1], p[j + 1 + 1]);
      }
      CopiedIsClosedUnderUse(g, copied, q);
    }
  }

  /**
   * Copying preserves meaning: with distinct keys and every sub-assembly copied along, each target
   * bill costs what its source costs, or both report a cycle at corresponding bills.
   */
  lemma CopyPreservesCosts(source: Source, ids: seq<nat>, pm: map<nat, nat>, m: map<nat, nat>,
                           products: map<nat, string>, boms: Graph)
    requires Copied(source, ids, pm, m, products, boms) && Closed(source.boms) && Closed(boms)
    requires UniqueNames(source.products) && DistinctKeys(source) && SubBomsCopied(source.boms, m.Keys)
    ensures forall b :: b in m ==> SameCost(m, CostOf(source.boms, b, {}), CostOf(boms, m[b], {}))
  {
    forall b | b in m
      ensures SameCost(m, CostOf(source.boms, b, {}), CostOf(boms, m[b], {}))
    {
      forall p | IsPath(source.boms, p) && p[0] == b
        ensures p[|p| - 1] in m.Keys
      {
        CopiedIsClosedUnderUse(source.boms, m.Keys, p);
      }
      CopyPreservesCost(source, ids, pm, m, products, boms, b);
    }
  }

  // ---- links to bills that are not copied ----

  /** The copy keeps every link to a sub-assembly exactly if every sub-assembly of a copied bill is copied too. */
  lemma LinksAreKeptExactly(source: Source, ids: seq<nat>, pm: map<nat, nat>, m: map<nat, nat>,
                            products: map<nat, string>, boms: Graph)
    requires Copied(source, ids, pm, m, products, boms) && Injective(m)
    ensures forall b :: b in m ==> |boms[m[b]].components| == |source.boms[b].components|
    ensures (forall b, i :: (b in m && 0 <= i < |source.boms[b].components|
             && source.boms[b].components[i].subBom.Some?) ==>
               boms[m[b]].components[i].subBom.Some?)
            <==> SubBomsCopied(source.boms, m.Keys)
  {
    forall b | b in m
      ensures RenamedBill(source.boms[b], boms[m[b]], m)
    {
      CopiedBillIsRenamed(source, ids, pm, m, products, boms, b);
    }
    assert forall b, i :: b in m && 0 <= i < |source.boms[b].components| ==>
      RenamedLine(source.boms[b].components[i], boms[m[b]].components[i], m);
  }

  /** A link to a bill that is not copied is dropped: in the target that line costs what it costs on its own. */
  lemma UncopiedLineIsDropped(source: Source, ids: seq<nat>, pm: map<nat, nat>, m: map<nat, nat>,
                              products: map<nat, string>, boms: Graph, b: nat, i: nat, path: set<nat>)
    requires Copied(source, ids, pm, m, products, boms) && Injective(m) && Closed(boms) && b in m
    requires i < |source.boms[b].components|
    requires source.boms[b].components[i].subBom.Some? && source.boms[b].components[i].subBom.value !in m
    requires path <= boms.Keys && m[b] !in path
    ensures i < |boms[m[b]].components|
    ensures CostOfLine(boms, m[b], i, path) == Total(source.boms[b].components[i].TotalCost())
  {
    CopiedBillIsRenamed(source, ids, pm, m, products, boms, b);
    var c, d := source.boms[b].components[i], boms[m[b]].components[i];
    assert RenamedLine(c, d, m);
    SameTotalCost(c, d);
  }

  function Raw(cost: real): Component {
    Component(None, "raw", 1.0, "pcs", cost, 0.0, 0.0, Irretrievable, None)
  }

  /** A line without a price of its own, made from bill 2. */
  function Part(): Component {
    Component(None, "part", 1.0, "pcs", 0.0, 0.0, 0.0, Irretrievable, Some(2))
  }

  /** Bill 1 of product 5 is made from bill 2, which belongs to no product and costs 7. */
  function PartGraph(): (g: Graph)
    ensures Closed(g)
  {
    map[1 := BillOfMaterial(Some(5), "v1", 1.0, "pcs", None, [Part()]),
        2 := BillOfMaterial(None, "v1", 1.0, "pcs", None, [Raw(7.0)])]
  }

  lemma OneLineCost(g: Graph, b: nat, path: set<nat>)
    requires Closed(g) && b in g && path <= g.Keys && b !in path && |g[b].components| == 1
    ensures |g.Keys - path - {b}| < |g.Keys - path|
    ensures CostOf(g, b, path) == CostOfLines(g, b, 1, path)
    ensures CostOf(g, b, path).Total? <==> CostOfLine(g, b, 0, path).Total?
    ensures CostOf(g, b, path).Total? ==> CostOf(g, b, path).value == CostOfLine(g, b, 0, path).value
  {
    Shrinks(g.Keys, path, b);
    assert CostOfLines(g, b, 0, path) == Total(0.0);
  }

  lemma RawLineCost(g: Graph, b: nat, path: set<nat>, cost: real)
    requires Closed(g) && b in g && path <= g.Keys && b !in path && g[b].components == [Raw(cost)]
      && Round2(cost) == cost
    requires |g.Keys - path - {b}| < |g.Keys - path|
    ensures CostOfLine(g, b, 0, path) == Total(cost)
  {
  }

  lemma RawBillCost(g: Graph, b: nat, path: set<nat>, cost: real)
    requires Closed(g) && b in g && path <= g.Keys && b !in path && g[b].components == [Raw(cost)]
      && Round2(cost) == cost
    ensures CostOf(g, b, path) == Total(cost)
  {
    OneLineCost(g, b, path);
    RawLineCost(g, b, path, cost);
  }

  lemma PartGraphCost()
    ensures CostOf(PartGraph(), 1, {}) == Total(7.0)
  {
    var g := PartGraph();
    RawBillCost(g, 2, {} + {1}, 7.0);
    OneLineCost(g, 1, {});
    assert SubLine(Part(), g[2], 7.0) == 7.0;
  }

  /** A bill that costs 7 is copied, into whatever target and under whatever ids, to one that costs nothing. */
  lemma DroppedCostExample(ids: seq<nat>, pm: map<nat, nat>, m: map<nat, nat>, products: map<nat, string>, boms: Graph)
    requires Copied(Source(map[5 := "top"], PartGraph()), ids, pm, m, products, boms) && Closed(boms)
    ensures 1 in m && CostOf(PartGraph(), 1, {}) == Total(7.0) && CostOf(boms, m[1], {}) == Total(0.0)
  {
    PartGraphCost();
    PartIsAlone(ids, pm, m, products, boms);
    OneLineCost(boms, m[1], {});
  }

  lemma OnlyTopIsCopied(source: Source, m: map<nat, nat>)
    requires source == Source(map[5 := "top"], PartGraph()) && forall b :: b in m <==>
      b in source.boms && source.Copies(b)
    ensures m.Keys == {1} && |source.boms[1].components| == 1 && source.boms[1].components[0] == Part()
  {
    assert source.Copies(1) && !source.Copies(2);
  }

  lemma PartIsAlone(ids: seq<nat>, pm: map<nat, nat>, m: map<nat, nat>, products: map<nat, string>, boms: Graph)
    requires Copied(Source(map[5 := "top"], PartGraph()), ids, pm, m, products, boms) && Closed(boms)
    ensures 1 in m && m[1] in boms && |boms[m[1]].components| == 1 && CostOfLine(boms, m[1], 0, {}) == Total(0.0)
  {
    var source := Source(map[5 := "top"], PartGraph());
    OnlyTopIsCopied(source, m);
    CopiedBillIsRenamed(source, ids, pm, m, products, boms, 1);
    UncopiedLineIsDropped(source, ids, pm, m, products, boms, 1, 0, {});
    assert Part().TotalCost() == 0.0;
  }

  // ---- bills that share product and version ----

  /** How many lines the first `n` source bills bring to target bill `t`. */
  function LineCount(g: Graph, ids: seq<nat>, n: nat, bills: map<nat, nat>, t: nat): nat
    requires n <= |ids| && forall i :: 0 <= i < |ids| ==> ids[i] in g && ids[i] in bills
  {
    if n == 0 then 0
    else LineCount(g, ids, n - 1, bills, t) + if bills[ids[n - 1]] == t then |g[ids[n - 1]].components| else 0
  }

  lemma {:induction false} LinesAreCounted(g: Graph, ids: seq<nat>, n: nat, products: map<nat, nat>,
                                           bills: map<nat, nat>, t: nat)
    requires n <= |ids| && forall i :: 0 <= i < |ids| ==> ids[i] in g && ids[i] in bills
    ensures |LinesFor(g, ids, n, products, bills, t)| == LineCount(g, ids, n, bills, t)
  {
    if n > 0 {
      LinesAreCounted(g, ids, n - 1, products, bills, t);
    }
  }

  /** The lines of the bill at position `i` stand in `lines` in one piece, from `at` on. */
  ghost predicate StandIn(g: Graph, ids: seq<nat>, products: map<nat, nat>, bills: map<nat, nat>,
                          lines: seq<Component>, i: nat, at: nat)
    requires i < |ids| && ids[i] in g
  {
    var own := g[ids[i]].components;
    at + |own| <= |lines| && lines[at..at + |own|] == CopyLines(own, products, bills)
  }

  lemma StaysInPlace(g: Graph, ids: seq<nat>, products: map<nat, nat>, bills: map<nat, nat>, a: seq<Component>,
                     b: seq<Component>, j: nat, at: nat)
    requires j < |ids| && ids[j] in g && StandIn(g, ids, products, bills, a, j, at)
    ensures StandIn(g, ids, products, bills, a + b, j, at)
  {
    var n := |g[ids[j]].components|;
    assert (a + b)[at..at + n] == a[at..at + n];
  }

  lemma Appended(g: Graph, ids: seq<nat>, products: map<nat, nat>, bills: map<nat, nat>, a: seq<Component>,
                 b: seq<Component>, j: nat)
    requires j < |ids| && ids[j] in g && b == CopyLines(g[ids[j]].components, products, bills)
    ensures StandIn(g, ids, products, bills, a + b, j, |a|)
  {
    assert (a + b)[|a|..|a| + |b|] == b;
  }

  /** The lines of the bill at position `j` stand in the target in one piece. */
  lemma {:induction false} LinesStandTogether(g: Graph, ids: seq<nat>, n: nat, products: map<nat, nat>,
                                              bills: map<nat, nat>, t: nat, j: nat, lines: seq<Component>)
    requires j < n <= |ids| && (forall i :: 0 <= i < |ids| ==> ids[i] in g && ids[i] in bills) && bills[ids[j]] == t
    requires lines == LinesFor(g, ids, n, products, bills, t)
    ensures StandIn(g, ids, products, bills, lines, j, LineCount(g, ids, j, bills, t))
    decreases n
  {
    var before := LinesFor(g, ids, n - 1, products, bills, t);
    var own := if bills[ids[n - 1]] == t then CopyLines(g[ids[n - 1]].components, products, bills) else [];
    assert lines == before + own;
    if j == n - 1 {
      LinesAreCounted(g, ids, n - 1, products, bills, t);
      Appended(g, ids, products, bills, before, own, j);
    } else {
      LinesStandTogether(g, ids, n - 1, products, bills, t, j, before);
      StaysInPlace(g, ids, products, bills, before, own, j, LineCount(g, ids, j, bills, t));
    }
  }

  lemma {:induction false} CountGrows(g: Graph, ids: seq<nat>, j: nat, n: nat, bills: map<nat, nat>, t: nat)
    requires j <= n <= |ids| && forall i :: 0 <= i < |ids| ==> ids[i] in g && ids[i] in bills
    ensures LineCount(g, ids, j, bills, t) <= LineCount(g, ids, n, bills, t)
    ensures j < n && bills[ids[j]] == t ==> (LineCount(g, ids, j, bills, t)
      + |g[ids[j]].components| <= LineCount(g, ids, n, bills, t))
    decreases n
  {
    if j < n {
      CountGrows(g, ids, j, n - 1, bills, t);
    }
  }

  lemma TwoBillsStand(g: Graph, ids: seq<nat>, products: map<nat, nat>, bills: map<nat, nat>, t: nat, i: nat, j: nat)
      returns (at: nat, to: nat)
    requires (forall k :: 0 <= k < |ids| ==> ids[k] in g && ids[k] in bills) && i < j < |ids|
      && bills[ids[i]] == t == bills[ids[j]]
    ensures StandIn(g, ids, products, bills, LinesFor(g, ids, |ids|, products, bills, t), i, at)
    ensures StandIn(g, ids, products, bills, LinesFor(g, ids, |ids|, products, bills, t), j, to)
    ensures at + |g[ids[i]].components| <= to
  {
    at, to := LineCount(g, ids, i, bills, t), LineCount(g, ids, j, bills, t);
    LinesStandTogether(g, ids, |ids|, products, bills, t, i, LinesFor(g, ids, |ids|, products, bills, t));
    LinesStandTogether(g, ids, |ids|, products, bills, t, j, LinesFor(g, ids, |ids|, products, bills, t));
    CountGrows(g, ids, i, j, bills, t);
  }

  /**
   * Bills that share a target are merged into it: the lines of each stand there in one piece, those of an earlier bill
   * before those of a later one, and there are no others.
   */
  lemma SharedTargetAddsUp(source: Source, ids: seq<nat>, pm: map<nat, nat>, m: map<nat, nat>,
                           products: map<nat, string>, boms: Graph, i: nat, j: nat)
      returns (at: nat, to: nat)
    requires Copied(source, ids, pm, m, products, boms) && i < j < |ids| && m[ids[i]] == m[ids[j]]
    ensures var lines := boms[m[ids[i]]].components;
      && StandIn(source.boms, ids, pm, m, lines, i, at) && StandIn(source.boms, ids, pm, m, lines, j, to)
      && at + |source.boms[ids[i]].components| <= to && |lines| == LineCount(source.boms, ids, |ids|, m, m[ids[i]])
  {
    assert CopiedBill(source, ids, pm, m, boms, ids[i]);
    LinesAreCounted(source.boms, ids, |ids|, pm, m, m[ids[i]]);
    at, to := TwoBillsStand(source.boms, ids, pm, m, m[ids[i]], i, j);
  }

  /** A copied bill has its own lines and no others exactly if every other bill that shares its target has none. */
  lemma OwnLinesExactly(source: Source, ids: seq<nat>, pm: map<nat, nat>, m: map<nat, nat>, products: map<nat, string>,
                        boms: Graph, i: nat)
    requires Copied(source, ids, pm, m, products, boms) && i < |ids|
    ensures boms[m[ids[i]]].components == CopyLines(source.boms[ids[i]].components, pm, m) <==>
      forall j :: 0 <= j < |ids| && j != i && m[ids[j]] == m[ids[i]] ==> source.boms[ids[j]].components == []
  {
    var g, t, lines := source.boms, m[ids[i]], boms[m[ids[i]]].components;
    assert CopiedBill(source, ids, pm, m, boms, ids[i]);
    if forall j :: 0 <= j < |ids| && j != i && m[ids[j]] == t ==> g[ids[j]].components == [] {
      OnlyLinesOf(g, ids, |ids|, pm, m, t, i, LinesFor(g, ids, |ids|, pm, m, t));
    } else {
      var j :| 0 <= j < |ids| && j != i && m[ids[j]] == t && g[ids[j]].components != [];
      var at, to := SharedTargetAddsUp(source, ids, pm, m, products, boms, if i < j then i else j,
                                       if i < j then j else i);
    }
  }
}
