/** Copying the bills of one environment into another under new ids, and why every cost survives. */
module BomCopy {
  import opened Common
  import opened Bom

  // ---- a renamed graph costs the same ----

  /** The fields of a line that its cost depends on. */
  predicate SameLine(c: Component, d: Component) {
    && c.quantity == d.quantity && c.unit == d.unit && c.costPerUnit == d.costPerUnit && c.scrapType == d.scrapType
    && c.wastageQuantity == d.wastageQuantity && c.scrapValuePerUnit == d.scrapValuePerUnit
  }

  ghost predicate RenamedLine(c: Component, d: Component, m: map<nat, nat>) {
    SameLine(c, d) && d.subBom == if c.subBom.Some? && c.subBom.value in m then Some(m[c.subBom.value]) else None
  }

  ghost predicate RenamedBill(a: BillOfMaterial, b: BillOfMaterial, m: map<nat, nat>) {
    && a.baseQuantity == b.baseQuantity && a.uom == b.uom && |a.components| == |b.components|
    && forall i :: 0 <= i < |a.components| ==> RenamedLine(a.components[i], b.components[i], m)
  }

  ghost predicate Injective(m: map<nat, nat>) {
    forall a, b :: a in m && b in m && m[a] == m[b] ==> a == b
  }

  /** Every sub-assembly of a copied bill is copied too. */
  ghost predicate SubBomsCopied(g: Graph, copied: set<nat>) {
    forall b, i :: b in copied && b in g && 0 <= i < |g[b].components| && g[b].components[i].subBom.Some? ==>
      g[b].components[i].subBom.value in copied
  }

  ghost predicate Renaming(g: Graph, h: Graph, m: map<nat, nat>) {
    && Closed(g) && Closed(h) && Injective(m) && SubBomsCopied(g, m.Keys)
    && forall b :: b in m ==> b in g && m[b] in h && RenamedBill(g[b], h[m[b]], m)
  }

  function Image(m: map<nat, nat>, s: set<nat>): set<nat>
    requires s <= m.Keys
  {
    set x | x in s :: m[x]
  }

  /** The same outcome under the renaming: the same cost, or a cycle at the renamed bill. */
  ghost predicate SameCost(m: map<nat, nat>, c: Cost, d: Cost) {
    match c
    case Total(v) => d == Total(v)
    case Cycle(b) => b in m && d == Cycle(m[b])
  }

  lemma {:induction false} CostIsRenamed(g: Graph, h: Graph, m: map<nat, nat>, b: nat, path: set<nat>)
    requires Renaming(g, h, m) && b in m && path <= m.Keys
    ensures path <= g.Keys && Image(m, path) <= h.Keys
    ensures SameCost(m, CostOf(g, b, path), CostOf(h, m[b], Image(m, path)))
    decreases |g.Keys - path|, |g[b].components| + 1
  {
    assert path <= g.Keys && Image(m, path) <= h.Keys;
    if b !in path {
      assert m[b] !in Image(m, path);
      Shrinks(g.Keys, path, b);
      Shrinks(h.Keys, Image(m, path), m[b]);
      var n, image := |g[b].components|, Image(m, path);
      assert RenamedBill(g[b], h[m[b]], m);
      forall i | 0 <= i < n
        ensures SameLineCost(g, h, m, b, i, path, image)
      {
        LineIsRenamed(g, h, m, b, i, path);
      }
      LinesAreRenamed(g, h, m, b, n, path, image, CostOfLines(g, b, n, path), CostOfLines(h, m[b], n, image));
    }
  }

  /** Bill `b` and its renamed twin can be costed line by line. */
  ghost predicate TwinBills(g: Graph, h: Graph, m: map<nat, nat>, b: nat, path: set<nat>, image: set<nat>) {
    && Closed(g) && Closed(h) && b in g && b in m && m[b] in h && path <= g.Keys && image <= h.Keys
    && b !in path && m[b] !in image && |g[b].components| == |h[m[b]].components|
    && |g.Keys - path - {b}| < |g.Keys - path| && |h.Keys - image - {m[b]}| < |h.Keys - image|
  }

  ghost predicate SameLineCost(g: Graph, h: Graph, m: map<nat, nat>, b: nat, i: nat, path: set<nat>, image: set<nat>)
    requires TwinBills(g, h, m, b, path, image) && i < |g[b].components|
  {
    SameCost(m, CostOfLine(g, b, i, path), CostOfLine(h, m[b], i, image))
  }

  lemma {:induction false} LinesAreRenamed(g: Graph, h: Graph, m: map<nat, nat>, b: nat, n: nat, path: set<nat>,
                                           image: set<nat>, c: Cost, d: Cost)
    requires TwinBills(g, h, m, b, path, image) && n <= |g[b].components|
    requires forall i :: 0 <= i < n ==> SameLineCost(g, h, m, b, i, path, image)
    requires c == CostOfLines(g, b, n, path) && d == CostOfLines(h, m[b], n, image)
    ensures SameCost(m, c, d)
    decreases n
  {
    if n > 0 {
      LinesAreRenamed(g, h, m, b, n - 1, path, image, CostOfLines(g, b, n - 1, path),
                      CostOfLines(h, m[b], n - 1, image));
      assert SameLineCost(g, h, m, b, n - 1, path, image);
      AddedLineIsRenamed(g, h, m, b, n, path, image);
    }
  }

  lemma AddedLineIsRenamed(g: Graph, h: Graph, m: map<nat, nat>, b: nat, n: nat, path: set<nat>, image: set<nat>)
    requires TwinBills(g, h, m, b, path, image) && 0 < n <= |g[b].components|
    ensures SameCost(m, CostOfLines(g, b, n - 1, path), CostOfLines(h, m[b], n - 1, image))
         && SameCost(m, CostOfLine(g, b, n - 1, path), CostOfLine(h, m[b], n - 1, image))
        ==> SameCost(m, CostOfLines(g, b, n, path), CostOfLines(h, m[b], n, image))
  {
  }

  lemma {:induction false} LineIsRenamed(g: Graph, h: Graph, m: map<nat, nat>, b: nat, i: nat, path: set<nat>)
    requires Renaming(g, h, m) && b in m && path <= m.Keys && b !in path && i < |g[b].components|
    requires path <= g.Keys && Image(m, path) <= h.Keys && m[b] !in Image(m, path)
      && |h[m[b]].components| == |g[b].components|
    requires |g.Keys - path - {b}| < |g.Keys - path|
    requires |h.Keys - Image(m, path) - {m[b]}| < |h.Keys - Image(m, path)|
    ensures SameCost(m, CostOfLine(g, b, i, path), CostOfLine(h, m[b], i, Image(m, path)))
    decreases |g.Keys - path|, i
  {
    var c, d := g[b].components[i], h[m[b]].components[i];
    assert RenamedBill(g[b], h[m[b]], m) && RenamedLine(c, d, m);
    if c.subBom.Some? {
      var sub := c.subBom.value;
      assert sub in m;
      assert g.Keys - (path + {b}) == g.Keys - path - {b};
      assert Image(m, path + {b}) == Image(m, path) + {m[b]};
      CostIsRenamed(g, h, m, sub, path + {b});
      SubLineIsRenamed(g, h, m, b, i, path, Image(m, path), sub);
    } else {
      SameTotalCost(c, d);
    }
  }

  /** One line, once its sub-assembly is known to cost the same. */
  lemma SubLineIsRenamed(g: Graph, h: Graph, m: map<nat, nat>, b: nat, i: nat, path: set<nat>, image: set<nat>,
                         sub: nat)
    requires Closed(g) && Closed(h) && b in g && b in m && m[b] in h && sub in g && sub in m && m[sub] in h
    requires path <= g.Keys && image <= h.Keys && b !in path && m[b] !in image
    requires i < |g[b].components| && i < |h[m[b]].components|
    requires |g.Keys - path - {b}| < |g.Keys - path| && |h.Keys - image - {m[b]}| < |h.Keys - image|
    requires g[b].components[i].subBom == Some(sub) && h[m[b]].components[i].subBom == Some(m[sub])
    requires SameLine(g[b].components[i], h[m[b]].components[i])
    requires g[sub].baseQuantity == h[m[sub]].baseQuantity && g[sub].uom == h[m[sub]].uom
    requires SameCost(m, CostOf(g, sub, path + {b}), CostOf(h, m[sub], image + {m[b]}))
    ensures SameCost(m, CostOfLine(g, b, i, path), CostOfLine(h, m[b], i, image))
  {
    var cost := CostOf(g, sub, path + {b});
    if cost.Total? {
      SameSubLine(g[b].components[i], h[m[b]].components[i], g[sub], h[m[sub]], cost.value);
    }
  }

  lemma SameTotalCost(c: Component, d: Component)
    requires SameLine(c, d)
    ensures c.TotalCost() == d.TotalCost()
  {
  }

  lemma SameSubLine(c: Component, d: Component, a: BillOfMaterial, b: BillOfMaterial, cost: real)
    requires SameLine(c, d) && a.baseQuantity == b.baseQuantity && a.uom == b.uom
    ensures SubLine(c, a, cost) == SubLine(d, b, cost)
  {
  }
}
