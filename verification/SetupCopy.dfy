/** The copy itself: products and bills of a source environment rebuilt in a target database. */
module SetupCopy {
  import opened Common
  import opened Bom
  import opened BomCopy

  /** What is read from the source environment. */
  datatype Source = Source(products: map<nat, string>, boms: Graph) {
    /** The bills that are copied: those of the company's own products. */
    predicate Copies(b: nat) {
      b in boms && boms[b].product.Some? && boms[b].product.value in products
    }
  }

  /** A query result in id order: every member once. */
  ghost predicate Enumerates(ids: seq<nat>, s: set<nat>) {
    && (forall i :: 0 <= i < |ids| ==> ids[i] in s)
    && (forall x :: x in s ==> x in ids)
    && forall i, j :: 0 <= i < j < |ids| ==> ids[i] != ids[j]
  }

  function Lookup(m: map<nat, nat>, id: Option<nat>): Option<nat> {
    if id.Some? && id.value in m then Some(m[id.value]) else None
  }

  /** A line in the target: links go through the id maps, everything else is taken over. */
  function CopyOf(c: Component, products: map<nat, nat>, bills: map<nat, nat>): Component {
    c.(product := Lookup(products, c.product), subBom := Lookup(bills, c.subBom))
  }

  function CopyLines(cs: seq<Component>, products: map<nat, nat>, bills: map<nat, nat>): (r: seq<Component>)
    ensures |r| == |cs|
    ensures forall i :: 0 <= i < |cs| ==> r[i] == CopyOf(cs[i], products, bills)
  {
    if cs == [] then [] else CopyLines(cs[..|cs| - 1], products, bills) + [CopyOf(cs[|cs| - 1], products, bills)]
  }

  /** The lines target bill `t` receives from the first `n` source bills: those of every source bill mapped to it. */
  function LinesFor(g: Graph, ids: seq<nat>, n: nat, products: map<nat, nat>, bills: map<nat, nat>,
                    t: nat): seq<Component>
    requires n <= |ids| && forall i :: 0 <= i < |ids| ==> ids[i] in g && ids[i] in bills
  {
    if n == 0 then []
    else LinesFor(g, ids, n - 1, products, bills, t)
         + if bills[ids[n - 1]] == t then CopyLines(g[ids[n - 1]].components, products, bills) else []
  }

  /** The last of the first `n` source bills mapped to `t`: its quantity, unit and parent are the ones that stay. */
  function LastSource(ids: seq<nat>, n: nat, bills: map<nat, nat>, t: nat): (r: Option<nat>)
    requires n <= |ids| && forall i :: 0 <= i < |ids| ==> ids[i] in bills
    ensures r.Some? ==> r.value in ids && bills[r.value] == t
    ensures (exists i :: 0 <= i < n && bills[ids[i]] == t) ==> r.Some?
  {
    if n == 0 then None
    else if bills[ids[n - 1]] == t then Some(ids[n - 1])
    else LastSource(ids, n - 1, bills, t)
  }

  class TargetDb {
    var products: map<nat, string>
    var boms: Graph
    var nextProduct: nat
    var nextBom: nat

    constructor ()
      ensures Valid() && products == map[] && boms == map[]
    {
      products, boms, nextProduct, nextBom := map[], map[], 0, 0;
    }

    ghost predicate Valid()
      reads this
    {
      && (forall k :: k in products ==> k < nextProduct)
      && (forall k :: k in boms ==> k < nextBom)
      && Closed(boms)
    }

    /** The product of that name, created if there is none. */
    method UpsertProduct(name: string) returns (id: nat)
      requires Valid()
      modifies this`products, this`nextProduct
      ensures Valid() && id in products && products == old(products)[id := name]
      ensures if exists k :: k in old(products) && old(products)[k] == name
              then id in old(products) && products == old(products) else id !in old(products)
    {
      if k :| k in products && products[k] == name {
        id := k;
      } else {
        id := nextProduct;
        nextProduct := nextProduct + 1;
        products := products[id := name];
      }
      assert products == old(products)[id := name];
    }

    method CopyProducts(source: map<nat, string>, ids: seq<nat>) returns (m: map<nat, nat>)
      requires Valid() && Enumerates(ids, source.Keys)
      modifies this`products, this`nextProduct
      ensures Valid() && m.Keys == source.Keys
      ensures forall p :: p in m ==> m[p] in products && products[m[p]] == source[p]
      ensures forall k :: k in old(products) ==> k in products && products[k] == old(products)[k]
    {
      m := map[];
      for i := 0 to |ids|
        invariant Valid()
        invariant forall p :: p in m <==> exists j :: 0 <= j < i && ids[j] == p
        invariant forall p :: p in m ==> p in source && m[p] in products && products[m[p]] == source[p]
        invariant forall k :: k in old(products) ==> k in products && products[k] == old(products)[k]
      {
        ghost var before := products;
        var id := UpsertProduct(source[ids[i]]);
        assert forall k :: k in before ==> k in products && products[k] == before[k];
        m := m[ids[i] := id];
      }
    }

    /** The bill of that product and version with its header reset and its lines deleted; none if two rows match. */
    method UpsertBill(product: nat, b: BillOfMaterial) returns (r: Option<nat>)
      requires Valid()
      modifies this`boms, this`nextBom
      ensures Valid()
      ensures r.None? <==> (exists t, u :: t in old(boms) && u in old(boms) && t != u &&
                             HasKey(old(boms), t, product, b.version) && HasKey(old(boms), u, product, b.version))
      ensures r.None? ==> boms == old(boms)
      ensures r.Some? ==> boms == old(boms)[r.value := EmptyBill(product, b)]
      ensures r.Some? ==> r.value !in old(boms) || HasKey(old(boms), r.value, product, b.version)
    {
      if exists t, u :: (t in boms && u in boms && t != u && HasKey(boms, t, product, b.version)
        && HasKey(boms, u, product, b.version)) {
        return None;
      }
      var id;
      if t :| t in boms && HasKey(boms, t, product, b.version) {
        id := t;
      } else {
        id := nextBom;
        nextBom := nextBom + 1;
      }
      boms := boms[id := EmptyBill(product, b)];
      return Some(id);
    }

    /** First pass: a target bill for every source bill, without lines. */
    method CreateBills(source: Source, ids: seq<nat>, pm: map<nat, nat>) returns (r: Result<map<nat, nat>>)
      requires Valid() && pm.Keys == source.products.Keys
      requires Enumerates(ids, set b | b in source.boms && source.Copies(b))
      modifies this`boms, this`nextBom
      ensures Valid()
      ensures r.Ok? ==> r.value.Keys == set b | b in source.boms && source.Copies(b)
      ensures r.Ok? ==> forall b :: b in r.value ==> Created(source, pm, r.value, boms, b)
      ensures r.Ok? ==> forall t :: t in old(boms) && !InImage(r.value, t) ==> t in boms && boms[t] == old(boms)[t]
      ensures r.Ok? ==> forall t :: t in boms ==> t in old(boms) || InImage(r.value, t)
    {
      var m: map<nat, nat> := map[];
      for i := 0 to |ids|
        invariant Valid()
        invariant forall b :: b in m <==> exists j :: 0 <= j < i && ids[j] == b
        invariant forall b :: b in m ==> source.Copies(b) && Created(source, pm, m, boms, b)
        invariant forall t :: t in old(boms) && !InImage(m, t) ==> t in boms && boms[t] == old(boms)[t]
        invariant forall t :: t in boms ==> t in old(boms) || InImage(m, t)
      {
        var b := ids[i];
        var product := pm[source.boms[b].product.value];
        ghost var before, was := boms, m;
        var target := UpsertBill(product, source.boms[b]);
        if target.None? {
          return Err("two target bills with one product and version");
        }
        m := m[b := target.value];
        CreatedOneMore(source, pm, was, before, m, boms, b, target.value);
      }
      return Ok(m);
    }

    /** The lines of one bill: first created without links, then linked. */
    static method CreateLines(components: seq<Component>, pm: map<nat, nat>, m: map<nat, nat>)
        returns (lines: seq<Component>)
      ensures lines == CopyLines(components, pm, m)
    {
      lines := [];
      for i := 0 to |components|
        invariant |lines| == i
        invariant forall j :: 0 <= j < i ==> lines[j] == CopyOf(components[j], pm, m).(subBom := None)
      {
        lines := lines + [components[i].(product := Lookup(pm, components[i].product), subBom := None)];
      }
      for i := 0 to |components|
        invariant |lines| == |components|
        invariant forall j :: 0 <= j < i ==> lines[j] == CopyOf(components[j], pm, m)
        invariant forall j :: i <= j < |components| ==> lines[j] == CopyOf(components[j], pm, m).(subBom := None)
      {
        if Lookup(m, components[i].subBom).Some? {
          lines := lines[i := lines[i].(subBom := Lookup(m, components[i].subBom))];
        }
      }
    }

    /** Second pass for one bill: its parent, then its lines. */
    method FillBill(bill: BillOfMaterial, t: nat, pm: map<nat, nat>, m: map<nat, nat>)
      requires Valid() && t in boms && forall x :: x in m ==> m[x] in boms
      modifies this`boms
      ensures Valid()
      ensures boms == old(boms)[t := old(boms)[t].(parent := Lookup(m, bill.parent),
                                                   components := old(boms)[t].components
                                                     + CopyLines(bill.components, pm, m))]
    {
      var lines := CreateLines(bill.components, pm, m);
      boms := boms[t := boms[t].(parent := Lookup(m, bill.parent), components := boms[t].components + lines)];
    }

    /** Second pass: every source bill's lines go to its target. */
    method FillBills(source: Source, ids: seq<nat>, pm: map<nat, nat>, m: map<nat, nat>)
      requires Valid() && (forall i :: 0 <= i < |ids| ==> ids[i] in source.boms && ids[i] in m)
        && forall x :: x in m ==> m[x] in boms
      modifies this`boms
      ensures Valid() && AllFilled(source, ids, |ids|, pm, m, old(boms), boms)
    {
      for k := 0 to |ids|
        invariant Valid() && AllFilled(source, ids, k, pm, m, old(boms), boms)
      {
        ghost var before := boms;
        FillBill(source.boms[ids[k]], m[ids[k]], pm, m);
        AllFilledOneMore(source, ids, k, pm, m, old(boms), before, boms);
      }
    }

    /** Last pass: quantity and unit once more, in source order. */
    method FinishBills(source: Source, ids: seq<nat>, m: map<nat, nat>)
      requires Valid() && (forall i :: 0 <= i < |ids| ==> ids[i] in source.boms && ids[i] in m)
        && forall x :: x in m ==> m[x] in boms
      modifies this`boms
      ensures Valid() && boms.Keys == old(boms).Keys
      ensures forall t :: t in boms ==> Finished(source, ids, |ids|, m, t, old(boms)[t], boms[t])
    {
      for k := 0 to |ids|
        invariant Valid() && boms.Keys == old(boms).Keys
        invariant forall t :: t in boms ==> Finished(source, ids, k, m, t, old(boms)[t], boms[t])
      {
        var t, bill := m[ids[k]], source.boms[ids[k]];
        ghost var before := boms;
        boms := boms[t := boms[t].(baseQuantity := bill.baseQuantity, uom := bill.uom)];
        FinishedOneMore(source, ids, k, m, old(boms), before, boms);
      }
    }

    /** The whole copy; an error leaves the database as it was. */
    method CopyEnvironmentSetup(source: Source, productIds: seq<nat>, ids: seq<nat>)
        returns (r: Result<map<nat, nat>>, ghost pm: map<nat, nat>)
      requires Valid() && Closed(source.boms)
      requires Enumerates(productIds, source.products.Keys)
        && Enumerates(ids, set b | b in source.boms && source.Copies(b))
      modifies this
      ensures Valid()
      ensures r.Err? ==> products == old(products) && boms == old(boms)
      ensures r.Ok? ==> Copied(source, ids, pm, r.value, products, boms)
      ensures r.Ok? ==> forall t :: t in old(boms) && !InImage(r.value, t) ==> t in boms && boms[t] == old(boms)[t]
      ensures r.Ok? ==> forall t :: t in boms ==> t in old(boms) || InImage(r.value, t)
    {
      var savedProducts, savedBoms, savedNext, savedNextBom := products, boms, nextProduct, nextBom;
      var copied := CopyProducts(source.products, productIds);
      pm := copied;
      r := CreateBills(source, ids, copied);
      if r.Err? {
        products, boms, nextProduct, nextBom := savedProducts, savedBoms, savedNext, savedNextBom;
        return;
      }
      var m := r.value;
      ghost var created := boms;
      assert forall x :: x in m ==> Created(source, pm, m, boms, x);
      FillBills(source, ids, copied, m);
      ghost var filled := boms;
      FinishBills(source, ids, m);
      PassesAreACopy(source, ids, pm, m, products, created, filled, boms);
    }
  }

  /** Bill `t` is the one `update_or_create` looks for. */
  predicate HasKey(boms: Graph, t: nat, product: nat, version: string)
    requires t in boms
  {
    boms[t].product == Some(product) && boms[t].version == version
  }

  function EmptyBill(product: nat, b: BillOfMaterial): BillOfMaterial {
    BillOfMaterial(Some(product), b.version, b.baseQuantity, b.uom, None, [])
  }

  ghost predicate InImage(m: map<nat, nat>, t: nat) {
    exists b :: b in m && m[b] == t
  }

  /** Source bill `b` has its empty target bill under the copied product and the same version. */
  ghost predicate Created(source: Source, pm: map<nat, nat>, m: map<nat, nat>, boms: Graph, b: nat) {
    && b in m && m[b] in boms && source.Copies(b) && source.boms[b].product.value in pm
    && HasKey(boms, m[b], pm[source.boms[b].product.value], source.boms[b].version)
    && boms[m[b]].components == []
  }

  lemma CreatedOneMore(source: Source, pm: map<nat, nat>, was: map<nat, nat>, before: Graph, m: map<nat, nat>,
                       boms: Graph, b: nat, t: nat)
    requires source.Copies(b) && source.boms[b].product.value in pm && m == was[b := t] && b !in was
    requires t in before ==> HasKey(before, t, pm[source.boms[b].product.value], source.boms[b].version)
    requires boms == before[t := EmptyBill(pm[source.boms[b].product.value], source.boms[b])]
    requires forall x :: x in was ==> Created(source, pm, was, before, x)
    ensures forall x :: x in m ==> Created(source, pm, m, boms, x)
    ensures forall u :: InImage(m, u) <==> InImage(was, u) || u == t
  {
    forall x | x in m
      ensures Created(source, pm, m, boms, x)
    {
      if x != b {
        assert Created(source, pm, was, before, x);
      }
    }
    forall u | true
      ensures InImage(m, u) <==> InImage(was, u) || u == t
    {
      if InImage(was, u) {
        var x :| x in was && was[x] == u;
        assert x in m && m[x] == u;
      }
      if u == t {
        assert b in m && m[b] == u;
      }
    }
  }

  ghost predicate Filled(source: Source, ids: seq<nat>, k: nat, pm: map<nat, nat>, m: map<nat, nat>, t: nat,
                         was: BillOfMaterial, now: BillOfMaterial)
    requires k <= |ids| && forall i :: 0 <= i < |ids| ==> ids[i] in source.boms && ids[i] in m
  {
    var last := LastSource(ids, k, m, t);
    && now == was.(parent := now.parent, components := now.components)
    && now.parent == (if last.Some? then Lookup(m, source.boms[last.value].parent) else was.parent)
    && now.components == was.components + LinesFor(source.boms, ids, k, pm, m, t)
  }

  ghost predicate AllFilled(source: Source, ids: seq<nat>, k: nat, pm: map<nat, nat>, m: map<nat, nat>, was: Graph,
                            now: Graph)
    requires k <= |ids| && forall i :: 0 <= i < |ids| ==> ids[i] in source.boms && ids[i] in m
  {
    was.Keys == now.Keys && forall t :: t in now ==> Filled(source, ids, k, pm, m, t, was[t], now[t])
  }

  lemma AllFilledOneMore(source: Source, ids: seq<nat>, k: nat, pm: map<nat, nat>, m: map<nat, nat>, was: Graph,
                         mid: Graph, now: Graph)
    requires k < |ids| && forall i :: 0 <= i < |ids| ==> ids[i] in source.boms && ids[i] in m
    requires AllFilled(source, ids, k, pm, m, was, mid) && m[ids[k]] in mid
    requires var bill, t := source.boms[ids[k]], m[ids[k]];
      now == mid[t := mid[t].(parent := Lookup(m, bill.parent),
                              components := mid[t].components + CopyLines(bill.components, pm, m))]
    ensures AllFilled(source, ids, k + 1, pm, m, was, now)
  {
    forall t | t in now
      ensures Filled(source, ids, k + 1, pm, m, t, was[t], now[t])
    {
      FilledOneMore(source, ids, k, pm, m, t, was[t], mid[t], now[t]);
    }
  }

  lemma FilledOneMore(source: Source, ids: seq<nat>, k: nat, pm: map<nat, nat>, m: map<nat, nat>, t: nat,
                      was: BillOfMaterial, mid: BillOfMaterial, now: BillOfMaterial)
    requires k < |ids| && forall i :: 0 <= i < |ids| ==> ids[i] in source.boms && ids[i] in m
    requires Filled(source, ids, k, pm, m, t, was, mid)
    requires var bill := source.boms[ids[k]];
      now == if m[ids[k]] == t
             then mid.(parent := Lookup(m, bill.parent),
                       components := mid.components + CopyLines(bill.components, pm, m))
             else mid
    ensures Filled(source, ids, k + 1, pm, m, t, was, now)
  {
  }

  ghost predicate Finished(source: Source, ids: seq<nat>, k: nat, m: map<nat, nat>, t: nat, was: BillOfMaterial,
                           now: BillOfMaterial)
    requires k <= |ids| && forall i :: 0 <= i < |ids| ==> ids[i] in source.boms && ids[i] in m
  {
    var last := LastSource(ids, k, m, t);
    && now == was.(baseQuantity := now.baseQuantity, uom := now.uom)
    && now.baseQuantity == (if last.Some? then source.boms[last.value].baseQuantity else was.baseQuantity)
    && now.uom == (if last.Some? then source.boms[last.value].uom else was.uom)
  }

  lemma FinishedOneMore(source: Source, ids: seq<nat>, k: nat, m: map<nat, nat>, was: Graph, before: Graph, now: Graph)
    requires k < |ids| && (forall i :: 0 <= i < |ids| ==> ids[i] in source.boms && ids[i] in m)
      && before.Keys == was.Keys
    requires forall t :: t in was ==> Finished(source, ids, k, m, t, was[t], before[t])
    requires var t, bill := m[ids[k]], source.boms[ids[k]];
      t in before && now == before[t := before[t].(baseQuantity := bill.baseQuantity, uom := bill.uom)]
    ensures now.Keys == was.Keys && forall t :: t in was ==> Finished(source, ids, k + 1, m, t, was[t], now[t])
  {
    forall t | t in was
      ensures Finished(source, ids, k + 1, m, t, was[t], now[t])
    {
      assert Finished(source, ids, k, m, t, was[t], before[t]);
    }
  }

  /**
   * What the copy leaves in the target for source bill `b`, whatever the keys: possibly lines of several source bills.
   */
  ghost predicate CopiedBill(source: Source, ids: seq<nat>, pm: map<nat, nat>, m: map<nat, nat>, boms: Graph, b: nat)
    requires forall i :: 0 <= i < |ids| ==> ids[i] in source.boms && ids[i] in m
    requires b in source.boms && b in m && m[b] in boms && source.Copies(b) && source.boms[b].product.value in pm
  {
    var t := m[b];
    var last := LastSource(ids, |ids|, m, t);
    && HasKey(boms, t, pm[source.boms[b].product.value], source.boms[b].version)
    && boms[t].components == LinesFor(source.boms, ids, |ids|, pm, m, t)
    && last.Some?
    && boms[t].baseQuantity == source.boms[last.value].baseQuantity && boms[t].uom == source.boms[last.value].uom
    && boms[t].parent == Lookup(m, source.boms[last.value].parent)
  }

  ghost predicate Copied(source: Source, ids: seq<nat>, pm: map<nat, nat>, m: map<nat, nat>,
                         products: map<nat, string>, boms: Graph) {
    && pm.Keys == source.products.Keys
    && (forall p :: p in pm ==> pm[p] in products && products[pm[p]] == source.products[p])
    && Enumerates(ids, m.Keys)
    && (forall b :: b in m <==> b in source.boms && source.Copies(b))
    && (forall b :: b in m ==> m[b] in boms)
    && forall b :: b in m ==> CopiedBill(source, ids, pm, m, boms, b)
  }

  lemma PassesAreACopy(source: Source, ids: seq<nat>, pm: map<nat, nat>, m: map<nat, nat>, products: map<nat, string>,
                       created: Graph, filled: Graph, boms: Graph)
    requires pm.Keys == source.products.Keys && forall p :: p in pm ==>
      pm[p] in products && products[pm[p]] == source.products[p]
    requires Enumerates(ids, m.Keys) && forall b :: b in m <==> b in source.boms && source.Copies(b)
    requires created.Keys == filled.Keys == boms.Keys
    requires forall b :: b in m ==> Created(source, pm, m, created, b)
    requires AllFilled(source, ids, |ids|, pm, m, created, filled)
    requires forall t :: t in boms ==> Finished(source, ids, |ids|, m, t, filled[t], boms[t])
    ensures Copied(source, ids, pm, m, products, boms)
    ensures forall t :: t in boms && !InImage(m, t) ==> boms[t] == created[t]
  {
    forall b | b in m
      ensures m[b] in boms && CopiedBill(source, ids, pm, m, boms, b)
    {
      var t := m[b];
      assert Created(source, pm, m, created, b);
      assert Filled(source, ids, |ids|, pm, m, t, created[t], filled[t])
        && Finished(source, ids, |ids|, m, t, filled[t], boms[t]);
      assert b in ids;
    }
    forall t | t in boms && !InImage(m, t)
      ensures boms[t] == created[t]
    {
      assert Filled(source, ids, |ids|, pm, m, t, created[t], filled[t])
        && Finished(source, ids, |ids|, m, t, filled[t], boms[t]);
      NoLinesForOthers(source.boms, ids, |ids|, pm, m, t);
    }
  }

  lemma {:induction false} NoLinesForOthers(g: Graph, ids: seq<nat>, n: nat, products: map<nat, nat>,
                                            bills: map<nat, nat>, t: nat)
    requires n <= |ids| && forall i :: 0 <= i < |ids| ==> ids[i] in g && ids[i] in bills
    requires !InImage(bills, t)
    ensures LinesFor(g, ids, n, products, bills, t) == [] && LastSource(ids, n, bills, t).None?
  {
    if n > 0 {
      NoLinesForOthers(g, ids, n - 1, products, bills, t);
    }
  }
}
