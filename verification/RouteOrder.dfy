/** Ordered selections of rows: by a key first, by id among equal keys. */
module RouteOrder {
  import opened Common
  import opened Board

  /** By key, then by id. */
  predicate Precedes(keys: seq<int>, x: nat, y: nat)
    requires x < |keys| && y < |keys|
  {
    keys[x] < keys[y] || (keys[x] == keys[y] && x < y)
  }

  ghost predicate InOrder(keys: seq<int>, ids: seq<nat>) {
    && (forall i :: 0 <= i < |ids| ==> ids[i] < |keys|)
    && forall i, j :: 0 <= i < j < |ids| ==> Precedes(keys, ids[i], ids[j])
  }

  /** Put a new id, larger than all others, behind the ids whose key is not larger. */
  function InsertId(keys: seq<int>, ids: seq<nat>, id: nat): (r: seq<nat>)
    requires id < |keys| && forall i :: 0 <= i < |ids| ==> ids[i] < |keys|
    ensures forall i :: 0 <= i < |r| ==> r[i] < |keys|
  {
    if ids == [] then [id]
    else if keys[id] < keys[ids[|ids| - 1]] then InsertId(keys, ids[..|ids| - 1], id) + [ids[|ids| - 1]]
    else ids + [id]
  }

  lemma {:induction false} InsertIdMembers(keys: seq<int>, ids: seq<nat>, id: nat, x: nat)
    requires id < |keys| && forall i :: 0 <= i < |ids| ==> ids[i] < |keys|
    ensures x in InsertId(keys, ids, id) <==> x == id || x in ids
  {
    if ids != [] && keys[id] < keys[ids[|ids| - 1]] {
      InsertIdMembers(keys, ids[..|ids| - 1], id, x);
      assert ids == ids[..|ids| - 1] + [ids[|ids| - 1]];
    }
  }

  lemma AppendInOrder(keys: seq<int>, r: seq<nat>, last: nat)
    requires InOrder(keys, r) && last < |keys| && forall i :: 0 <= i < |r| ==> Precedes(keys, r[i], last)
    ensures InOrder(keys, r + [last])
  {
  }

  lemma {:induction false} InsertIdInOrder(keys: seq<int>, ids: seq<nat>, id: nat)
    requires InOrder(keys, ids) && id < |keys| && forall i :: 0 <= i < |ids| ==> ids[i] < id
    ensures InOrder(keys, InsertId(keys, ids, id))
  {
    if ids == [] {
    } else if keys[id] < keys[ids[|ids| - 1]] {
      var front, last := ids[..|ids| - 1], ids[|ids| - 1];
      InsertIdInOrder(keys, front, id);
      var r := InsertId(keys, front, id);
      forall i | 0 <= i < |r|
        ensures Precedes(keys, r[i], last)
      {
        assert r[i] in r;
        InsertIdMembers(keys, front, id, r[i]);
        if r[i] != id {
          var j :| 0 <= j < |front| && front[j] == r[i];
          assert Precedes(keys, ids[j], ids[|ids| - 1]);
        }
      }
      AppendInOrder(keys, r, last);
    } else {
      forall i | 0 <= i < |ids|
        ensures Precedes(keys, ids[i], id)
      {
        assert i < |ids| - 1 ==> Precedes(keys, ids[i], ids[|ids| - 1]);
      }
      AppendInOrder(keys, ids, id);
    }
  }

  /** The ids below `n` that are kept, in order. */
  function Ordered(keys: seq<int>, keep: seq<bool>, n: nat): (ids: seq<nat>)
    requires n <= |keys| == |keep|
    ensures forall i :: 0 <= i < |ids| ==> ids[i] < |keys|
  {
    if n == 0 then []
    else
      var ids := Ordered(keys, keep, n - 1);
      if keep[n - 1] then InsertId(keys, ids, n - 1) else ids
  }

  lemma {:induction false} OrderedMembers(keys: seq<int>, keep: seq<bool>, n: nat, x: nat)
    requires n <= |keys| == |keep|
    ensures x in Ordered(keys, keep, n) <==> x < n && keep[x]
  {
    if n > 0 {
      OrderedMembers(keys, keep, n - 1, x);
      if keep[n - 1] {
        InsertIdMembers(keys, Ordered(keys, keep, n - 1), n - 1, x);
      }
    }
  }

  lemma {:induction false} OrderedInOrder(keys: seq<int>, keep: seq<bool>, n: nat)
    requires n <= |keys| == |keep|
    ensures InOrder(keys, Ordered(keys, keep, n))
  {
    if n > 0 {
      OrderedInOrder(keys, keep, n - 1);
      var ids := Ordered(keys, keep, n - 1);
      if keep[n - 1] {
        forall i | 0 <= i < |ids|
          ensures ids[i] < n - 1
        {
          OrderedMembers(keys, keep, n - 1, ids[i]);
        }
        InsertIdInOrder(keys, ids, n - 1);
      }
    }
  }

  /** The kept ids, each once, in order of their keys. */
  lemma OrderedIsRight(keys: seq<int>, keep: seq<bool>)
    requires |keys| == |keep|
    ensures InOrder(keys, Ordered(keys, keep, |keys|))
    ensures forall x: nat :: x in Ordered(keys, keep, |keys|) <==> x < |keys| && keep[x]
  {
    OrderedInOrder(keys, keep, |keys|);
    forall x: nat | true
      ensures x in Ordered(keys, keep, |keys|) <==> x < |keys| && keep[x]
    {
      OrderedMembers(keys, keep, |keys|, x);
    }
  }

  lemma OrderIsInjective(keys: seq<int>, ids: seq<nat>)
    requires InOrder(keys, ids)
    ensures forall i, j :: 0 <= i < j < |ids| ==> ids[i] != ids[j] && keys[ids[i]] <= keys[ids[j]]
  {
    assert forall i, j :: 0 <= i < j < |ids| ==> Precedes(keys, ids[i], ids[j]);
  }

  /** The position of `id` in the list, if it is there. */
  function IndexOf(ids: seq<nat>, id: nat): (r: Option<nat>)
    ensures r.Some? ==> r.value < |ids| && ids[r.value] == id
    ensures r.None? ==> id !in ids
  {
    if ids == [] then None
    else if ids[0] == id then Some(0)
    else
      var i := IndexOf(ids[1..], id);
      if i.None? then None else Some(i.value + 1)
  }

  // ---- the stage tasks of a parent ----

  const UNROUTED := 1000000

  /** Position of a stage in the routing; stages outside it come last. */
  function StageKey(stageOrder: map<nat, nat>, r: Row): nat {
    if r.stage.Some? && r.stage.value in stageOrder then stageOrder[r.stage.value] else UNROUTED
  }

  predicate IsOpenChild(r: Row, parent: nat) {
    r.parent == Some(parent) && r.status != Canceled && r.status != Archived
  }

  /** The open children of `parent` in route order. */
  function OrderedSubtasks(rows: seq<Row>, parent: nat, stageOrder: map<nat, nat>): (ids: seq<nat>)
    ensures forall i: nat :: i in ids <==> (i < |rows| && IsOpenChild(rows[i], parent))
    ensures forall i :: 0 <= i < |ids| ==> ids[i] < |rows|
    ensures forall i, j :: 0 <= i < j < |ids| ==>
      ids[i] != ids[j] && StageKey(stageOrder, rows[ids[i]]) <= StageKey(stageOrder, rows[ids[j]])
  {
    var keys := seq(|rows|, i requires 0 <= i < |rows| => StageKey(stageOrder, rows[i]) as int);
    var keep := seq(|rows|, i requires 0 <= i < |rows| => IsOpenChild(rows[i], parent));
    OrderedIsRight(keys, keep);
    OrderIsInjective(keys, Ordered(keys, keep, |keys|));
    Ordered(keys, keep, |keys|)
  }

  /** Route order depends only on parents, stages and statuses, not on dates. */
  lemma DatesDoNotChangeOrder(rows: seq<Row>, next: seq<Row>, parent: nat, stageOrder: map<nat, nat>)
    requires |rows| == |next|
    requires forall i :: 0 <= i < |rows| ==> next[i] == rows[i].(start := next[i].start, end := next[i].end)
    ensures OrderedSubtasks(next, parent, stageOrder) == OrderedSubtasks(rows, parent, stageOrder)
  {
    assert seq(|rows|, i requires 0 <= i < |rows| => StageKey(stageOrder, rows[i]) as int)
        == seq(|next|, i requires 0 <= i < |next| => StageKey(stageOrder, next[i]) as int);
    assert seq(|rows|, i requires 0 <= i < |rows| => IsOpenChild(rows[i], parent))
        == seq(|next|, i requires 0 <= i < |next| => IsOpenChild(next[i], parent));
  }
}
