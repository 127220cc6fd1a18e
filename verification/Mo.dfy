/** Compiling a catalogue to the binary MO layout (GNU gettext manual, section 10.3), and reading it back. */
module Mo {
  import opened Common
  import opened Utf8

  const MAGIC := 0x950412DE
  const LIMIT := 0x8000_0000

  // ---- sorted keys ----

  ghost predicate Increasing(keys: seq<string>) {
    forall i, j :: 0 <= i < j < |keys| ==> Before(keys[i], keys[j])
  }

  /** `keys` lists the keys of the catalogue in the order of their code points. */
  ghost predicate IsSorted(keys: seq<string>, entries: map<string, string>) {
    Increasing(keys) && forall k :: k in entries <==> k in keys
  }

  /** Put a new key into its place. */
  function Insert(keys: seq<string>, key: string): (r: seq<string>)
    ensures |r| == |keys| + 1 && multiset(r) == multiset(keys) + multiset{key}
  {
    if keys == [] then [key]
    else if Before(key, keys[0]) then [key] + keys
    else
      assert keys == [keys[0]] + keys[1..];
      [keys[0]] + Insert(keys[1..], key)
  }

  lemma {:induction false} InsertKeepsIncreasing(keys: seq<string>, key: string)
    requires Increasing(keys) && key !in keys
    ensures Increasing(Insert(keys, key))
    ensures forall k :: k in Insert(keys, key) <==> k == key || k in keys
  {
    if keys == [] {
    } else if Before(key, keys[0]) {
      forall j | 0 <= j < |keys|
        ensures Before(key, keys[j])
      {
        if j > 0 {
          BeforeIsTransitive(key, keys[0], keys[j]);
        }
      }
    } else {
      BeforeIsTotal(key, keys[0]);
      InsertKeepsIncreasing(keys[1..], key);
      var rest := Insert(keys[1..], key);
      forall j | 0 <= j < |rest|
        ensures Before(keys[0], rest[j])
      {
        assert rest[j] in rest;
        if rest[j] != key {
          var i :| 0 <= i < |keys[1..]| && keys[1..][i] == rest[j];
          assert Before(keys[0], keys[i + 1]);
        }
      }
      assert keys == [keys[0]] + keys[1..];
    }
  }

  method SortedKeys(entries: map<string, string>) returns (keys: seq<string>)
    ensures IsSorted(keys, entries)
  {
    keys := [];
    var rest := entries.Keys;
    while rest != {}
      invariant Increasing(keys) && rest <= entries.Keys
      invariant forall k :: k in entries <==> k in keys || k in rest
      invariant forall k :: k in rest ==> k !in keys
      decreases |rest|
    {
      var k :| k in rest;
      InsertKeepsIncreasing(keys, k);
      keys := Insert(keys, k);
      rest := rest - {k};
    }
  }

  // ---- numbers ----

  /** A 32-bit number, least significant byte first. */
  function Pack(n: int): (r: seq<Byte>)
    ensures |r| == 4
  {
    [n % 256, n / 256 % 256, n / 256 / 256 % 256, n / 256 / 256 / 256 % 256]
  }

  function NumberAt(f: seq<Byte>, at: nat): nat
    requires at + 4 <= |f|
  {
    f[at] as int + 256 * (f[at + 1] as int + 256 * (f[at + 2] as int + 256 * f[at + 3] as int))
  }

  lemma PackedNumber(f: seq<Byte>, at: nat, n: nat)
    requires at + 4 <= |f| && f[at..at + 4] == Pack(n) && n < 0x1_0000_0000
    ensures NumberAt(f, at) == n
  {
    var p := f[at..at + 4];
    assert p[0] == f[at] && p[1] == f[at + 1] && p[2] == f[at + 2] && p[3] == f[at + 3];
  }

  // ---- layout ----

  function Encoded(keys: seq<string>): (r: seq<seq<Byte>>)
    ensures |r| == |keys| && forall i :: 0 <= i < |keys| ==> r[i] == Encode(keys[i])
  {
    seq(|keys|, i requires 0 <= i < |keys| => Encode(keys[i]))
  }

  function Values(keys: seq<string>, entries: map<string, string>): (r: seq<seq<Byte>>)
    requires forall i :: 0 <= i < |keys| ==> keys[i] in entries
    ensures |r| == |keys| && forall i :: 0 <= i < |keys| ==> r[i] == Encode(entries[keys[i]])
  {
    seq(|keys|, i requires 0 <= i < |keys| => Encode(entries[keys[i]]))
  }

  /** Where item `i` starts when the items follow each other from `base` on, each with its NUL. */
  function Start(items: seq<seq<Byte>>, base: nat, i: nat): (r: nat)
    requires i <= |items|
    ensures base <= r
  {
    if i == 0 then base else Start(items, base, i - 1) + |items[i - 1]| + 1
  }

  /** The first `n` items, each with its NUL. */
  function Blob(items: seq<seq<Byte>>, n: nat): (r: seq<Byte>)
    requires n <= |items|
    ensures |r| == Start(items, 0, n)
  {
    if n == 0 then [] else Blob(items, n - 1) + items[n - 1] + [0]
  }

  /** The first `n` rows of an index table. */
  function Table(items: seq<seq<Byte>>, base: nat, n: nat): (r: seq<Byte>)
    requires n <= |items|
    ensures |r| == 8 * n
  {
    if n == 0 then [] else Table(items, base, n - 1) + Pack(|items[n - 1]|) + Pack(Start(items, base, n - 1))
  }

  function Header(count: nat): (r: seq<Byte>)
    ensures |r| == 28
  {
    Pack(MAGIC) + Pack(0) + Pack(count) + Pack(28) + Pack(28 + count * 8) + Pack(0) + Pack(0)
  }

  function KeysBase(count: nat): nat {
    28 + count * 16
  }

  /** The whole file. */
  function Layout(ids: seq<seq<Byte>>, values: seq<seq<Byte>>): seq<Byte>
    requires |ids| == |values|
  {
    var base := KeysBase(|ids|);
    Header(|ids|) + Table(ids, base, |ids|) + Table(values, Start(ids, base, |ids|), |ids|) + Blob(ids, |ids|)
      + Blob(values, |ids|)
  }

  /** All lengths and offsets can be packed as signed 32-bit numbers: the last value's are the largest. */
  predicate Fits(ids: seq<seq<Byte>>, values: seq<seq<Byte>>)
    requires |ids| == |values|
  {
    var n := |ids|;
    n > 0 ==>
      Start(values, Start(ids, KeysBase(n), n), n - 1) < LIMIT && |values[n - 1]| < LIMIT
  }

  lemma {:induction false} StartIncreases(items: seq<seq<Byte>>, base: nat, i: nat, j: nat)
    requires i < j <= |items|
    ensures Start(items, base, i) + |items[i]| < Start(items, base, j)
    decreases j
  {
    if i < j - 1 {
      StartIncreases(items, base, i, j - 1);
    }
  }

  lemma {:induction false} StartShifts(items: seq<seq<Byte>>, base: nat, i: nat)
    requires i <= |items|
    ensures Start(items, base, i) == base + Start(items, 0, i)
  {
    if i > 0 {
      StartShifts(items, base, i - 1);
    }
  }

  lemma {:induction false} BlobAt(items: seq<seq<Byte>>, n: nat, i: nat)
    requires i < n <= |items|
    ensures Start(items, 0, i) + |items[i]| < |Blob(items, n)|
    ensures Blob(items, n)[Start(items, 0, i)..Start(items, 0, i) + |items[i]|] == items[i]
    ensures Blob(items, n)[Start(items, 0, i) + |items[i]|] == 0
    decreases n
  {
    StartIncreases(items, 0, i, n);
    if i < n - 1 {
      BlobAt(items, n - 1, i);
    }
  }

  lemma {:induction false} TableAt(items: seq<seq<Byte>>, base: nat, n: nat, i: nat)
    requires i < n <= |items|
    ensures Table(items, base, n)[8 * i..8 * i + 4] == Pack(|items[i]|)
    ensures Table(items, base, n)[8 * i + 4..8 * i + 8] == Pack(Start(items, base, i))
    decreases n
  {
    if i < n - 1 {
      TableAt(items, base, n - 1, i);
      var t := Table(items, base, n - 1);
      assert Table(items, base, n)[8 * i..8 * i + 4] == t[8 * i..8 * i + 4];
      assert Table(items, base, n)[8 * i + 4..8 * i + 8] == t[8 * i + 4..8 * i + 8];
    }
  }

  // ---- the reader ----

  /** A string table entry: the string that the row at `row` describes, if its bytes lie in the file. */
  function StringAt(f: seq<Byte>, row: nat): Option<seq<Byte>>
    requires row + 8 <= |f|
  {
    var length, offset := NumberAt(f, row), NumberAt(f, row + 4);
    if offset + length <= |f| then Some(f[offset..offset + length]) else None
  }

  /** Row `row` of a table describes `item`, which is followed by a NUL. */
  ghost predicate Describes(f: seq<Byte>, row: nat, item: seq<Byte>, at: nat) {
    && row + 8 <= |f| && NumberAt(f, row) == |item| && NumberAt(f, row + 4) == at
    && at + |item| < |f| && f[at..at + |item|] == item && f[at + |item|] == 0
  }

  /** `f` holds `part` at position `at`. */
  ghost predicate Holds(f: seq<Byte>, at: nat, part: seq<Byte>) {
    at + |part| <= |f| && forall k :: 0 <= k < |part| ==> f[at + k] == part[k]
  }

  lemma HoldsWithin(f: seq<Byte>, at: nat, part: seq<Byte>, i: nat, j: nat)
    requires Holds(f, at, part) && i <= j <= |part|
    ensures at + j <= |f| && f[at + i..at + j] == part[i..j]
  {
    forall k | 0 <= k < j - i
      ensures f[at + i..at + j][k] == part[i..j][k]
    {
      assert f[at + (i + k)] == part[i + k];
    }
  }

  lemma NumberHeld(f: seq<Byte>, at: nat, part: seq<Byte>, i: nat, n: nat)
    requires Holds(f, at, part) && i + 4 <= |part| && part[i..i + 4] == Pack(n) && n < 0x1_0000_0000
    ensures at + i + 4 <= |f| && NumberAt(f, at + i) == n
  {
    HoldsWithin(f, at, part, i, i + 4);
    PackedNumber(f, at + i, n);
  }

  lemma RowNumbers(f: seq<Byte>, items: seq<seq<Byte>>, table: nat, base: nat, i: nat)
    requires i < |items| && Holds(f, table, Table(items, base, |items|))
    requires |items[i]| < LIMIT && Start(items, base, i) < LIMIT
    ensures table + 8 * i + 8 <= |f|
    ensures NumberAt(f, table + 8 * i) == |items[i]| && NumberAt(f, table + 8 * i + 4) == Start(items, base, i)
  {
    TableAt(items, base, |items|, i);
    NumberHeld(f, table, Table(items, base, |items|), 8 * i, |items[i]|);
    NumberHeld(f, table, Table(items, base, |items|), 8 * i + 4, Start(items, base, i));
  }

  lemma ItemHeld(f: seq<Byte>, items: seq<seq<Byte>>, base: nat, i: nat)
    requires Holds(f, base, Blob(items, |items|)) && i < |items|
    ensures var at := Start(items, base, i);
      at + |items[i]| < |f| && f[at..at + |items[i]|] == items[i] && f[at + |items[i]|] == 0
  {
    var b, at, length := Blob(items, |items|), Start(items, 0, i), |items[i]|;
    BlobAt(items, |items|, i);
    StartShifts(items, base, i);
    HoldsWithin(f, base, b, at, at + length);
    assert f[base + (at + length)] == b[at + length];
  }

  lemma RowDescribes(f: seq<Byte>, items: seq<seq<Byte>>, table: nat, base: nat, i: nat)
    requires Holds(f, table, Table(items, base, |items|)) && Holds(f, base, Blob(items, |items|)) && i < |items|
    requires |items[i]| < LIMIT && Start(items, base, i) < LIMIT
    ensures Describes(f, table + 8 * i, items[i], Start(items, base, i))
  {
    RowNumbers(f, items, table, base, i);
    ItemHeld(f, items, base, i);
  }

  lemma FiveParts(h: seq<Byte>, t: seq<Byte>, u: seq<Byte>, b: seq<Byte>, c: seq<Byte>)
    ensures var f := h + t + u + b + c;
      && Holds(f, 0, h) && Holds(f, |h|, t) && Holds(f, |h| + |t|, u) && Holds(f, |h| + |t| + |u|, b)
        && Holds(f, |h| + |t| + |u| + |b|, c)
  {
  }

  lemma LayoutHolds(ids: seq<seq<Byte>>, values: seq<seq<Byte>>)
    requires |ids| == |values|
    ensures var f, n := Layout(ids, values), |ids|;
      var base := KeysBase(n);
      && Holds(f, 0, Header(n)) && Holds(f, 28, Table(ids, base, n))
        && Holds(f, 28 + 8 * n, Table(values, Start(ids, base, n), n))
      && Holds(f, base, Blob(ids, n)) && Holds(f, Start(ids, base, n), Blob(values, n))
        && |f| == Start(values, Start(ids, base, n), n)
  {
    var n := |ids|;
    var base := KeysBase(n);
    StartShifts(ids, base, n);
    StartShifts(values, Start(ids, base, n), n);
    FiveParts(Header(n), Table(ids, base, n), Table(values, Start(ids, base, n), n), Blob(ids, n), Blob(values, n));
  }

  lemma FitsAll(ids: seq<seq<Byte>>, values: seq<seq<Byte>>, i: nat)
    requires |ids| == |values| && i < |ids|
    ensures var n := |ids|;
      var base := KeysBase(n);
      Fits(ids, values) ==> (|ids[i]| < LIMIT && Start(ids, base, i) < LIMIT && |values[i]| < LIMIT
        && Start(values, Start(ids, base, n), i) < LIMIT
                            && 28 + 8 * n < LIMIT)
  {
    var n := |ids|;
    var base := KeysBase(n);
    StartIncreases(ids, base, i, n);
    if i < n - 1 {
      StartIncreases(values, Start(ids, base, n), i, n - 1);
    }
  }

  lemma HeaderNumbers(f: seq<Byte>, n: nat)
    requires Holds(f, 0, Header(n)) && 28 + 8 * n < LIMIT
    ensures HasHeader(f, n)
  {
    var h := Header(n);
    assert h[0..4] == Pack(MAGIC) && h[4..8] == Pack(0) && h[8..12] == Pack(n) && h[12..16] == Pack(28)
      && h[16..20] == Pack(28 + n * 8)
           && h[20..24] == Pack(0);
    NumberHeld(f, 0, h, 0, MAGIC);
    NumberHeld(f, 0, h, 4, 0);
    NumberHeld(f, 0, h, 8, n);
    NumberHeld(f, 0, h, 12, 28);
    NumberHeld(f, 0, h, 16, 28 + n * 8);
    NumberHeld(f, 0, h, 20, 0);
  }

  // ---- what a catalogue file is ----

  ghost predicate HasHeader(f: seq<Byte>, n: nat) {
    && 28 <= |f| && NumberAt(f, 0) == MAGIC && NumberAt(f, 4) == 0 && NumberAt(f, 8) == n
    && NumberAt(f, 12) == 28 && NumberAt(f, 16) == 28 + 8 * n && NumberAt(f, 20) == 0
  }

  ghost predicate DescribesItem(f: seq<Byte>, table: nat, items: seq<seq<Byte>>, base: nat, i: nat)
    requires i < |items|
  {
    Describes(f, table + 8 * i, items[i], Start(items, base, i))
  }

  /** The table describes the items, which follow each other from `base` on. */
  ghost predicate TableDescribes(f: seq<Byte>, table: nat, items: seq<seq<Byte>>, base: nat) {
    forall i :: 0 <= i < |items| ==> DescribesItem(f, table, items, base, i)
  }

  /** Every string has its row in the right table; the strings tile the rest of the file in order, each with its NUL. */
  ghost predicate IsIndexed(f: seq<Byte>, ids: seq<seq<Byte>>, values: seq<seq<Byte>>) {
    && HasHeader(f, |ids|) && |values| == |ids|
    && TableDescribes(f, 28, ids, KeysBase(|ids|))
    && TableDescribes(f, 28 + 8 * |ids|, values, Start(ids, KeysBase(|ids|), |ids|))
    && |f| == Start(values, Start(ids, KeysBase(|ids|), |ids|), |ids|)
  }

  /** The table row of item `i` can be packed. */
  ghost predicate ItemFits(items: seq<seq<Byte>>, base: nat, i: nat)
    requires i < |items|
  {
    |items[i]| < LIMIT && Start(items, base, i) < LIMIT
  }

  ghost predicate TableFits(items: seq<seq<Byte>>, base: nat) {
    forall i :: 0 <= i < |items| ==> ItemFits(items, base, i)
  }

  /** `f` holds the table and the strings it describes. */
  ghost predicate HoldsTable(f: seq<Byte>, table: nat, items: seq<seq<Byte>>, base: nat) {
    Holds(f, table, Table(items, base, |items|)) && Holds(f, base, Blob(items, |items|))
  }

  lemma HeldRowDescribes(f: seq<Byte>, items: seq<seq<Byte>>, table: nat, base: nat, i: nat)
    requires i < |items|
    ensures HoldsTable(f, table, items, base) && ItemFits(items, base, i) ==> DescribesItem(f, table, items, base, i)
  {
    if HoldsTable(f, table, items, base) && ItemFits(items, base, i) {
      RowDescribes(f, items, table, base, i);
    }
  }

  lemma HeldTableDescribes(f: seq<Byte>, items: seq<seq<Byte>>, table: nat, base: nat)
    ensures HoldsTable(f, table, items, base) && TableFits(items, base) ==> TableDescribes(f, table, items, base)
  {
    forall i | 0 <= i < |items|
      ensures HoldsTable(f, table, items, base) && ItemFits(items, base, i) ==> DescribesItem(f, table, items, base, i)
    {
      HeldRowDescribes(f, items, table, base, i);
    }
  }

  lemma TablesFit(ids: seq<seq<Byte>>, values: seq<seq<Byte>>)
    requires |ids| == |values| && Fits(ids, values)
    ensures TableFits(ids, KeysBase(|ids|)) && TableFits(values, Start(ids, KeysBase(|ids|), |ids|))
    ensures 28 + 8 * |ids| < LIMIT
  {
    if |ids| > 0 {
      FitsAll(ids, values, 0);
    }
    forall i | 0 <= i < |ids|
      ensures ItemFits(ids, KeysBase(|ids|), i) && ItemFits(values, Start(ids, KeysBase(|ids|), |ids|), i)
    {
      FitsAll(ids, values, i);
    }
  }

  lemma LayoutHoldsTables(ids: seq<seq<Byte>>, values: seq<seq<Byte>>)
    requires |ids| == |values|
    ensures var f, n := Layout(ids, values), |ids|;
      && Holds(f, 0, Header(n)) && |f| == Start(values, Start(ids, KeysBase(n), n), n)
      && HoldsTable(f, 28, ids, KeysBase(n)) && HoldsTable(f, 28 + 8 * n, values, Start(ids, KeysBase(n), n))
  {
    LayoutHolds(ids, values);
  }

  lemma HeldIsIndexed(f: seq<Byte>, ids: seq<seq<Byte>>, values: seq<seq<Byte>>, base: nat, valuesBase: nat)
    requires |ids| == |values| && base == KeysBase(|ids|) && valuesBase == Start(ids, base, |ids|) && Fits(ids, values)
    ensures (&& Holds(f, 0, Header(|ids|)) && |f| == Start(values, valuesBase, |ids|)
             && HoldsTable(f, 28, ids, base) && HoldsTable(f, 28 + 8 * |ids|, values, valuesBase)) ==>
               IsIndexed(f, ids, values)
  {
    TablesFit(ids, values);
    HeldTableDescribes(f, ids, 28, base);
    HeldTableDescribes(f, values, 28 + 8 * |ids|, valuesBase);
    if Holds(f, 0, Header(|ids|)) {
      HeaderNumbers(f, |ids|);
    }
  }

  lemma LayoutIsIndexed(ids: seq<seq<Byte>>, values: seq<seq<Byte>>)
    requires |ids| == |values|
    ensures Fits(ids, values) ==> IsIndexed(Layout(ids, values), ids, values)
  {
    if Fits(ids, values) {
      LayoutHoldsTables(ids, values);
      HeldIsIndexed(Layout(ids, values), ids, values, KeysBase(|ids|), Start(ids, KeysBase(|ids|), |ids|));
    }
  }

  /** The string of row `i` of the table whose offset the header holds at `field`, as a reader finds it. */
  ghost function Read(f: seq<Byte>, field: nat, i: nat): Option<seq<Byte>> {
    if field + 4 <= |f| && NumberAt(f, field) + 8 * i + 8 <= |f| then StringAt(f, NumberAt(f, field) + 8 * i) else None
  }

  lemma {:induction false} SetOfKeys(keys: seq<string>, n: nat)
    requires Increasing(keys) && n <= |keys|
    ensures |set i | 0 <= i < n :: keys[i]| == n
  {
    var s := set i | 0 <= i < n :: keys[i];
    if n == 0 {
      assert s == {};
    } else {
      SetOfKeys(keys, n - 1);
      var t := set i | 0 <= i < n - 1 :: keys[i];
      if keys[n - 1] in t {
        BeforeIsStrict(keys[n - 1], keys[n - 1]);
      }
      assert s == t + {keys[n - 1]};
    }
  }

  lemma SortedHasAll(keys: seq<string>, entries: map<string, string>)
    requires IsSorted(keys, entries)
    ensures |keys| == |entries|
  {
    SetOfKeys(keys, |keys|);
    var s := set i | 0 <= i < |keys| :: keys[i];
    assert s == entries.Keys;
  }

  lemma DescribedString(f: seq<Byte>, row: nat, item: seq<Byte>, at: nat)
    ensures Describes(f, row, item, at) ==> row + 8 <= |f| && StringAt(f, row) == Some(item)
  {
  }

  lemma DescribedIsRead(f: seq<Byte>, field: nat, table: nat, items: seq<seq<Byte>>, base: nat, i: nat)
    requires i < |items| && field + 4 <= |f| && NumberAt(f, field) == table
    ensures TableDescribes(f, table, items, base) ==> Read(f, field, i) == Some(items[i])
  {
    if TableDescribes(f, table, items, base) {
      assert DescribesItem(f, table, items, base, i);
      DescribedString(f, table + 8 * i, items[i], Start(items, base, i));
    }
  }

  lemma ReadsRow(f: seq<Byte>, ids: seq<seq<Byte>>, values: seq<seq<Byte>>, i: nat)
    requires IsIndexed(f, ids, values) && i < |ids|
    ensures Read(f, 12, i) == Some(ids[i]) && Read(f, 16, i) == Some(values[i])
  {
    DescribedIsRead(f, 12, 28, ids, KeysBase(|ids|), i);
    DescribedIsRead(f, 16, 28 + 8 * |ids|, values, Start(ids, KeysBase(|ids|), |ids|), i);
  }

  /** Row `i` of the file holds key `k` and its value. */
  ghost predicate RowHas(f: seq<Byte>, i: nat, k: string, entries: map<string, string>) {
    k in entries && Read(f, 12, i) == Some(Encode(k)) && Read(f, 16, i) == Some(Encode(entries[k]))
  }

  lemma CountIsRead(f: seq<Byte>, ids: seq<seq<Byte>>, values: seq<seq<Byte>>)
    ensures IsIndexed(f, ids, values) ==> 28 <= |f| && NumberAt(f, 8) == |ids|
  {
  }

  lemma RowHasKey(f: seq<Byte>, keys: seq<string>, entries: map<string, string>, i: nat)
    requires i < |keys| && forall j :: 0 <= j < |keys| ==> keys[j] in entries
    ensures IsIndexed(f, Encoded(keys), Values(keys, entries)) ==> RowHas(f, i, keys[i], entries)
  {
    if IsIndexed(f, Encoded(keys), Values(keys, entries)) {
      ReadsRow(f, Encoded(keys), Values(keys, entries), i);
    }
  }

  lemma SortedAreKeys(keys: seq<string>, entries: map<string, string>)
    ensures IsSorted(keys, entries) ==> |keys| == |entries| && forall i :: 0 <= i < |keys| ==> keys[i] in entries
  {
    if IsSorted(keys, entries) {
      SortedHasAll(keys, entries);
      assert forall i :: 0 <= i < |keys| ==> keys[i] in keys;
    }
  }

  /** The file is the compiled catalogue. */
  ghost predicate IsCatalogue(f: seq<Byte>, keys: seq<string>, entries: map<string, string>) {
    && IsSorted(keys, entries) && (forall i :: 0 <= i < |keys| ==> keys[i] in entries)
    && IsIndexed(f, Encoded(keys), Values(keys, entries))
  }

  /**
   * A reader that follows the tables finds as many rows as the catalogue has entries, in strictly increasing byte order
   * of the keys.
   */
  lemma ReaderSeesOrder(f: seq<Byte>, keys: seq<string>, entries: map<string, string>, i: nat, j: nat)
    requires i < j < |entries|
    ensures IsCatalogue(f, keys, entries) ==>
      28 <= |f| && NumberAt(f, 8) == |entries| && Read(f, 12, i).Some? && Read(f, 12, j).Some?
        && BytesBefore(Read(f, 12, i).value, Read(f, 12, j).value)
  {
    if IsCatalogue(f, keys, entries) {
      SortedAreKeys(keys, entries);
      CountIsRead(f, Encoded(keys), Values(keys, entries));
      RowHasKey(f, keys, entries, i);
      RowHasKey(f, keys, entries, j);
      EncodingKeepsOrder(keys[i], keys[j]);
    }
  }

  /** Every entry is in a row. */
  lemma EveryEntryHasRow(f: seq<Byte>, keys: seq<string>, entries: map<string, string>, k: string)
    requires k in entries
    ensures IsCatalogue(f, keys, entries) ==> exists i: nat :: i < |entries| && RowHas(f, i, k, entries)
  {
    if IsCatalogue(f, keys, entries) {
      SortedAreKeys(keys, entries);
      var i :| 0 <= i < |keys| && keys[i] == k;
      RowHasKey(f, keys, entries, i);
    }
  }

  /** Every row is an entry. */
  lemma EveryRowHasEntry(f: seq<Byte>, keys: seq<string>, entries: map<string, string>, i: nat)
    requires i < |entries|
    ensures IsCatalogue(f, keys, entries) ==> exists k :: RowHas(f, i, k, entries)
  {
    if IsCatalogue(f, keys, entries) {
      SortedAreKeys(keys, entries);
      RowHasKey(f, keys, entries, i);
    }
  }

  /** What the file of one catalogue says of a key, every catalogue with that file says of it. */
  lemma EntryIsShared(f: seq<Byte>, ks: seq<string>, e: map<string, string>, kt: seq<string>, d: map<string, string>,
                      k: string)
    requires k in e
    ensures IsCatalogue(f, ks, e) && IsCatalogue(f, kt, d) ==> k in d && d[k] == e[k]
  {
    if IsCatalogue(f, ks, e) && IsCatalogue(f, kt, d) {
      EveryEntryHasRow(f, ks, e, k);
      var i: nat :| i < |e| && RowHas(f, i, k, e);
      assert |e| == |d| by {
        SortedAreKeys(ks, e);
        SortedAreKeys(kt, d);
        CountIsRead(f, Encoded(ks), Values(ks, e));
        CountIsRead(f, Encoded(kt), Values(kt, d));
      }
      EveryRowHasEntry(f, kt, d, i);
      var other :| RowHas(f, i, other, d);
      EncodingIsInjective(k, other);
      EncodingIsInjective(e[k], d[other]);
    }
  }

  /** A compiled file belongs to one map only: nothing of the catalogue is lost or confused by compiling it. */
  lemma FileDeterminesEntries(f: seq<Byte>, ks: seq<string>, e: map<string, string>, kt: seq<string>,
                              d: map<string, string>)
    requires IsCatalogue(f, ks, e) && IsCatalogue(f, kt, d)
    ensures e == d
  {
    forall k | k in e
      ensures k in d && d[k] == e[k]
    {
      EntryIsShared(f, ks, e, kt, d, k);
    }
    forall k | k in d
      ensures k in e
    {
      EntryIsShared(f, kt, d, ks, e, k);
    }
  }

  /** `struct.pack` takes signed numbers only. */
  predicate AllFit(rows: seq<(nat, nat)>) {
    forall i :: 0 <= i < |rows| ==> rows[i].0 < LIMIT && rows[i].1 < LIMIT
  }

  /** Length and offset of item `i`. */
  ghost predicate IsRow(row: (nat, nat), items: seq<seq<Byte>>, base: nat, i: nat)
    requires i < |items|
  {
    row == (|items[i]|, Start(items, base, i))
  }

  ghost predicate AreRows(rows: seq<(nat, nat)>, items: seq<seq<Byte>>, base: nat) {
    |rows| <= |items| && forall i :: 0 <= i < |rows| ==> IsRow(rows[i], items, base, i)
  }

  method Offsets(items: seq<seq<Byte>>, base: nat) returns (rows: seq<(nat, nat)>, offset: nat)
    ensures |rows| == |items| && AreRows(rows, items, base) && offset == Start(items, base, |items|)
  {
    rows, offset := [], base;
    for i := 0 to |items|
      invariant |rows| == i && AreRows(rows, items, base) && offset == Start(items, base, i)
    {
      assert IsRow((|items[i]|, offset), items, base, i);
      rows := rows + [(|items[i]|, offset)];
      offset := offset + |items[i]| + 1;
    }
  }

  method AppendTable(output: seq<Byte>, rows: seq<(nat, nat)>, ghost items: seq<seq<Byte>>, ghost base: nat)
      returns (r: seq<Byte>)
    requires |rows| == |items| && AreRows(rows, items, base)
    ensures r == output + Table(items, base, |items|)
  {
    r := output;
    for i := 0 to |rows|
      invariant r == output + Table(items, base, i)
    {
      assert IsRow(rows[i], items, base, i);
      r := r + Pack(rows[i].0) + Pack(rows[i].1);
    }
  }

  method AppendBlob(output: seq<Byte>, items: seq<seq<Byte>>) returns (r: seq<Byte>)
    ensures r == output + Blob(items, |items|)
  {
    r := output;
    for i := 0 to |items|
      invariant r == output + Blob(items, i)
    {
      r := r + (items[i] + [0]);
    }
  }

  lemma OverflowIsNoFit(ids: seq<seq<Byte>>, values: seq<seq<Byte>>, keyRows: seq<(nat, nat)>,
                        valueRows: seq<(nat, nat)>)
    requires |ids| == |values| == |keyRows| == |valueRows|
    requires AreRows(keyRows, ids, KeysBase(|ids|)) && AreRows(valueRows, values, Start(ids, KeysBase(|ids|), |ids|))
    ensures Fits(ids, values) ==> 28 + |ids| * 8 < LIMIT && AllFit(keyRows) && AllFit(valueRows)
  {
    if Fits(ids, values) {
      TablesFit(ids, values);
      forall i | 0 <= i < |ids|
        ensures keyRows[i].0 < LIMIT && keyRows[i].1 < LIMIT && valueRows[i].0 < LIMIT && valueRows[i].1 < LIMIT
      {
        assert ItemFits(ids, KeysBase(|ids|), i) && ItemFits(values, Start(ids, KeysBase(|ids|), |ids|), i);
        assert IsRow(keyRows[i], ids, KeysBase(|ids|), i)
          && IsRow(valueRows[i], values, Start(ids, KeysBase(|ids|), |ids|), i);
      }
    }
  }

  lemma AllFitIsFits(ids: seq<seq<Byte>>, values: seq<seq<Byte>>, valueRows: seq<(nat, nat)>)
    requires |ids| == |values| == |valueRows| && AreRows(valueRows, values, Start(ids, KeysBase(|ids|), |ids|))
    ensures AllFit(valueRows) ==> Fits(ids, values)
  {
    var n := |ids|;
    if n > 0 {
      assert IsRow(valueRows[n - 1], values, Start(ids, KeysBase(n), n), n - 1);
    }
  }

  /** The file, or an error exactly when a length or an offset does not fit into a signed 32-bit number. */
  method Compile(ids: seq<seq<Byte>>, values: seq<seq<Byte>>) returns (r: Result<seq<Byte>>)
    requires |ids| == |values|
    ensures r.Ok? <==> Fits(ids, values)
    ensures r.Ok? ==> IsIndexed(r.value, ids, values)
  {
    var count := |ids|;
    var base := 28 + count * 8 + count * 8;
    assert base == KeysBase(count);
    var keyOffsets, valueBase := Offsets(ids, base);
    var valueOffsets, end := Offsets(values, valueBase);
    if 28 + count * 8 >= LIMIT || !AllFit(keyOffsets) || !AllFit(valueOffsets) {
      OverflowIsNoFit(ids, values, keyOffsets, valueOffsets);
      return Err("'i' format requires a 32-bit number");
    }
    AllFitIsFits(ids, values, valueOffsets);
    var output := Header(count);
    output := AppendTable(output, keyOffsets, ids, base);
    output := AppendTable(output, valueOffsets, values, valueBase);
    output := AppendBlob(output, ids);
    output := AppendBlob(output, values);
    LayoutIsIndexed(ids, values);
    return Ok(output);
  }

  method CompileMo(entries: map<string, string>) returns (r: Result<seq<Byte>>, keys: seq<string>)
    ensures IsSorted(keys, entries) && forall i :: 0 <= i < |keys| ==> keys[i] in entries
    ensures r.Ok? <==> Fits(Encoded(keys), Values(keys, entries))
    ensures r.Ok? ==> IsCatalogue(r.value, keys, entries)
  {
    var sorted := SortedKeys(entries);
    SortedAreKeys(sorted, entries);
    r := Compile(Encoded(sorted), Values(sorted, entries));
    keys := sorted;
  }
}
