/** What the parser makes of a printed catalogue: the catalogue itself, or an error, and exactly when. */
module PoRoundTrip {
  import opened Common
  import T = Text
  import opened Lines
  import opened Po
  import opened PoFile

  // ---- from text to lines ----

  lemma CleanIsRawFree(t: string)
    ensures Clean(t) <==> !(exists i :: 0 <= i < |t| && RawBreak(t[i])) && '\0' !in t
  {
  }

  lemma StopsAt(st: State, parts: seq<string>, s: Option<FieldName>)
    requires parts != [] && Classify(parts[0]) == Literal(s, Bad)
    ensures Run(st, parts) == Raised
  {
  }

  /** A torn line stops the parser. */
  lemma TornLineStops(st: State, l: Line, rest: string)
    requires !l.Blank? && exists i :: 0 <= i < |l.text| && RawBreak(l.text[i])
    ensures Run(st, SplitLines(Render(l) + "\n" + rest, false)) == Raised
  {
    var line := Render(l);
    RenderIs(l);
    var u := TornAt(PrefixOf(l), l.text);
    ClassifyTorn(PrefixOf(l), u);
    assert IsBreak(line[BreakAt(line)]);
    SplitsOffStart(line, "\n" + rest);
    Associates(line, "\n", rest);
    StopsAt(st, SplitLines(line + ("\n" + rest), false), PrefixOf(l));
  }

  lemma ClassifyWhole(l: Line)
    requires l.Blank? || forall i :: 0 <= i < |l.text| ==> !RawBreak(l.text[i])
    ensures Classify(Render(l)) == if CleanLine(l) then KindOf(l) else Literal(PrefixOf(l), Bad)
    ensures forall k :: 0 <= k < |Render(l)| ==> !IsBreak(Render(l)[k])
  {
    if l.Blank? {
      assert Classify([]) == Empty;
    } else {
      RenderIs(l);
      CleanIsRawFree(l.text);
      ClassifyPrinted(PrefixOf(l), l.text);
      RenderedHasNoBreak(l);
    }
  }

  lemma RunFirst(st: State, l: Line, first: string, rest: seq<string>)
    requires Classify(first) == if CleanLine(l) then KindOf(l) else Literal(PrefixOf(l), Bad)
    ensures Run(st, [first] + rest) == if CleanLine(l) then Run(Effect(st, l), rest) else Raised
  {
    assert ([first] + rest)[1..] == rest;
  }

  /** A line without raw break is taken as it was printed. */
  lemma WholeLine(st: State, l: Line, rest: string)
    requires l.Blank? || forall i :: 0 <= i < |l.text| ==> !RawBreak(l.text[i])
    ensures Run(st, SplitLines(Render(l) + "\n" + rest, false))
         == if CleanLine(l) then Run(Effect(st, l), SplitLines(rest, false)) else Raised
  {
    ClassifyWhole(l);
    SplitsOffLine(Render(l), rest);
    RunFirst(st, l, Render(l), SplitLines(rest, false));
  }

  lemma RenderedHasNoBreak(l: Line)
    requires !l.Blank? && forall i :: 0 <= i < |l.text| ==> !RawBreak(l.text[i])
    ensures forall k :: 0 <= k < |Render(l)| ==> !IsBreak(Render(l)[k])
  {
    RenderIs(l);
    QuotedIs(l.text);
    StartHasNoBreak(PrefixOf(l), l.text);
    var start := Prefix(PrefixOf(l)) + ("\"" + Escape(l.text));
    assert Render(l) == start + "\"";
    assert forall k :: 0 <= k < |start| ==> Render(l)[k] == start[k];
  }

  predicate AllCleanLines(ls: seq<Line>) {
    ls == [] || (CleanLine(ls[0]) && AllCleanLines(ls[1..]))
  }

  /**
   * The parser takes printed lines as they were printed, or stops with an error, exactly if one of them is not clean.
   */
  lemma {:induction false} LinesAreTakenIn(st: State, ls: seq<Line>)
    ensures Run(st, SplitLines(Unlines(ls), false)) == if AllCleanLines(ls) then At(Effects(st, ls)) else Raised
    decreases |ls|
  {
    if ls != [] {
      var l, rest := ls[0], Unlines(ls[1..]);
      LinesAreTakenIn(Effect(st, l), ls[1..]);
      if l.Blank? || forall i :: 0 <= i < |l.text| ==> !RawBreak(l.text[i]) {
        WholeLine(st, l, rest);
      } else {
        TornLineStops(st, l, rest);
        CleanIsRawFree(l.text);
      }
    }
  }

  // ---- clean catalogues ----

  lemma {:induction false} AllCleanAdds(a: seq<Line>, b: seq<Line>)
    ensures AllCleanLines(a + b) <==> AllCleanLines(a) && AllCleanLines(b)
    decreases |a|
  {
    if a == [] {
      assert a + b == b;
    } else {
      AllCleanAdds(a[1..], b);
      assert (a + b)[1..] == a[1..] + b;
    }
  }

  lemma CleanAdds(s: string, t: string)
    ensures Clean(s + t) <==> Clean(s) && Clean(t)
  {
    assert forall i :: 0 <= i < |s| ==> (s + t)[i] == s[i];
    assert forall i :: 0 <= i < |t| ==> (s + t)[|s| + i] == t[i];
  }

  lemma {:induction false} QuotedClean(parts: seq<string>)
    ensures AllCleanLines(QuotedAll(parts)) <==> Clean(Concat(parts))
    decreases |parts|
  {
    if parts != [] {
      QuotedClean(parts[1..]);
      CleanAdds(parts[0], Concat(parts[1..]));
      assert QuotedAll(parts)[1..] == QuotedAll(parts[1..]);
    }
  }

  lemma OneLineClean(l: Line)
    ensures AllCleanLines([l]) <==> CleanLine(l)
  {
    assert [l][1..] == [];
  }

  lemma FieldClean(s: FieldName, value: string)
    ensures AllCleanLines(FormatField(s, value)) <==> Clean(value)
  {
    var parts := SplitLines(value, true);
    PartsMakeTheText(value);
    QuotedClean(parts);
    OneLineClean(Field(s, []));
    if parts != [] {
      OneLineClean(Field(s, parts[0]));
      AllCleanAdds([Field(s, [])], QuotedAll(parts));
      if |parts| == 1 {
        assert parts == [parts[0]] && Concat(parts) == parts[0] + Concat(parts[1..]);
      }
    }
  }

  lemma BlockClean(key: string, value: string)
    ensures AllCleanLines(Block(key, value)) <==> Clean(key) && Clean(value)
  {
    var a, b := FormatField(Msgid, key), FormatField(Msgstr, value);
    FieldClean(Msgid, key);
    FieldClean(Msgstr, value);
    AllCleanAdds(a, b);
    AllCleanAdds(a + b, [Blank]);
    OneLineClean(Blank);
  }

  ghost predicate EntryClean(k: string, entries: map<string, string>)
    requires k in entries
  {
    Clean(k) && Clean(entries[k])
  }

  ghost predicate KeysClean(keys: seq<string>, entries: map<string, string>, n: nat)
    requires n <= |keys| && forall i :: 0 <= i < |keys| ==> keys[i] in entries
  {
    n == 0 || (KeysClean(keys, entries, n - 1) && EntryClean(keys[n - 1], entries))
  }

  lemma {:induction false} KeysCleanIsAll(keys: seq<string>, entries: map<string, string>, n: nat)
    requires n <= |keys| && forall i :: 0 <= i < |keys| ==> keys[i] in entries
    ensures KeysClean(keys, entries, n) <==> forall i :: 0 <= i < n ==> EntryClean(keys[i], entries)
  {
    if n > 0 {
      KeysCleanIsAll(keys, entries, n - 1);
    }
  }

  lemma {:induction false} PrintedClean(header: string, keys: seq<string>, entries: map<string, string>, n: nat)
    requires n <= |keys| && forall i :: 0 <= i < |keys| ==> keys[i] in entries
    ensures AllCleanLines(Printed(header, keys, entries, n)) <==> Clean(header) && KeysClean(keys, entries, n)
  {
    if n == 0 {
      BlockClean([], header);
    } else {
      PrintedClean(header, keys, entries, n - 1);
      OneMoreClean(Printed(header, keys, entries, n - 1), keys[n - 1], entries);
    }
  }

  lemma OneMoreClean(before: seq<Line>, k: string, entries: map<string, string>)
    requires k in entries
    ensures AllCleanLines(before + Block(k, entries[k])) <==> AllCleanLines(before) && EntryClean(k, entries)
  {
    BlockClean(k, entries[k]);
    AllCleanAdds(before, Block(k, entries[k]));
  }

  /** All strings of the catalogue are clean. */
  ghost predicate CleanCatalogue(entries: map<string, string>) {
    forall k :: k in entries ==> EntryClean(k, entries)
  }

  /** `keys` lists the keys but the empty one, in any order. */
  ghost predicate Lists(keys: seq<string>, entries: map<string, string>) {
    && (forall i :: 0 <= i < |keys| ==> keys[i] in entries && keys[i] != [])
    && (forall k :: k in entries && k != [] ==> k in keys)
  }

  lemma {:induction false} FirstEntriesAre(header: string, keys: seq<string>, entries: map<string, string>, n: nat)
    requires n <= |keys| && forall i :: 0 <= i < |keys| ==> keys[i] in entries && keys[i] != []
    ensures var f := FirstEntries(header, keys, entries, n);
      && [] in f && f[[]] == header
      && (forall k :: k in f && k != [] ==> k in entries && f[k] == entries[k])
      && (forall i :: 0 <= i < n ==> keys[i] in f)
  {
    if n > 0 {
      FirstEntriesAre(header, keys, entries, n - 1);
    }
  }

  lemma AllEntries(header: string, keys: seq<string>, entries: map<string, string>)
    requires Lists(keys, entries) && [] in entries
    ensures FirstEntries(entries[[]], keys, entries, |keys|) == entries
  {
    FirstEntriesAre(entries[[]], keys, entries, |keys|);
    var f := FirstEntries(entries[[]], keys, entries, |keys|);
    forall k | k in entries
      ensures k in f
    {
      if k != [] {
        var i :| 0 <= i < |keys| && keys[i] == k;
      }
    }
  }

  // ---- the printed text ----

  lemma {:induction false} JoinedIsUnlines(ls: seq<Line>)
    requires ls != []
    ensures Joined(ls + [Blank]) == Unlines(ls)
    decreases |ls|
  {
    assert (ls + [Blank])[1..] == ls[1..] + [Blank];
    if |ls| > 1 {
      JoinedIsUnlines(ls[1..]);
    } else {
      assert ls[1..] + [Blank] == [Blank];
      assert Unlines(ls[1..]) == [];
      assert Render(ls[0]) + "\n" + [] == Render(ls[0]) + "\n";
    }
  }

  lemma RenderEnds(l: Line)
    ensures !l.Blank? ==> Render(l) != [] && Render(l)[|Render(l)| - 1] == '"'
  {
  }

  lemma {:induction false} UnlinesEnds(ls: seq<Line>)
    requires ls != [] && !ls[|ls| - 1].Blank?
    ensures var t := Unlines(ls);
      |t| >= 2 && t[|t| - 1] == '\n' && t[|t| - 2] == '"'
    decreases |ls|
  {
    if |ls| > 1 {
      UnlinesEnds(ls[1..]);
    } else {
      assert Unlines(ls[1..]) == [];
      RenderEnds(ls[0]);
    }
  }

  lemma StripLineFeed(t: string)
    requires |t| >= 2 && t[|t| - 1] == '\n' && t[|t| - 2] == '"'
    ensures T.StripRight(t) + "\n" == t
  {
    var u := t[..|t| - 1];
    assert T.StripRight(t) == T.StripRight(u);
    assert u[|u| - 1] == '"';
    assert T.StripRight(u) == u;
  }

  /** Joining, stripping the end and closing the last line: every line gets exactly its own line feed. */
  lemma StrippedJoin(ls: seq<Line>)
    requires ls != [] && !ls[|ls| - 1].Blank?
    ensures T.StripRight(Joined(ls + [Blank])) + "\n" == Unlines(ls)
  {
    JoinedIsUnlines(ls);
    UnlinesEnds(ls);
    StripLineFeed(Unlines(ls));
  }

  lemma FieldEnds(s: FieldName, value: string)
    ensures FormatField(s, value) != [] && !FormatField(s, value)[|FormatField(s, value)| - 1].Blank?
  {
    QuotedAreNotBlank(SplitLines(value, true));
  }

  lemma {:induction false} QuotedAreNotBlank(parts: seq<string>)
    ensures |QuotedAll(parts)| == |parts| && forall i :: 0 <= i < |parts| ==> QuotedAll(parts)[i].Quoted?
    decreases |parts|
  {
    if parts != [] {
      QuotedAreNotBlank(parts[1..]);
    }
  }

  /** The printed lines but the last, empty one. */
  lemma PrintedShape(header: string, keys: seq<string>, entries: map<string, string>) returns (ls: seq<Line>)
    requires forall i :: 0 <= i < |keys| ==> keys[i] in entries
    ensures ls != [] && !ls[|ls| - 1].Blank? && Printed(header, keys, entries, |keys|) == ls + [Blank]
  {
    var n := |keys|;
    if n == 0 {
      FieldEnds(Msgstr, header);
      ls := FormatField(Msgid, []) + FormatField(Msgstr, header);
    } else {
      var k, v := keys[n - 1], entries[keys[n - 1]];
      FieldEnds(Msgstr, v);
      ls := Printed(header, keys, entries, n - 1) + (FormatField(Msgid, k) + FormatField(Msgstr, v));
      assert Block(k, v) == FormatField(Msgid, k) + FormatField(Msgstr, v) + [Blank];
    }
  }

  /** The text of the file. */
  function FileText(keys: seq<string>, entries: map<string, string>): string
    requires [] in entries && forall i :: 0 <= i < |keys| ==> keys[i] in entries
  {
    T.StripRight(Joined(Printed(entries[[]], keys, entries, |keys|))) + "\n"
  }

  /**
   * Parsing what was printed, in whatever order the keys were printed, gives back the catalogue, and an error exactly
   * if one of its strings holds a NUL or a line break other than carriage return and line feed.
   */
  lemma ParseUndoesWrite(keys: seq<string>, entries: map<string, string>, header: string)
    requires Lists(keys, entries) && [] in entries
    ensures Finish(Run(INITIAL, SplitLines(FileText(keys, entries), false)), header)
         == if CleanCatalogue(entries) then Entries(entries) else Error
  {
    var n, h := |keys|, entries[[]];
    var ls := PrintedShape(h, keys, entries);
    StrippedJoin(ls);
    LinesAreTakenIn(INITIAL, ls);
    AllCleanAdds(ls, [Blank]);
    OneLineClean(Blank);
    PrintedClean(h, keys, entries, n);
    KeysCleanIsAll(keys, entries, n);
    CleanIffListed(keys, entries);
    PrintedIsTakenIn(h, keys, entries, n);
    EffectsAdd(INITIAL, ls, [Blank]);
    LastBlank(Effects(INITIAL, ls));
    AllEntries(header, keys, entries);
  }

  lemma LastBlank(st: State)
    ensures Effects(st, [Blank]) == Commit(st).(section := NoSection)
  {
    assert [Blank][1..] == [];
  }

  lemma CleanIffListed(keys: seq<string>, entries: map<string, string>)
    requires Lists(keys, entries) && [] in entries
    ensures CleanCatalogue(entries) <==>
      Clean(entries[[]]) && forall i :: 0 <= i < |keys| ==> EntryClean(keys[i], entries)
  {
    assert CleanCatalogue(entries) ==> EntryClean([], entries);
    if Clean(entries[[]]) && forall i :: 0 <= i < |keys| ==> EntryClean(keys[i], entries) {
      forall k | k in entries
        ensures EntryClean(k, entries)
      {
        if k != [] {
          var i :| 0 <= i < |keys| && keys[i] == k;
        }
      }
    }
  }

  // ---- the printer ----

  /** `keys` lists the keys that are not in `rest`. */
  ghost predicate ListsBut(keys: seq<string>, rest: set<string>, entries: map<string, string>) {
    && rest <= entries.Keys && [] !in rest
    && (forall i :: 0 <= i < |keys| ==> keys[i] in entries && keys[i] != [])
    && (forall k :: k in entries && k != [] && k !in rest ==> k in keys)
  }

  lemma ListsOneMore(keys: seq<string>, k: string, rest: set<string>, entries: map<string, string>)
    requires k in rest
    ensures ListsBut(keys, rest, entries) ==> ListsBut(keys + [k], rest - {k}, entries)
  {
  }

  method ListKeys(entries: map<string, string>) returns (keys: seq<string>)
    ensures Lists(keys, entries)
  {
    keys := [];
    var rest := entries.Keys - {[]};
    while rest != {}
      invariant ListsBut(keys, rest, entries)
      decreases |rest|
    {
      var k :| k in rest;
      ListsOneMore(keys, k, rest, entries);
      keys := keys + [k];
      rest := rest - {k};
    }
  }

  method PrintLines(keys: seq<string>, entries: map<string, string>) returns (lines: seq<Line>)
    requires [] in entries && forall i :: 0 <= i < |keys| ==> keys[i] in entries
    ensures lines == Printed(entries[[]], keys, entries, |keys|)
  {
    lines := Block([], entries[[]]);
    for i := 0 to |keys|
      invariant lines == Printed(entries[[]], keys, entries, i)
    {
      lines := lines + Block(keys[i], entries[keys[i]]);
    }
  }

  /** Print a catalogue, adding the default header if it has none. */
  method WritePo(entries: map<string, string>, header: string) returns (text: string, keys: seq<string>)
    ensures Lists(keys, WithHeader(entries, header))
    ensures text == FileText(keys, WithHeader(entries, header))
  {
    var order := ListKeys(WithHeader(entries, header));
    var lines := PrintLines(order, WithHeader(entries, header));
    text := T.StripRight(Joined(lines)) + "\n";
    keys := order;
  }

  // ---- editing a catalogue file ----

  /** What the parser makes of a file, which may be missing. */
  function Parsing(file: Option<string>, header: string): Outcome {
    if file.None? then Entries(map[[] := header]) else Finish(Run(INITIAL, SplitLines(file.value, false)), header)
  }

  /** A file's entries always include the header. */
  lemma ParsingHasHeader(file: Option<string>, header: string)
    ensures Parsing(file, header).Entries? ==> [] in Parsing(file, header).entries
  {
  }

  datatype Edited = Written(text: string) | Rejected | Unreadable(outcome: Outcome)

  /**
   * Set one translation in the file: parsing it again gives the old entries with that one replaced, and an error
   * exactly
   * if a string is not clean; so one such message makes the whole file unreadable.
   */
  method UpsertTranslation(file: Option<string>, header: string, msgid: string, msgstr: string) returns (r: Edited)
    ensures r.Rejected? <==> T.Strip(msgid) == []
    ensures !r.Rejected? ==> match Parsing(file, header)
      case Entries(e) =>
        r.Written? && var f := e[T.Strip(msgid) := T.Strip(msgstr)];
          Parsing(Some(r.text), header) == if CleanCatalogue(f) then Entries(f) else Error
      case o => r == Unreadable(o)
  {
    var id := T.Strip(msgid);
    if id == [] {
      return Rejected;
    }
    var parsed := ParsePo(file, header);
    ParsingHasHeader(file, header);
    match parsed {
      case Entries(e) =>
        var f := e[id := T.Strip(msgstr)];
        var text, keys := WritePo(f, header);
        ParseUndoesWrite(keys, f, header);
        return Written(text);
      case o => return Unreadable(o);
    }
  }

  /** Remove one translation from the file. */
  method RemoveTranslation(file: Option<string>, header: string, msgid: string) returns (r: Edited)
    ensures r.Rejected? <==> T.Strip(msgid) == []
    ensures !r.Rejected? ==> match Parsing(file, header)
      case Entries(e) =>
        r.Written? && var f := e - {T.Strip(msgid)};
          Parsing(Some(r.text), header) == if CleanCatalogue(f) then Entries(f) else Error
      case o => r == Unreadable(o)
  {
    var id := T.Strip(msgid);
    if id == [] {
      return Rejected;
    }
    var parsed := ParsePo(file, header);
    ParsingHasHeader(file, header);
    match parsed {
      case Entries(e) =>
        var f := e - {id};
        var text, keys := WritePo(f, header);
        ParseUndoesWrite(keys, f, header);
        return Written(text);
      case o => return Unreadable(o);
    }
  }
}
