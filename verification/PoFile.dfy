/** PO files: the printer's lines, the parser's line-by-line state machine, and what becomes of a printed catalogue. */
module PoFile {
  import opened Common
  import T = Text
  import opened Lines
  import opened Po

  datatype Section = NoSection | Msgid | Msgstr

  type FieldName = s: Section | s != NoSection witness Msgid

  // ---- the printer ----

  /** One printed line: empty, a quoted piece, or a keyword with a quoted piece. */
  datatype Line = Blank | Quoted(text: string) | Field(section: FieldName, text: string)

  function Keyword(s: FieldName): string {
    if s.Msgid? then "msgid " else "msgstr "
  }

  function InQuotes(t: string): string {
    "\"" + EscapePo(t) + "\""
  }

  lemma QuotedIs(t: string)
    ensures InQuotes(t) == "\"" + Escape(t) + "\""
  {
    ReplacementsEscape(t);
  }

  function Render(l: Line): string {
    match l
    case Blank => []
    case Quoted(t) => InQuotes(t)
    case Field(s, t) => Keyword(s) + InQuotes(t)
  }

  function QuotedAll(parts: seq<string>): seq<Line> {
    if parts == [] then [] else [Quoted(parts[0])] + QuotedAll(parts[1..])
  }

  function FormatField(s: FieldName, value: string): seq<Line> {
    var parts := SplitLines(value, true);
    if parts == [] then [Field(s, [])]
    else if |parts| == 1 && !(parts[0] != [] && parts[0][|parts[0]| - 1] == '\n') then [Field(s, parts[0])]
    else [Field(s, [])] + QuotedAll(parts)
  }

  function Block(key: string, value: string): seq<Line> {
    FormatField(Msgid, key) + FormatField(Msgstr, value) + [Blank]
  }

  /** All printed lines: the header's block first, then those of the first `n` other keys. */
  function Printed(header: string, keys: seq<string>, entries: map<string, string>, n: nat): seq<Line>
    requires n <= |keys| && forall i :: 0 <= i < |keys| ==> keys[i] in entries
  {
    if n == 0 then Block([], header)
    else
      Printed(header, keys, entries, n - 1) + Block(keys[n - 1], entries[keys[n - 1]])
  }

  /** Lines, each ended by a line feed. */
  function Unlines(ls: seq<Line>): string {
    if ls == [] then [] else Render(ls[0]) + "\n" + Unlines(ls[1..])
  }

  /** Lines with a line feed between them. */
  function Joined(ls: seq<Line>): string {
    if ls == [] then [] else if |ls| == 1 then Render(ls[0]) else Render(ls[0]) + "\n" + Joined(ls[1..])
  }

  // ---- the parser ----

  /** What a line of the file is, by its first characters. */
  datatype Kind = FuzzyMark | Comment | Start(section: FieldName,
                                              literal: Evaluated) | More(literal: Evaluated) | Empty | Ignored

  predicate Contains(s: string, part: string) {
    part <= s || (s != [] && Contains(s[1..], part))
  }

  function Classify(raw: string): Kind {
    var line := T.Strip(raw);
    if "#," <= line && Contains(line, "fuzzy") then FuzzyMark
    else if "#" <= line then Comment
    else if "msgid " <= line then Start(Msgid, Eval(T.Strip(line[5..])))
    else if "msgstr " <= line then Start(Msgstr, Eval(T.Strip(line[6..])))
    else if "\"" <= line then More(Eval(line))
    else if line == [] then Empty
    else Ignored
  }

  datatype State = State(section: Section, fuzzy: bool, msgid: string, msgstr: string, entries: map<string, string>)

  /** Where parsing stands: at a state, stopped by an error, or at a literal form that the printer does not produce. */
  datatype Parsed = At(state: State) | Raised | Beyond

  function Commit(st: State): State {
    State(st.section, false, [], [], if st.section != NoSection
          && !st.fuzzy then st.entries[st.msgid := st.msgstr] else st.entries)
  }

  function Begin(st: State, s: FieldName, text: string): State {
    if s.Msgid? then Commit(st).(section := Msgid, msgid := text) else st.(section := s, msgstr := text)
  }

  function Continue(st: State, text: string): State {
    match st.section
    case Msgid => st.(msgid := st.msgid + text)
    case Msgstr => st.(msgstr := st.msgstr + text)
    case NoSection => st
  }

  function Step(st: State, k: Kind): Parsed {
    match k
    case FuzzyMark => At(st.(fuzzy := true))
    case Start(s, e) => if e.Text? then At(Begin(st, s, e.text)) else if e.Bad? then Raised else Beyond
    case More(e) => if e.Text? then At(Continue(st, e.text)) else if e.Bad? then Raised else Beyond
    case Empty => At(Commit(st).(section := NoSection))
    case _ => At(st)
  }

  function Run(st: State, ls: seq<string>): Parsed
    decreases |ls|
  {
    if ls == [] then At(st)
    else
      var next := Step(st, Classify(ls[0]));
      if next.At? then Run(next.state, ls[1..]) else next
  }

  const INITIAL := State(NoSection, false, [], [], map[])

  /** The entries of a file, with the default header if it has none. */
  function WithHeader(entries: map<string, string>, header: string): map<string, string> {
    if [] in entries then entries else entries[[] := header]
  }

  datatype Outcome = Entries(entries: map<string, string>) | Error | Unmodelled

  function Finish(p: Parsed, header: string): Outcome {
    match p
    case At(st) => Entries(WithHeader(Commit(st).entries, header))
    case Raised => Error
    case Beyond => Unmodelled
  }

  /** The parser: a missing file has the default header only. */
  method ParsePo(file: Option<string>, header: string) returns (r: Outcome)
    ensures r == if file.None? then Entries(map[[] := header])
      else Finish(Run(INITIAL, SplitLines(file.value, false)), header)
  {
    if file.None? {
      return Entries(map[[] := header]);
    }
    var st := INITIAL;
    var ls := SplitLines(file.value, false);
    var i := 0;
    while i < |ls|
      invariant i <= |ls| && Run(INITIAL, ls) == Run(st, ls[i..])
    {
      var next := Step(st, Classify(ls[i]));
      assert ls[i..][0] == ls[i] && ls[i..][1..] == ls[i + 1..];
      match next {
        case At(s) => st := s;
        case Raised => return Error;
        case Beyond => return Unmodelled;
      }
      i := i + 1;
    }
    assert ls[i..] == [];
    return Finish(At(st), header);
  }

  // ---- printed lines in the parser ----

  /** Free of NUL and of every line break but carriage return and line feed. */
  predicate Clean(s: string) {
    forall i :: 0 <= i < |s| ==> s[i] != '\0' && (IsBreak(s[i]) ==> s[i] == '\n' || s[i] == '\r')
  }

  predicate CleanLine(l: Line) {
    l.Blank? || Clean(l.text)
  }

  function KindOf(l: Line): Kind {
    match l
    case Blank => Empty
    case Quoted(t) => More(Text(t))
    case Field(s, t) => Start(s, Text(t))
  }

  /** Effect of a clean printed line. */
  function Effect(st: State, l: Line): State {
    match l
    case Blank => Commit(st).(section := NoSection)
    case Quoted(t) => Continue(st, t)
    case Field(s, t) => Begin(st, s, t)
  }

  function Effects(st: State, ls: seq<Line>): State
    decreases |ls|
  {
    if ls == [] then st else Effects(Effect(st, ls[0]), ls[1..])
  }

  lemma {:induction false} EffectsAdd(st: State, a: seq<Line>, b: seq<Line>)
    ensures Effects(st, a + b) == Effects(Effects(st, a), b)
    decreases |a|
  {
    if a == [] {
      assert a + b == b;
    } else {
      EffectsAdd(Effect(st, a[0]), a[1..], b);
      assert (a + b)[1..] == a[1..] + b;
    }
  }

  lemma ContinueTwice(st: State, a: string, b: string)
    ensures Continue(Continue(st, a), b) == Continue(st, a + b)
  {
    assert st.msgid + a + b == st.msgid + (a + b) && st.msgstr + a + b == st.msgstr + (a + b);
  }

  lemma {:induction false} QuotedContinue(st: State, parts: seq<string>)
    requires st.section != NoSection
    ensures Effects(st, QuotedAll(parts)) == Continue(st, Concat(parts))
    decreases |parts|
  {
    if parts != [] {
      QuotedContinue(Continue(st, parts[0]), parts[1..]);
      assert QuotedAll(parts)[1..] == QuotedAll(parts[1..]);
      ContinueTwice(st, parts[0], Concat(parts[1..]));
    } else {
      assert st.msgid + [] == st.msgid && st.msgstr + [] == st.msgstr;
    }
  }

  /** A printed field is taken in whole, however many lines it was printed on. */
  lemma FieldIsTakenIn(st: State, s: FieldName, value: string)
    ensures Effects(st, FormatField(s, value)) == Begin(st, s, value)
  {
    var parts := SplitLines(value, true);
    PartsMakeTheText(value);
    var first := Begin(st, s, []);
    if parts == [] {
      assert value == [];
      assert FormatField(s, value)[1..] == [];
    } else if |FormatField(s, value)| == 1 {
      assert parts == [parts[0]];
      assert Concat(parts) == parts[0] + [];
      assert FormatField(s, value)[1..] == [];
    } else {
      assert FormatField(s, value)[1..] == QuotedAll(parts);
      QuotedContinue(first, parts);
      assert [] + value == value;
    }
  }

  lemma BlockIsTakenIn(entries: map<string, string>, key: string, value: string)
    ensures Effects(INITIAL.(entries := entries), Block(key, value)) == INITIAL.(entries := entries[key := value])
  {
    var st := INITIAL.(entries := entries);
    var a, b := FormatField(Msgid, key), FormatField(Msgstr, value);
    EffectsAdd(st, a + b, [Blank]);
    EffectsAdd(st, a, b);
    FieldIsTakenIn(st, Msgid, key);
    FieldIsTakenIn(Begin(st, Msgid, key), Msgstr, value);
    assert [Blank][1..] == [];
  }

  /** The header and the first `n` keys with their values. */
  function FirstEntries(header: string, keys: seq<string>, entries: map<string, string>, n: nat): map<string, string>
    requires n <= |keys| && forall i :: 0 <= i < |keys| ==> keys[i] in entries
  {
    if n == 0 then map[[] := header]
      else FirstEntries(header, keys, entries, n - 1)[keys[n - 1] := entries[keys[n - 1]]]
  }

  lemma {:induction false} PrintedIsTakenIn(header: string, keys: seq<string>, entries: map<string, string>, n: nat)
    requires n <= |keys| && forall i :: 0 <= i < |keys| ==> keys[i] in entries
    ensures Effects(INITIAL, Printed(header, keys, entries, n))
      == INITIAL.(entries := FirstEntries(header, keys, entries, n))
  {
    if n == 0 {
      BlockIsTakenIn(map[], [], header);
    } else {
      PrintedIsTakenIn(header, keys, entries, n - 1);
      EffectsAdd(INITIAL, Printed(header, keys, entries, n - 1), Block(keys[n - 1], entries[keys[n - 1]]));
      BlockIsTakenIn(FirstEntries(header, keys, entries, n - 1), keys[n - 1], entries[keys[n - 1]]);
    }
  }

  // ---- printed text in the parser ----

  /** A break that is not escaped. */
  predicate RawBreak(c: char) {
    IsBreak(c) && c != '\n' && c != '\r'
  }

  lemma EscapeCons(c: char, rest: string)
    ensures Escape([c] + rest) == EscapeChar(c) + Escape(rest)
  {
    assert ([c] + rest)[1..] == rest;
  }

  lemma {:induction false} EscapeAdds(s: string, t: string)
    ensures Escape(s + t) == Escape(s) + Escape(t)
  {
    if s == [] {
      assert s + t == t;
      assert Escape(s) == [];
    } else {
      EscapeAdds(s[1..], t);
      assert s == [s[0]] + s[1..] && s + t == [s[0]] + (s[1..] + t);
      EscapeCons(s[0], s[1..]);
      EscapeCons(s[0], s[1..] + t);
      Associates(EscapeChar(s[0]), Escape(s[1..]), Escape(t));
    }
  }

  lemma EscapeOne(c: char)
    ensures Escape([c]) == EscapeChar(c)
  {
    assert [c][1..] == [];
  }

  lemma {:induction false} EscapedHasNoBreak(t: string)
    requires forall i :: 0 <= i < |t| ==> !RawBreak(t[i])
    ensures forall k :: 0 <= k < |Escape(t)| ==> !IsBreak(Escape(t)[k])
  {
    if t != [] {
      EscapedHasNoBreak(t[1..]);
      assert forall k :: 0 <= k < |EscapeChar(t[0])| ==> !IsBreak(EscapeChar(t[0])[k]);
    }
  }

  lemma {:induction false} EscapedHasSameNul(t: string)
    ensures '\0' in Escape(t) <==> '\0' in t
  {
    if t != [] {
      EscapedHasSameNul(t[1..]);
      assert '\0' in EscapeChar(t[0]) <==> t[0] == '\0';
      assert t == [t[0]] + t[1..];
    }
  }

  /** Stripping an unfinished literal strips characters of its text. */
  lemma {:induction false} StripUnfinished(start: string, t: string) returns (n: nat)
    requires start != [] && !T.IsSpace(start[|start| - 1])
    ensures n <= |t| && T.StripRight(start + Escape(t)) == start + Escape(t[..n])
    decreases |t|
  {
    if t == [] {
      n := 0;
      assert start + Escape(t) == start;
    } else {
      var u, c := t[..|t| - 1], t[|t| - 1];
      var s := start + Escape(t);
      assert t == u + [c];
      LastEscaped(start, t, u, c, s);
      if T.IsSpace(s[|s| - 1]) {
        n := StripUnfinished(start, u);
        StripOneMore(start, t, u, c, s, n);
      } else {
        n := |t|;
        assert t[..n] == t;
      }
    }
  }

  lemma StripOneMore(start: string, t: string, u: string, c: char, s: string, n: nat)
    requires t == u + [c] && s == start + Escape(t) && n <= |u|
    requires s != [] && T.IsSpace(s[|s| - 1]) && s[..|s| - 1] == start + Escape(u)
    ensures T.StripRight(start + Escape(u)) == start + Escape(u[..n]) ==>
      T.StripRight(start + Escape(t)) == start + Escape(t[..n])
  {
    StripLastSpace(s, start + Escape(u));
    assert t[..n] == u[..n];
  }

  lemma StripLastSpace(s: string, front: string)
    requires s != [] && T.IsSpace(s[|s| - 1]) && s[..|s| - 1] == front
    ensures T.StripRight(s) == T.StripRight(front)
  {
  }

  /** The last character of an unfinished literal, and what is left without it if it is a space. */
  lemma LastEscaped(start: string, t: string, u: string, c: char, s: string)
    requires t == u + [c] && s == start + Escape(t)
    ensures s != [] && (T.IsSpace(s[|s| - 1]) ==> s[..|s| - 1] == start + Escape(u))
  {
    EscapeAdds(u, [c]);
    EscapeOne(c);
    assert s == start + Escape(u) + EscapeChar(c);
    assert s[|s| - 1] == EscapeChar(c)[|EscapeChar(c)| - 1];
    if T.IsSpace(s[|s| - 1]) {
      assert s[..|s| - 1] == start + Escape(u);
    }
  }

  /** What a keyword, or none, and a literal are to the parser. */
  function Literal(s: Option<FieldName>, e: Evaluated): Kind {
    if s.Some? then Start(s.value, e) else More(e)
  }

  function Prefix(s: Option<FieldName>): string {
    if s.Some? then Keyword(s.value) else []
  }

  lemma StripAfterKeyword(body: string)
    requires body != [] && !T.IsSpace(body[0]) && !T.IsSpace(body[|body| - 1])
    ensures T.Strip([' '] + body) == body
  {
    assert ([' '] + body)[1..] == body;
    assert T.StripLeft([' '] + body) == body;
  }

  lemma ClassifyMsgid(raw: string, body: string)
    requires T.Strip(raw) == "msgid " + body && body != [] && body[0] == '"' && !T.IsSpace(body[|body| - 1])
    ensures Classify(raw) == Start(Msgid, Eval(body))
  {
    var line := T.Strip(raw);
    assert line[0] == 'm' && line[5..] == [' '] + body;
    StripAfterKeyword(body);
  }

  lemma ClassifyMsgstr(raw: string, body: string)
    requires T.Strip(raw) == "msgstr " + body && body != [] && body[0] == '"' && !T.IsSpace(body[|body| - 1])
    ensures Classify(raw) == Start(Msgstr, Eval(body))
  {
    var line := T.Strip(raw);
    assert line[0] == 'm' && line[3] == 's' && line[6..] == [' '] + body;
    StripAfterKeyword(body);
  }

  lemma ClassifyMore(raw: string, body: string)
    requires T.Strip(raw) == body && body != [] && body[0] == '"'
    ensures Classify(raw) == More(Eval(body))
  {
  }

  lemma ClassifyLiteral(raw: string, s: Option<FieldName>, body: string)
    requires T.Strip(raw) == Prefix(s) + body && body != [] && body[0] == '"' && !T.IsSpace(body[|body| - 1])
    ensures Classify(raw) == Literal(s, Eval(body))
  {
    if s == Some(Msgid) {
      ClassifyMsgid(raw, body);
    } else if s == Some(Msgstr) {
      ClassifyMsgstr(raw, body);
    } else {
      assert [] + body == body;
      ClassifyMore(raw, body);
    }
  }

  lemma KeywordFacts(s: Option<FieldName>)
    ensures forall k :: 0 <= k < |Prefix(s)| ==> !IsBreak(Prefix(s)[k])
    ensures Prefix(s) != [] ==> !T.IsSpace(Prefix(s)[0])
  {
  }

  lemma StripPrefixed(s: Option<FieldName>, body: string)
    requires body != [] && body[0] == '"' && !T.IsSpace(body[|body| - 1])
    ensures T.Strip(Prefix(s) + body) == Prefix(s) + body
  {
    KeywordFacts(s);
    var line := Prefix(s) + body;
    assert line[|line| - 1] == body[|body| - 1];
    assert line[0] == if Prefix(s) == [] then body[0] else Prefix(s)[0];
  }

  lemma EvalQuoted(t: string)
    ensures Eval(InQuotes(t)) == if '\0' in t then Bad else Text(t)
  {
    EscapedHasSameNul(t);
    UnquoteEscaped(t, "\"", Text([]));
    QuotedIs(t);
    assert InQuotes(t)[1..] == Escape(t) + "\"";
    assert '\0' in InQuotes(t) <==> '\0' in Escape(t);
    assert t + [] == t;
  }

  /** A literal without its closing quote is an error. */
  lemma EvalUnfinished(t: string)
    ensures Eval("\"" + Escape(t)) == Bad
  {
    UnquoteEscaped(t, [], Bad);
    assert ("\"" + Escape(t))[1..] == Escape(t) + [];
  }

  /** A whole printed line comes back as what was printed, but a NUL makes it an error. */
  lemma ClassifyPrinted(s: Option<FieldName>, t: string)
    ensures Classify(Prefix(s) + InQuotes(t)) == Literal(s, if '\0' in t then Bad else Text(t))
  {
    QuotedIs(t);
    StripPrefixed(s, InQuotes(t));
    ClassifyLiteral(Prefix(s) + InQuotes(t), s, InQuotes(t));
    EvalQuoted(t);
  }

  lemma StripLeftKeeps(s: Option<FieldName>, rest: string)
    ensures T.StripLeft(Prefix(s) + ("\"" + rest)) == Prefix(s) + ("\"" + rest)
  {
    KeywordFacts(s);
    var line := Prefix(s) + ("\"" + rest);
    assert line[0] == if Prefix(s) == [] then '"' else Prefix(s)[0];
  }

  lemma StripTorn(s: Option<FieldName>, t: string) returns (n: nat)
    ensures n <= |t| && T.Strip(Prefix(s) + ("\"" + Escape(t))) == Prefix(s) + ("\"" + Escape(t[..n]))
  {
    StripLeftKeeps(s, Escape(t));
    n := StripUnfinished(Prefix(s) + "\"", t);
    Associates(Prefix(s), "\"", Escape(t));
    Associates(Prefix(s), "\"", Escape(t[..n]));
  }

  lemma StrippedEnd(raw: string, prefix: string, body: string)
    requires T.Strip(raw) == prefix + body && body != []
    ensures !T.IsSpace(body[|body| - 1])
  {
    var line := T.Strip(raw);
    assert line[|line| - 1] == body[|body| - 1];
  }

  /** A printed line torn off inside its text is an error. */
  lemma ClassifyTorn(s: Option<FieldName>, t: string)
    ensures Classify(Prefix(s) + ("\"" + Escape(t))) == Literal(s, Bad)
  {
    var raw := Prefix(s) + ("\"" + Escape(t));
    var n := StripTorn(s, t);
    var body := "\"" + Escape(t[..n]);
    StrippedEnd(raw, Prefix(s), body);
    ClassifyLiteral(raw, s, body);
    EvalUnfinished(t[..n]);
  }

  function PrefixOf(l: Line): Option<FieldName> {
    if l.Field? then Some(l.section) else None
  }

  lemma RenderIs(l: Line)
    ensures !l.Blank? ==> Render(l) == Prefix(PrefixOf(l)) + InQuotes(l.text)
  {
    if l.Quoted? {
      assert [] + InQuotes(l.text) == InQuotes(l.text);
    }
  }

  lemma TornForm(prefix: string, u: string, c: char, v: string)
    requires RawBreak(c)
    ensures prefix + InQuotes(u + ([c] + v)) == prefix + ("\"" + Escape(u)) + ([c] + (Escape(v) + "\""))
  {
    EscapeAdds(u, [c] + v);
    EscapeCons(c, v);
    assert EscapeChar(c) == [c];
    QuotedIs(u + ([c] + v));
    TornConcat(prefix, Escape(u), c, Escape(v));
  }

  lemma TornConcat(prefix: string, e: string, c: char, f: string)
    ensures prefix + ("\"" + (e + ([c] + f)) + "\"") == prefix + ("\"" + e) + ([c] + (f + "\""))
  {
  }

  function FirstRaw(t: string): (i: nat)
    requires exists i :: 0 <= i < |t| && RawBreak(t[i])
    ensures i < |t| && RawBreak(t[i]) && forall k :: 0 <= k < i ==> !RawBreak(t[k])
  {
    if RawBreak(t[0]) then 0
    else
      var j :| 0 <= j < |t| && RawBreak(t[j]);
      assert t[1..][j - 1] == t[j];
      1 + FirstRaw(t[1..])
  }

  lemma StartHasNoBreak(s: Option<FieldName>, u: string)
    requires forall i :: 0 <= i < |u| ==> !RawBreak(u[i])
    ensures forall k :: 0 <= k < |Prefix(s) + ("\"" + Escape(u))| ==> !IsBreak((Prefix(s) + ("\"" + Escape(u)))[k])
  {
    EscapedHasNoBreak(u);
    KeywordFacts(s);
    var p, e := Prefix(s), Escape(u);
    var start := p + ("\"" + e);
    assert forall k :: 0 <= k < |p| ==> start[k] == p[k];
    assert start[|p|] == '"';
    assert forall k :: |p| < k < |start| ==> start[k] == e[k - |p| - 1];
  }

  /** Where a printed text with a raw break is torn. */
  lemma TornAt(s: Option<FieldName>, t: string) returns (u: string)
    requires exists i :: 0 <= i < |t| && RawBreak(t[i])
    ensures var line := Prefix(s) + InQuotes(t);
      BreakAt(line) < |line| && line[..BreakAt(line)] == Prefix(s) + ("\"" + Escape(u))
  {
    var i := FirstRaw(t);
    u := t[..i];
    StartHasNoBreak(s, u);
    SplitAt(t, i);
    TornForm(Prefix(s), u, t[i], t[i + 1..]);
    var start, rest := Prefix(s) + ("\"" + Escape(u)), Escape(t[i + 1..]) + "\"";
    BreakAfter(start, t[i], rest);
    assert (start + ([t[i]] + rest))[..|start|] == start;
  }

  lemma SplitAt(t: string, i: nat)
    requires i < |t|
    ensures t == t[..i] + ([t[i]] + t[i + 1..])
  {
  }
}
