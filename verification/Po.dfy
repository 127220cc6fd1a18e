/** Printing a catalogue as a PO file (GNU gettext manual, chapter 3) and parsing it again. */
module Po {
  import opened Common
  import opened Text
  import opened Lines

  // ---- escaping ----

  function Replace(s: string, c: char, put: string): string {
    if s == [] then [] else (if s[0] == c then put else [s[0]]) + Replace(s[1..], c, put)
  }

  /** The five replacements, one after the other. */
  function EscapePo(value: string): string {
    Replace(Replace(Replace(Replace(Replace(value, '\\', "\\\\"), '"', "\\\""), '\t', "\\t"), '\r', "\\r"), '\n', "\\n")
  }

  function EscapeChar(c: char): (r: string)
    ensures 1 <= |r| <= 2
  {
    if c == '\\' then "\\\\" else if c == '"' then "\\\"" else if c == '\t' then "\\t" else if c == '\r' then "\\r"
      else if c == '\n' then "\\n"
    else [c]
  }

  /** Each character escaped by itself. */
  function Escape(s: string): string {
    if s == [] then [] else EscapeChar(s[0]) + Escape(s[1..])
  }

  lemma ReplaceCons(a: char, rest: string, c: char, put: string)
    ensures Replace([a] + rest, c, put) == (if a == c then put else [a]) + Replace(rest, c, put)
  {
    assert ([a] + rest)[1..] == rest;
  }

  lemma Associates(a: string, b: string, c: string)
    ensures a + (b + c) == (a + b) + c
  {
  }

  lemma {:induction false} ReplaceAdds(s: string, t: string, c: char, put: string)
    ensures Replace(s + t, c, put) == Replace(s, c, put) + Replace(t, c, put)
  {
    if s == [] {
      assert s + t == t;
      assert Replace(s, c, put) == [];
    } else {
      ReplaceAdds(s[1..], t, c, put);
      assert s == [s[0]] + s[1..] && s + t == [s[0]] + (s[1..] + t);
      ReplaceCons(s[0], s[1..], c, put);
      ReplaceCons(s[0], s[1..] + t, c, put);
      Associates(if s[0] == c then put else [s[0]], Replace(s[1..], c, put), Replace(t, c, put));
    }
  }

  lemma EscapePoAdds(s: string, t: string)
    ensures EscapePo(s + t) == EscapePo(s) + EscapePo(t)
  {
    ReplaceAdds(s, t, '\\', "\\\\");
    var s1, t1 := Replace(s, '\\', "\\\\"), Replace(t, '\\', "\\\\");
    ReplaceAdds(s1, t1, '"', "\\\"");
    var s2, t2 := Replace(s1, '"', "\\\""), Replace(t1, '"', "\\\"");
    ReplaceAdds(s2, t2, '\t', "\\t");
    var s3, t3 := Replace(s2, '\t', "\\t"), Replace(t2, '\t', "\\t");
    ReplaceAdds(s3, t3, '\r', "\\r");
    ReplaceAdds(Replace(s3, '\r', "\\r"), Replace(t3, '\r', "\\r"), '\n', "\\n");
  }

  lemma ReplaceInOne(a: char, c: char, put: string)
    ensures Replace([a], c, put) == if a == c then put else [a]
  {
    assert [a][1..] == [];
  }

  lemma ReplaceInTwo(a: char, b: char, c: char, put: string)
    requires a != c && b != c
    ensures Replace([a, b], c, put) == [a, b]
  {
    ReplaceAdds([a], [b], c, put);
    ReplaceInOne(a, c, put);
    ReplaceInOne(b, c, put);
    assert [a] + [b] == [a, b];
  }

  lemma EscapePoChar(a: char)
    ensures EscapePo([a]) == EscapeChar(a)
  {
    ReplaceInOne(a, '\\', "\\\\");
    ReplaceInOne(a, '"', "\\\"");
    ReplaceInOne(a, '\t', "\\t");
    ReplaceInOne(a, '\r', "\\r");
    ReplaceInOne(a, '\n', "\\n");
    ReplaceInTwo('\\', '\\', '"', "\\\"");
    ReplaceInTwo('\\', '\\', '\t', "\\t");
    ReplaceInTwo('\\', '\\', '\r', "\\r");
    ReplaceInTwo('\\', '\\', '\n', "\\n");
    ReplaceInTwo('\\', '"', '\t', "\\t");
    ReplaceInTwo('\\', '"', '\r', "\\r");
    ReplaceInTwo('\\', '"', '\n', "\\n");
    ReplaceInTwo('\\', 't', '\r', "\\r");
    ReplaceInTwo('\\', 't', '\n', "\\n");
    ReplaceInTwo('\\', 'r', '\n', "\\n");
  }

  /** The replacements do not get into each other's way: together they escape every character by itself. */
  lemma {:induction false} ReplacementsEscape(s: string)
    ensures EscapePo(s) == Escape(s)
  {
    if s != [] {
      assert s == [s[0]] + s[1..];
      EscapePoAdds([s[0]], s[1..]);
      EscapePoChar(s[0]);
      ReplacementsEscape(s[1..]);
    }
  }

  // ---- evaluating a literal ----

  /** Outcome of evaluating a literal: its text, an error, or a form that the printer does not produce. */
  datatype Evaluated = Text(text: string) | Bad | Other

  /** The rest of a double-quoted literal after its opening quote. */
  function Unquote(s: string): Evaluated {
    if s == [] then Bad
    else if s[0] == '"' then (if |s| == 1 then Text([]) else Other)
    else if s[0] == '\\' then
      if |s| == 1 then Bad
      else if s[1] == '\\' || s[1] == '"' then Prepend(s[1], Unquote(s[2..]))
      else if s[1] == 't' then Prepend('\t', Unquote(s[2..]))
      else if s[1] == 'r' then Prepend('\r', Unquote(s[2..]))
      else if s[1] == 'n' then Prepend('\n', Unquote(s[2..]))
      else Other
    else Prepend(s[0], Unquote(s[1..]))
  }

  function Prepend(c: char, e: Evaluated): Evaluated {
    if e.Text? then Text([c] + e.text) else e
  }

  function PrependAll(s: string, e: Evaluated): Evaluated {
    if e.Text? then Text(s + e.text) else e
  }

  /** A NUL is refused wherever it is. */
  function Eval(s: string): Evaluated {
    if '\0' in s then Bad else if s == [] || s[0] != '"' then Other else Unquote(s[1..])
  }

  lemma UnquoteOne(c: char, rest: string)
    ensures Unquote(EscapeChar(c) + rest) == Prepend(c, Unquote(rest))
  {
    var s := EscapeChar(c) + rest;
    if |EscapeChar(c)| == 2 {
      assert s[2..] == rest;
    } else {
      assert s[1..] == rest;
    }
  }

  lemma PrependMore(c: char, s: string, e: Evaluated)
    ensures Prepend(c, PrependAll(s, e)) == PrependAll([c] + s, e)
  {
    if e.Text? {
      assert [c] + (s + e.text) == [c] + s + e.text;
    }
  }

  lemma EscapeStep(s: string, rest: string)
    requires s != []
    ensures Escape(s) + rest == EscapeChar(s[0]) + (Escape(s[1..]) + rest) && [s[0]] + s[1..] == s
  {
    Associates(EscapeChar(s[0]), Escape(s[1..]), rest);
  }

  /** Reading back what was escaped. */
  lemma {:induction false} UnquoteEscaped(s: string, rest: string, e: Evaluated)
    requires e == Unquote(rest)
    ensures Unquote(Escape(s) + rest) == PrependAll(s, e)
  {
    if s == [] {
      NothingEscaped(rest, e);
    } else {
      UnquoteEscaped(s[1..], rest, e);
      EscapeStep(s, rest);
      UnquoteStep(s[0], Escape(s[1..]) + rest, s[1..], e);
    }
  }

  lemma NothingEscaped(rest: string, e: Evaluated)
    ensures Escape([]) + rest == rest && PrependAll([], e) == e
  {
    assert Escape([]) + rest == rest;
    assert e.Text? ==> [] + e.text == e.text;
  }

  lemma UnquoteStep(c: char, text: string, s: string, e: Evaluated)
    ensures Unquote(text) == PrependAll(s, e) ==> Unquote(EscapeChar(c) + text) == PrependAll([c] + s, e)
  {
    UnquoteOne(c, text);
    PrependMore(c, s, e);
  }
}
