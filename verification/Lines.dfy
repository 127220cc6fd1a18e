/** Splitting text into lines the way `str.splitlines` does. */
module Lines {

  /** Characters that end a line. */
  predicate IsBreak(c: char) {
    '\n' <= c <= '\r' || '\U{1c}' <= c <= '\U{1e}' || c == '\U{85}' || c == '\U{2028}' || c == '\U{2029}'
  }

  /** Position of the first line break, or the length. */
  function BreakAt(s: string): (i: nat)
    ensures i <= |s| && (i < |s| ==> IsBreak(s[i])) && forall k :: 0 <= k < i ==> !IsBreak(s[k])
  {
    if s == [] || IsBreak(s[0]) then 0 else 1 + BreakAt(s[1..])
  }

  lemma BreakAtIs(s: string, i: nat)
    requires i < |s| && IsBreak(s[i]) && forall k :: 0 <= k < i ==> !IsBreak(s[k])
    ensures BreakAt(s) == i
  {
  }

  /** Carriage return and line feed together are one break. */
  function AfterBreak(s: string, i: nat): (j: nat)
    requires i < |s|
    ensures i < j <= |s|
  {
    if s[i] == '\r' && i + 1 < |s| && s[i + 1] == '\n' then i + 2 else i + 1
  }

  function SplitLines(s: string, keepEnds: bool): seq<string>
    decreases |s|
  {
    if s == [] then []
    else
      var i := BreakAt(s);
      if i == |s| then [s]
      else [if keepEnds then s[..AfterBreak(s, i)] else s[..i]] + SplitLines(s[AfterBreak(s, i)..], keepEnds)
  }

  function Concat(parts: seq<string>): string {
    if parts == [] then [] else parts[0] + Concat(parts[1..])
  }

  lemma {:induction false} PartsMakeTheText(s: string)
    ensures Concat(SplitLines(s, true)) == s
    decreases |s|
  {
    if s != [] {
      var i := BreakAt(s);
      if i < |s| {
        var j := AfterBreak(s, i);
        PartsMakeTheText(s[j..]);
        var parts := SplitLines(s, true);
        assert parts[0] == s[..j] && parts[1..] == SplitLines(s[j..], true);
      } else {
        assert SplitLines(s, true) == [s];
        assert Concat([s]) == s + Concat([]);
      }
    }
  }

  /** A line without break, ended by a line feed, is split off whole. */
  lemma SplitsOffLine(line: string, rest: string)
    requires forall k :: 0 <= k < |line| ==> !IsBreak(line[k])
    ensures SplitLines(line + "\n" + rest, false) == [line] + SplitLines(rest, false)
  {
    var s := line + "\n" + rest;
    assert s[|line|] == '\n';
    assert forall k :: 0 <= k < |line| ==> s[k] == line[k];
    BreakAtIs(s, |line|);
    assert s[..|line|] == line && s[|line| + 1..] == rest;
  }

  /** The first of the lines ends at the first break, wherever that is. */
  lemma SplitsOffStart(line: string, rest: string)
    requires exists k :: 0 <= k < |line| && IsBreak(line[k])
    ensures var i := BreakAt(line);
      i < |line| && var parts := SplitLines(line + rest, false); parts != [] && parts[0] == line[..i]
  {
    var s := line + rest;
    var i := BreakAt(line);
    assert i < |line|;
    assert forall k :: 0 <= k <= i ==> s[k] == line[k];
    BreakAtIs(s, i);
    assert s[..i] == line[..i];
  }

  /** Text without break, then a break. */
  lemma {:induction false} BreakAfter(start: string, c: char, rest: string)
    requires IsBreak(c) && forall k :: 0 <= k < |start| ==> !IsBreak(start[k])
    ensures BreakAt(start + ([c] + rest)) == |start|
  {
    if start == [] {
      assert start + ([c] + rest) == [c] + rest;
    } else {
      BreakAfter(start[1..], c, rest);
      assert (start + ([c] + rest))[1..] == start[1..] + ([c] + rest);
    }
  }
}
