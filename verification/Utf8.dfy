/** UTF-8, and that it keeps the order of strings: comparing code points or bytes is the same. */
module Utf8 {

  type Byte = b: int | 0 <= b < 256

  function EncodeChar(c: char): (r: seq<Byte>)
    ensures 1 <= |r| <= 4
  {
    var n := c as int;
    if n < 0x80 then [n]
    else if n < 0x800 then [0xC0 + n / 64, 0x80 + n % 64]
    else if n < 0x1_0000 then [0xE0 + n / 64 / 64, 0x80 + n / 64 % 64, 0x80 + n % 64]
    else [0xF0 + n / 64 / 64 / 64, 0x80 + n / 64 / 64 % 64, 0x80 + n / 64 % 64, 0x80 + n % 64]
  }

  function Encode(s: string): seq<Byte> {
    if s == [] then [] else EncodeChar(s[0]) + Encode(s[1..])
  }

  /** `s` comes before `t`: at the first difference it has the smaller code point, or ends. */
  predicate Before(s: string, t: string) {
    if t == [] then false
    else if s == [] then true
    else s[0] < t[0] || (s[0] == t[0] && Before(s[1..], t[1..]))
  }

  predicate BytesBefore(s: seq<Byte>, t: seq<Byte>) {
    if t == [] then false
    else if s == [] then true
    else s[0] < t[0] || (s[0] == t[0] && BytesBefore(s[1..], t[1..]))
  }

  lemma {:induction false} BeforeIsTotal(s: string, t: string)
    ensures s == t || Before(s, t) || Before(t, s)
  {
    if s != [] && t != [] {
      BeforeIsTotal(s[1..], t[1..]);
      assert s == [s[0]] + s[1..] && t == [t[0]] + t[1..];
    }
  }

  lemma {:induction false} BeforeIsStrict(s: string, t: string)
    ensures !(Before(s, t) && Before(t, s)) && !Before(s, s)
    decreases s, t
  {
    if s != [] {
      if t != [] {
        BeforeIsStrict(s[1..], t[1..]);
      } else {
        BeforeIsStrict(s[1..], []);
      }
    }
  }

  lemma {:induction false} BeforeIsTransitive(s: string, t: string, u: string)
    requires Before(s, t) && Before(t, u)
    ensures Before(s, u)
  {
    if s != [] && s[0] == t[0] == u[0] {
      BeforeIsTransitive(s[1..], t[1..], u[1..]);
    }
  }

  lemma {:induction false} BytesBeforeIsStrict(s: seq<Byte>)
    ensures !BytesBefore(s, s)
  {
    if s != [] {
      BytesBeforeIsStrict(s[1..]);
    }
  }

  lemma {:induction false} CommonPrefix(p: seq<Byte>, s: seq<Byte>, t: seq<Byte>)
    ensures BytesBefore(p + s, p + t) <==> BytesBefore(s, t)
  {
    if p == [] {
      assert p + s == s && p + t == t;
    } else {
      CommonPrefix(p[1..], s, t);
      assert (p + s)[1..] == p[1..] + s && (p + t)[1..] == p[1..] + t;
    }
  }

  lemma SmallerDigits(n: nat, m: nat)
    requires n < m
    ensures n / 64 < m / 64 || (n / 64 == m / 64 && n % 64 < m % 64)
  {
  }

  predicate SameClass(c: char, d: char) {
    |EncodeChar(c)| == |EncodeChar(d)|
  }

  lemma LongerStartsHigher(c: char, d: char)
    requires c < d && !SameClass(c, d)
    ensures EncodeChar(c)[0] < EncodeChar(d)[0]
  {
  }

  /** Two encodings differ at a place both have, the smaller character having the smaller byte there. */
  lemma CharsDiffer(c: char, d: char) returns (k: nat)
    requires c < d
    ensures k < |EncodeChar(c)| && k < |EncodeChar(d)| && EncodeChar(c)[..k] == EncodeChar(d)[..k]
      && EncodeChar(c)[k] < EncodeChar(d)[k]
  {
    if SameClass(c, d) {
      var n, m := c as int, d as int;
      SmallerDigits(n, m);
      if n < 0x80 {
        k := 0;
      } else if n < 0x800 {
        k := if n / 64 < m / 64 then 0 else 1;
      } else {
        if n / 64 < m / 64 {
          SmallerDigits(n / 64, m / 64);
        }
        if n < 0x1_0000 {
          k := if n / 64 / 64 < m / 64 / 64 then 0 else if n / 64 < m / 64 then 1 else 2;
        } else {
          if n / 64 / 64 < m / 64 / 64 {
            SmallerDigits(n / 64 / 64, m / 64 / 64);
          }
          k := if n / 64 / 64 / 64 < m / 64 / 64 / 64 then 0 else if n / 64 / 64 < m / 64 / 64 then 1
            else if n / 64 < m / 64 then 2 else 3;
        }
      }
    } else {
      LongerStartsHigher(c, d);
      k := 0;
    }
  }

  lemma DecidedEarly(x: seq<Byte>, y: seq<Byte>, k: nat)
    requires k < |x| && k < |y| && x[..k] == y[..k] && x[k] < y[k]
    ensures BytesBefore(x, y)
  {
    CommonPrefix(x[..k], x[k..], y[k..]);
    assert x == x[..k] + x[k..] && y == x[..k] + y[k..];
  }

  lemma {:induction false} EncodingKeepsOrder(s: string, t: string)
    requires Before(s, t)
    ensures BytesBefore(Encode(s), Encode(t))
  {
    if s == [] {
      assert Encode(t) != [];
    } else if s[0] == t[0] {
      EncodingKeepsOrder(s[1..], t[1..]);
      CommonPrefix(EncodeChar(s[0]), Encode(s[1..]), Encode(t[1..]));
    } else {
      var k := CharsDiffer(s[0], t[0]);
      var x, y := EncodeChar(s[0]), EncodeChar(t[0]);
      assert Encode(s)[..k] == x[..k] && Encode(t)[..k] == y[..k];
      DecidedEarly(Encode(s), Encode(t), k);
    }
  }

  lemma EncodingIsInjective(s: string, t: string)
    requires Encode(s) == Encode(t)
    ensures s == t
  {
    BeforeIsTotal(s, t);
    if Before(s, t) {
      EncodingKeepsOrder(s, t);
    }
    if Before(t, s) {
      EncodingKeepsOrder(t, s);
    }
    BytesBeforeIsStrict(Encode(s));
  }
}
