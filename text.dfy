/**
 * The string operations the tank model relies on: ASCII lower-casing, single-character
 * replacement (together Python's `str.lower()` followed by `str.replace(' ', '-')`) and
 * the decimal rendering of integers (Python's `str(int)` inside an f-string).
 */
module Text {

  predicate IsUpper(c: char) { 'A' <= c <= 'Z' }

  predicate IsDigit(c: char) { '0' <= c <= '9' }

  /** Lower-cases one ASCII letter; every other character is left alone. */
  function LowerChar(c: char): (r: char)
    ensures !IsUpper(r)
    ensures IsUpper(c) ==> r as int == c as int + 32
    ensures !IsUpper(c) ==> r == c
  {
    if IsUpper(c) then (c as int + 32) as char else c
  }

  /** Lower-cases every character of `s`. */
  function Lower(s: string): (r: string)
    ensures |r| == |s|
    ensures forall i :: 0 <= i < |s| ==> r[i] == LowerChar(s[i])
  {
    if s == [] then [] else [LowerChar(s[0])] + Lower(s[1..])
  }

  /** Replaces every occurrence of the character `from` in `s` by `to`. */
  function ReplaceChar(s: string, from: char, to: char): (r: string)
    ensures |r| == |s|
    ensures forall i :: 0 <= i < |s| ==> r[i] == if s[i] == from then to else s[i]
  {
    if s == [] then []
    else [if s[0] == from then to else s[0]] + ReplaceChar(s[1..], from, to)
  }

  /** The slug of a name: lower-cased, then every space replaced by a hyphen. */
  function Slug(s: string): (r: string)
    ensures |r| == |s|
    ensures ' ' !in r
    ensures forall i :: 0 <= i < |r| ==> !IsUpper(r[i])
    ensures forall i :: 0 <= i < |s| ==> r[i] == if s[i] == ' ' then '-' else LowerChar(s[i])
  {
    ReplaceChar(Lower(s), ' ', '-')
  }

  /** Taking the slug of a slug changes nothing. */
  lemma SlugIdempotent(s: string)
    ensures Slug(Slug(s)) == Slug(s)
  {
  }

  /** The decimal digit for `d`. */
  function Digit(d: nat): (c: char)
    requires d < 10
    ensures IsDigit(c)
  {
    (48 + d) as char
  }

  /** The numeric value of a decimal digit character. */
  function DigitValue(c: char): int
  {
    c as int - 48
  }

  /** The decimal rendering of a natural number, most significant digit first, no leading zero. */
  function NatToString(n: nat): (r: string)
    ensures r != []
    ensures forall i :: 0 <= i < |r| ==> IsDigit(r[i])
    ensures |r| > 1 ==> r[0] != '0'
    ensures r[0] == '0' <==> n == 0
  {
    if n < 10 then [Digit(n)] else NatToString(n / 10) + [Digit(n % 10)]
  }

  /** The decimal rendering of an integer: a minus sign before the magnitude when negative. */
  function IntToString(n: int): (r: string)
    ensures r != []
    ensures ' ' !in r
    ensures forall i :: 0 <= i < |r| ==> IsDigit(r[i]) || (i == 0 && r[i] == '-' && n < 0)
    ensures n < 0 <==> r[0] == '-'
    ensures n < 0 ==> |r| > 1 && r[1] != '0'
    ensures n >= 0 && |r| > 1 ==> r[0] != '0'
  {
    if n < 0 then "-" + NatToString(-n) else NatToString(n)
  }

  /** Reads a string of decimal digits back as a number (the reference for NatToString). */
  function ParseNat(s: string): nat
  {
    if s == [] then 0
    else
      var d := DigitValue(s[|s| - 1]);
      10 * ParseNat(s[..|s| - 1]) + (if 0 <= d < 10 then d else 0)
  }

  /** Reads an optionally signed decimal string back as an integer. */
  function ParseInt(s: string): int
  {
    if s != [] && s[0] == '-' then -(ParseNat(s[1..]) as int) else ParseNat(s)
  }

  lemma {:induction false} ParseNatRoundTrip(n: nat)
    ensures ParseNat(NatToString(n)) == n
  {
    var s := NatToString(n);
    if n >= 10 {
      ParseNatRoundTrip(n / 10);
      assert s[..|s| - 1] == NatToString(n / 10);
    }
  }

  /** Parsing the rendering of any integer gives the integer back. */
  lemma {:induction false} ParseIntRoundTrip(n: int)
    ensures ParseInt(IntToString(n)) == n
  {
    if n < 0 {
      ParseNatRoundTrip(-n);
      assert IntToString(n)[1..] == NatToString(-n);
    } else {
      ParseNatRoundTrip(n);
    }
  }

  /** Distinct integers have distinct renderings. */
  lemma IntToStringInjective(m: int, n: int)
    ensures IntToString(m) == IntToString(n) ==> m == n
  {
    ParseIntRoundTrip(m);
    ParseIntRoundTrip(n);
  }

  /** The space after a space-free prefix is the first space of the string. */
  lemma FirstSpace(a: string, b: string)
    requires ' ' !in a
    ensures (a + " " + b)[|a|] == ' '
    ensures forall i :: 0 <= i < |a| ==> (a + " " + b)[i] != ' '
  {
  }

  /** A space splits a string uniquely when the part before it holds no space. */
  lemma SplitAtSpace(a: string, b: string, c: string, d: string)
    requires ' ' !in a && ' ' !in c
    requires a + " " + b == c + " " + d
    ensures a == c && b == d
  {
    var s := a + " " + b;
    FirstSpace(a, b);
    FirstSpace(c, d);
    assert |a| == |c|;
    assert a == s[..|a|] == c;
    assert b == s[|a| + 1..] == d;
  }
}
