/**
 * The pieces of Swift string interpolation the marker styles use: decimal
 * text of an `Int` (`"\(n)"`) and of a `Bool`, and substring search
 * (`String.contains`). A decimal parser is the partner of the printer: the
 * round trip shows that the number embedded in a style string determines the
 * number.
 */
module Text {
  import opened Optional

  predicate IsDigit(c: char) {
    '0' <= c <= '9'
  }

  predicate AllDigits(s: string) {
    forall i :: 0 <= i < |s| ==> IsDigit(s[i])
  }

  function DigitChar(d: nat): (c: char)
    requires d < 10
    ensures IsDigit(c)
  {
    (48 + d) as char
  }

  function DigitValue(c: char): (d: nat)
    requires IsDigit(c)
    ensures d < 10
  {
    c as int - 48
  }

  /** Decimal text of a natural number, most significant digit first, no leading zeros. */
  function NatToString(n: nat): (s: string)
    ensures 1 <= |s| && AllDigits(s)
    ensures n < 10 <==> |s| == 1
    decreases n
  {
    if n < 10 then [DigitChar(n)] else NatToString(n / 10) + [DigitChar(n % 10)]
  }

  /** Swift's `"\(n)"` for an `Int`: a minus sign before negative numbers. */
  function IntToString(n: int): (s: string)
  {
    if n < 0 then "-" + NatToString(-n) else NatToString(n)
  }

  /** Swift's `"\(b)"` for a `Bool`. */
  function BoolText(b: bool): string {
    if b then "true" else "false"
  }

  function ParseNat(s: string): (n: nat)
    requires 1 <= |s| && AllDigits(s)
    decreases |s|
  {
    if |s| == 1 then DigitValue(s[0])
    else ParseNat(s[..|s| - 1]) * 10 + DigitValue(s[|s| - 1])
  }

  /** Reads back what IntToString writes; None for anything that is not an optional minus and digits. */
  function ParseInt(s: string): Option<int> {
    if 2 <= |s| && s[0] == '-' && AllDigits(s[1..]) then
      var magnitude: int := ParseNat(s[1..]);
      Some(-magnitude)
    else if 1 <= |s| && AllDigits(s) then Some(ParseNat(s) as int)
    else None
  }

  lemma {:induction false} NatToStringRoundTrip(n: nat)
    ensures ParseNat(NatToString(n)) == n
    decreases n
  {
    if n >= 10 {
      NatToStringRoundTrip(n / 10);
      var s := NatToString(n);
      assert s[..|s| - 1] == NatToString(n / 10);
    }
  }

  /** The decimal text of an Int determines the Int. */
  lemma IntToStringRoundTrip(n: int)
    ensures ParseInt(IntToString(n)) == Some(n)
  {
    var s := IntToString(n);
    if n < 0 {
      NatToStringRoundTrip(-n);
      assert s[1..] == NatToString(-n);
      assert !IsDigit(s[0]);
    } else {
      NatToStringRoundTrip(n);
      assert IsDigit(s[0]);
    }
  }

  lemma IntToStringInjective(a: int, b: int)
    requires IntToString(a) == IntToString(b)
    ensures a == b
  {
    IntToStringRoundTrip(a);
    IntToStringRoundTrip(b);
  }

  /** `t` occurs in `s` starting at index `i`. */
  predicate OccursAt(s: string, t: string, i: int) {
    0 <= i && i + |t| <= |s| && s[i..i + |t|] == t
  }

  /** Swift's `s.contains(t)` for strings. */
  predicate Contains(s: string, t: string) {
    exists i | 0 <= i <= |s| - |t| :: OccursAt(s, t, i)
  }

  /** Text between a common prefix and a common suffix is determined by the whole. */
  lemma SameBetween(p: string, x: string, y: string, q: string)
    requires p + x + q == p + y + q
    ensures x == y
  {
    assert |x| == |y|;
    assert x == (p + x + q)[|p|..|p| + |x|];
    assert y == (p + y + q)[|p|..|p| + |y|];
  }

  /** Text after a common prefix is determined by the whole. */
  lemma SameAfter(p: string, x: string, y: string)
    requires p + x == p + y
    ensures x == y
  {
    assert x == (p + x)[|p|..];
    assert y == (p + y)[|p|..];
  }

  lemma ContainsItself(t: string)
    ensures Contains(t, t)
  {
    assert OccursAt(t, t, 0);
  }

  /** An occurrence survives adding text on either side. */
  lemma ContainsExtended(a: string, s: string, b: string, t: string)
    requires Contains(s, t)
    ensures Contains(a + s + b, t)
  {
    var i :| 0 <= i <= |s| - |t| && OccursAt(s, t, i);
    assert (a + s + b)[|a| + i..|a| + i + |t|] == s[i..i + |t|];
    assert OccursAt(a + s + b, t, |a| + i);
  }

  /** Every second piece of a seven-piece concatenation occurs in it. */
  lemma ContainsAlternatePieces(p0: string, p1: string, p2: string, p3: string, p4: string, p5: string, p6: string)
    ensures Contains(p0 + p1 + p2 + p3 + p4 + p5 + p6, p1)
    ensures Contains(p0 + p1 + p2 + p3 + p4 + p5 + p6, p3)
    ensures Contains(p0 + p1 + p2 + p3 + p4 + p5 + p6, p5)
  {
    var s := p0 + p1 + p2 + p3 + p4 + p5 + p6;
    ContainsItself(p1);
    ContainsExtended(p0, p1, p2 + p3 + p4 + p5 + p6, p1);
    assert s == p0 + p1 + (p2 + p3 + p4 + p5 + p6);
    ContainsItself(p3);
    ContainsExtended(p0 + p1 + p2, p3, p4 + p5 + p6, p3);
    assert s == p0 + p1 + p2 + p3 + (p4 + p5 + p6);
    ContainsItself(p5);
    ContainsExtended(p0 + p1 + p2 + p3 + p4, p5, p6, p5);
  }

  /** What occurs in the first piece of a seven-piece concatenation occurs in the whole. */
  lemma ContainsFromFirstPiece(p0: string, p1: string, p2: string, p3: string, p4: string, p5: string, p6: string,
                               t: string)
    requires Contains(p0, t)
    ensures Contains(p0 + p1 + p2 + p3 + p4 + p5 + p6, t)
  {
    ContainsExtended([], p0, p1 + p2 + p3 + p4 + p5 + p6, t);
    assert [] + p0 + (p1 + p2 + p3 + p4 + p5 + p6) == p0 + p1 + p2 + p3 + p4 + p5 + p6;
  }
}
