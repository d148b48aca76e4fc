/** Text helpers shared by the model: decimal rendering of integers, joining
    with a separator, and the one-decimal fixed-point rendering of `%.1f`. */
module Text {

  predicate IsDigit(c: char) {
    '0' <= c <= '9'
  }

  function DigitChar(d: nat): (c: char)
    requires d < 10
    ensures IsDigit(c) && (c - '0') as nat == d
  {
    "0123456789"[d]
  }

  /** Decimal digits of `n`, most significant first, without leading zeros. */
  function NatToString(n: nat): (s: string)
    ensures |s| >= 1
    ensures forall i :: 0 <= i < |s| ==> IsDigit(s[i])
    ensures |s| > 1 ==> s[0] != '0'
  {
    if n < 10 then [DigitChar(n)] else NatToString(n / 10) + [DigitChar(n % 10)]
  }

  /** Decimal rendering of an integer, as both Java and a JavaScript template
      literal produce it: a leading '-' for negative values. */
  function IntToString(i: int): string {
    if i < 0 then "-" + NatToString(-i) else NatToString(i)
  }

  /** The value of a string of decimal digits: the inverse of NatToString. */
  function DigitsValue(s: string): nat
    requires forall i :: 0 <= i < |s| ==> IsDigit(s[i])
  {
    if s == [] then 0
    else
      assert IsDigit(s[|s| - 1]);
      DigitsValue(s[..|s| - 1]) * 10 + (s[|s| - 1] as int - '0' as int)
  }

  lemma {:induction false} NatToStringRoundTrip(n: nat)
    ensures DigitsValue(NatToString(n)) == n
  {
    if n >= 10 {
      NatToStringRoundTrip(n / 10);
      var s := NatToString(n);
      assert s[..|s| - 1] == NatToString(n / 10);
    }
  }

  /** `String.join(sep, parts)` / `Array.prototype.join`. */
  function Join(sep: string, parts: seq<string>): string {
    if |parts| == 0 then ""
    else if |parts| == 1 then parts[0]
    else parts[0] + sep + Join(sep, parts[1..])
  }

  /** Appending in steps is appending the joined pieces. */
  lemma Concat3(a: string, b: string, c: string)
    ensures (a + b) + c == a + (b + c)
  {
  }

  lemma Concat4(a: string, b: string, c: string, p: string)
    ensures ((p + a) + b) + c == p + (a + b + c)
  {
  }

  lemma JoinTwo(sep: string, a: string, b: string)
    ensures Join(sep, [a, b]) == a + sep + b
  {
    assert [a, b][1..] == [b];
  }

  /** Joining one more part appends the separator and that part, so Join is
      the left-to-right fold `String.join` performs. */
  lemma {:induction false} JoinAppend(sep: string, parts: seq<string>, p: string)
    requires |parts| >= 1
    ensures Join(sep, parts + [p]) == Join(sep, parts) + sep + p
  {
    var ps := parts + [p];
    if |parts| == 1 {
      assert ps[1..] == [p];
    } else {
      assert ps[1..] == parts[1..] + [p];
      JoinAppend(sep, parts[1..], p);
    }
  }

  /** `sub` sits in `s` starting at offset `i`. */
  predicate Occurs(sub: string, s: string, i: int) {
    0 <= i && i + |sub| <= |s| && s[i..i + |sub|] == sub
  }

  ghost predicate Contains(s: string, sub: string) {
    exists i :: Occurs(sub, s, i)
  }

  lemma ContainsInSuffix(a: string, b: string, sub: string)
    requires Contains(b, sub)
    ensures Contains(a + b, sub)
  {
    var i :| Occurs(sub, b, i);
    assert (a + b)[|a| + i..|a| + i + |sub|] == b[i..i + |sub|];
    assert Occurs(sub, a + b, |a| + i);
  }

  lemma ContainsInPrefix(a: string, b: string, sub: string)
    requires Contains(a, sub)
    ensures Contains(a + b, sub)
  {
    var i :| Occurs(sub, a, i);
    assert (a + b)[i..i + |sub|] == a[i..i + |sub|];
    assert Occurs(sub, a + b, i);
  }

  /** Every part occurs in the joined text. */
  lemma {:induction false} JoinContainsParts(sep: string, parts: seq<string>, k: nat)
    requires k < |parts|
    ensures Contains(Join(sep, parts), parts[k])
  {
    if |parts| == 1 {
      assert Occurs(parts[0], Join(sep, parts), 0);
    } else if k == 0 {
      assert Join(sep, parts) == parts[0] + (sep + Join(sep, parts[1..]));
      assert Occurs(parts[0], parts[0], 0);
      ContainsInPrefix(parts[0], sep + Join(sep, parts[1..]), parts[0]);
    } else {
      JoinContainsParts(sep, parts[1..], k - 1);
      assert Join(sep, parts) == (parts[0] + sep) + Join(sep, parts[1..]);
      ContainsInSuffix(parts[0] + sep, Join(sep, parts[1..]), parts[k]);
    }
  }

  /** Rounds a non-negative value to a whole number of tenths, halves upwards
      (the HALF_UP rounding of Java's `Formatter`). */
  function RoundTenths(x: real): (n: nat)
    requires x >= 0.0
    ensures n as real - 0.5 <= x * 10.0 < n as real + 0.5
  {
    (x * 10.0 + 0.5).Floor
  }

  /** `n` tenths written with exactly one digit after the point. */
  function TenthsToString(n: nat): string {
    NatToString(n / 10) + "." + [DigitChar(n % 10)]
  }

  /** Reading the digits back recovers the number of tenths. */
  lemma TenthsToStringParses(n: nat)
    ensures var s := TenthsToString(n); var w := NatToString(n / 10);
            |s| == |w| + 2 && s[..|w|] == w && s[|w|] == '.' &&
            DigitsValue(w) * 10 + (s[|w| + 1] as int - '0' as int) == n
  {
    NatToStringRoundTrip(n / 10);
  }

  /** `String.format("%.1f", x)` over the reals: one digit after the point,
      HALF_UP rounding of the magnitude, a '-' for negative values. */
  function FormatFixed1(x: real): string {
    if x < 0.0 then "-" + TenthsToString(RoundTenths(-x)) else TenthsToString(RoundTenths(x))
  }

  lemma FormatWholeTenths(n: nat)
    ensures FormatFixed1(n as real / 10.0) == TenthsToString(n)
  {
    var x := n as real / 10.0;
    var r := RoundTenths(x);
    assert x * 10.0 == n as real;
    assert r == n;
  }
}
