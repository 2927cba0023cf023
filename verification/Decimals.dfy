/**
 Decimal numbers as text, and splitting text at a separator.
 */
module Decimals {

  predicate IsDigit(c: char) { '0' <= c <= '9' }

  predicate AllDigits(s: string) { forall i :: 0 <= i < |s| ==> IsDigit(s[i]) }

  function Digit(d: nat): (c: char)
    requires d < 10
    ensures IsDigit(c) && c as int - '0' as int == d
  {
    "0123456789"[d]
  }

  /** The number in decimal, without leading zeros. */
  function Text(n: nat): (s: string)
    ensures s != "" && AllDigits(s)
  {
    if n < 10 then [Digit(n)] else Text(n / 10) + [Digit(n % 10)]
  }

  function Value(s: string): nat
    requires AllDigits(s)
  {
    if s == "" then 0 else 10 * Value(s[..|s| - 1]) + (s[|s| - 1] as int - '0' as int)
  }

  lemma {:induction false} ValueOfText(n: nat)
    ensures Value(Text(n)) == n
  {
    if n < 10 {
      assert Value([Digit(n)][..0]) == 0;
    } else {
      ValueOfText(n / 10);
      assert Text(n)[..|Text(n)| - 1] == Text(n / 10);
    }
  }

  function IntText(n: int): string
  {
    if n < 0 then "-" + Text(-n) else Text(n)
  }

  lemma IntTextTells(m: int, n: int)
    requires IntText(m) == IntText(n)
    ensures m == n
  {
    ValueOfText(if m < 0 then -m else m);
    ValueOfText(if n < 0 then -n else n);
    if m < 0 { assert IntText(m)[1..] == Text(-m); } else { assert IsDigit(IntText(m)[0]); }
    if n < 0 { assert IntText(n)[1..] == Text(-n); } else { assert IsDigit(IntText(n)[0]); }
  }

  lemma SeparatorInLonger(c: char, a: string, x: string, b: string, y: string)
    requires a + [c] + x == b + [c] + y
    ensures |a| < |b| ==> c in b && c in x
  {
    var s := a + [c] + x;
    assert s[|a|] == c && (b + [c] + y)[|b|] == c;
    if |a| < |b| {
      assert b[|a|] == s[|a|];
      assert x[|b| - |a| - 1] == s[|b|];
    }
  }

  /** Text splits in one way at the first, or the last, separator. */
  lemma SplitsOneWay(c: char, a: string, x: string, b: string, y: string)
    requires a + [c] + x == b + [c] + y
    requires (c !in a && c !in b) || (c !in x && c !in y)
    ensures a == b && x == y
  {
    SeparatorInLonger(c, a, x, b, y);
    SeparatorInLonger(c, b, y, a, x);
    var s := a + [c] + x;
    assert s[..|a|] == a && s[..|b|] == b && s[|a| + 1..] == x && s[|b| + 1..] == y;
  }
}
