/**
 Decimal numerals (fmt's %d, strconv.Itoa) of natural numbers, as they appear in message ids, action keys and
 reader names.  What matters to the other modules is that the texts determine what they were made from: two
 numbers with the same numeral are equal, and a workflow id and a number behind the last colon can be told
 apart even when the id has colons of its own.
 */
module Decimals {

  function Digit(n: nat): char
    requires n < 10
  {
    "0123456789"[n]
  }

  predicate IsDigit(c: char) { '0' <= c <= '9' }

  function Decimal(n: nat): (s: string)
    ensures s != [] && forall c :: c in s ==> IsDigit(c)
  {
    if n < 10 then [Digit(n)] else Decimal(n / 10) + [Digit(n % 10)]
  }

  lemma {:induction false} DecimalInjective(a: nat, b: nat)
    requires Decimal(a) == Decimal(b)
    ensures a == b
    decreases a
  {
    var s, t := Decimal(a), Decimal(b);
    assert s[|s| - 1] == Digit(a % 10) && t[|t| - 1] == Digit(b % 10);
    assert a >= 10 ==> |s| > 1 && s[..|s| - 1] == Decimal(a / 10);
    assert b >= 10 ==> |t| > 1 && t[..|t| - 1] == Decimal(b / 10);
    if a >= 10 && b >= 10 {
      DecimalInjective(a / 10, b / 10);
    }
  }

  /** `%s:%d`: message ids and action keys. */
  function Tagged(w: string, n: nat): string { w + ":" + Decimal(n) }

  /** What follows the last colon is determined. */
  lemma {:induction false} LastColon(a: string, s: string, b: string, t: string)
    requires a + ":" + s == b + ":" + t && ':' !in s && ':' !in t
    ensures a == b && s == t
  {
    var x, y := a + ":" + s, b + ":" + t;
    assert x[|a|] == ':' && y[|b|] == ':';
    assert forall i :: |a| < i < |x| ==> x[i] == s[i - |a| - 1] && x[i] in s;
    assert forall i :: |b| < i < |y| ==> y[i] == t[i - |b| - 1] && y[i] in t;
    assert a == x[..|a|] && b == y[..|b|] && s == x[|a| + 1..] && t == y[|b| + 1..];
  }

  /** The text determines both parts, even when the first has colons in it. */
  lemma {:induction false} TaggedInjective(v: string, m: nat, w: string, n: nat)
    ensures Tagged(v, m) == Tagged(w, n) <==> v == w && m == n
  {
    if Tagged(v, m) == Tagged(w, n) {
      LastColon(v, Decimal(m), w, Decimal(n));
      DecimalInjective(m, n);
    }
  }
}
