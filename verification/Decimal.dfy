/** Natural numbers in decimal, without leading zeros. */
module Decimal {
  import opened Wrappers

  predicate IsDigit(c: char) {
    '0' <= c <= '9'
  }

  function DigitChar(d: nat): (c: char)
    requires d < 10
    ensures IsDigit(c)
  {
    d as char + '0'
  }

  function DigitValue(c: char): nat
    requires IsDigit(c)
  {
    (c - '0') as nat
  }

  predicate AllDigits(s: string) {
    forall k :: 0 <= k < |s| ==> IsDigit(s[k])
  }

  function Render(n: nat): (s: string)
    ensures |s| > 0 && AllDigits(s)
    ensures |s| > 1 ==> s[0] != '0'
  {
    if n < 10 then [DigitChar(n)] else Render(n / 10) + [DigitChar(n % 10)]
  }

  function Value(s: string): nat
    requires AllDigits(s)
  {
    if s == "" then 0 else 10 * Value(s[..|s| - 1]) + DigitValue(s[|s| - 1])
  }

  /** `0`, or digits that start with another one. */
  predicate IsNumber(s: string) {
    |s| > 0 && AllDigits(s) && (|s| > 1 ==> s[0] != '0')
  }

  lemma {:induction false} ValueOfRender(n: nat)
    ensures Value(Render(n)) == n
  {
    var s := Render(n);
    if n >= 10 {
      ValueOfRender(n / 10);
      assert s[..|s| - 1] == Render(n / 10);
    } else {
      assert s[..|s| - 1] == "";
    }
  }

  lemma {:induction false} Positive(s: string)
    requires IsNumber(s) && s[0] != '0'
    ensures Value(s) > 0
  {
    if |s| > 1 {
      assert s[..|s| - 1][0] == s[0];
      Positive(s[..|s| - 1]);
    } else {
      assert s[..|s| - 1] == "";
    }
  }

  /** The decimal form is unique. */
  lemma {:induction false} RenderOfValue(s: string)
    requires IsNumber(s)
    ensures Render(Value(s)) == s
  {
    var front := s[..|s| - 1];
    if |s| == 1 {
      assert front == "";
    } else {
      assert front[0] == s[0];
      Positive(front);
      RenderOfValue(front);
      assert Value(s) / 10 == Value(front) && Value(s) % 10 == DigitValue(s[|s| - 1]);
      assert s == front + [s[|s| - 1]];
    }
  }

  /** How far the digits at the start of a text reach. */
  function DigitsEnd(s: string): (k: nat)
    ensures k <= |s| && AllDigits(s[..k])
    ensures k < |s| ==> !IsDigit(s[k])
  {
    if s == "" || !IsDigit(s[0]) then 0
    else
      var k := DigitsEnd(s[1..]);
      assert s[..k + 1] == [s[0]] + s[1..][..k];
      k + 1
  }

  /** The number at the start of a text, and what follows it. */
  function ReadNumber(s: string): Option<(nat, string)> {
    var k := DigitsEnd(s);
    if IsNumber(s[..k]) then Some((Value(s[..k]), s[k..])) else None
  }

  lemma {:induction false} DigitsEndIs(s: string, k: nat)
    requires k <= |s| && AllDigits(s[..k])
    requires k < |s| ==> !IsDigit(s[k])
    ensures DigitsEnd(s) == k
  {
    if k > 0 {
      assert s[0] == s[..k][0];
      assert s[1..][..k - 1] == s[..k][1..];
      DigitsEndIs(s[1..], k - 1);
    }
  }

  lemma ReadNumberReads(n: nat, rest: string)
    requires rest == "" || !IsDigit(rest[0])
    ensures ReadNumber(Render(n) + rest) == Some((n, rest))
  {
    var digits := Render(n);
    var s := digits + rest;
    assert s[..|digits|] == digits && s[|digits|..] == rest;
    DigitsEndIs(s, |digits|);
    ValueOfRender(n);
  }

  lemma ReadNumberIsRendered(s: string)
    ensures match ReadNumber(s)
            case Some((n, rest)) => s == Render(n) + rest && (rest == "" || !IsDigit(rest[0]))
            case None => true
  {
    var k := DigitsEnd(s);
    if IsNumber(s[..k]) { RenderOfValue(s[..k]); }
  }
}
