/** Text the programs build with fmt.Sprintf: object keys and virtual-node keys. */
module Formatting {

  /** The %d verb for a non-negative number. */
  function Decimal(n: nat): string {
    if n < 10 then [Digit(n)] else Decimal(n / 10) + [Digit(n % 10)]
  }

  function Digit(d: nat): char
    requires d < 10
  {
    "0123456789"[d]
  }

  predicate IsDigit(c: char) {
    '0' <= c <= '9'
  }

  predicate AllDigits(s: string) {
    forall k :: 0 <= k < |s| ==> IsDigit(s[k])
  }

  /** The number a text of digits stands for, in base ten. */
  function Value(s: string): nat
    requires AllDigits(s)
  {
    if s == [] then 0 else 10 * Value(s[..|s| - 1]) + (s[|s| - 1] as int - '0' as int)
  }

  /** The text is how the number is written: digits that stand for it, and no leading zero. */
  ghost predicate IsNumeral(s: string, n: nat) {
    s != [] && AllDigits(s) && Value(s) == n && (|s| > 1 ==> s[0] != '0')
  }

  lemma {:induction false} DecimalIsNumeral(n: nat)
    ensures IsNumeral(Decimal(n), n)
  {
    LastDigit(n);
    if n >= 10 {
      DecimalIsNumeral(n / 10);
      var s := Decimal(n);
      assert s[..|s| - 1] == Decimal(n / 10) && s[0] == Decimal(n / 10)[0];
      if |Decimal(n / 10)| == 1 {
        assert n / 10 > 0 && Decimal(n / 10)[..0] == [];
      }
    }
  }

  /** There is one way to write a number. */
  lemma {:induction false} NumeralIsDecimal(s: string, n: nat)
    requires IsNumeral(s, n)
    ensures s == Decimal(n)
    decreases n
  {
    var init, last := s[..|s| - 1], s[|s| - 1] as int - '0' as int;
    assert IsDigit(s[|s| - 1]) && s == init + [s[|s| - 1]];
    assert n == 10 * Value(init) + last;
    assert n / 10 == Value(init) && n % 10 == last;
    if init == [] {
      assert Value(init) == 0;
    } else {
      ValuePositive(init);
      NumeralIsDecimal(init, n / 10);
    }
  }

  lemma {:induction false} ValuePositive(s: string)
    requires s != [] && AllDigits(s) && s[0] != '0'
    ensures Value(s) > 0
  {
    assert IsDigit(s[|s| - 1]);
    if |s| > 1 {
      ValuePositive(s[..|s| - 1]);
    }
  }

  lemma {:induction false} DecimalIsDigits(n: nat)
    ensures Decimal(n) != [] && forall k :: 0 <= k < |Decimal(n)| ==> IsDigit(Decimal(n)[k])
  {
    if n >= 10 {
      DecimalIsDigits(n / 10);
    }
  }

  /** Different numbers print differently. */
  lemma {:induction false} DecimalInjective(m: nat, n: nat)
    requires Decimal(m) == Decimal(n)
    ensures m == n
  {
    LastDigit(m);
    LastDigit(n);
    var s, t := Decimal(m), Decimal(n);
    assert s[|s| - 1] == Digit(m % 10) && t[|t| - 1] == Digit(n % 10);
    DigitInjective(m % 10, n % 10);
    if m >= 10 && n >= 10 {
      assert Decimal(m / 10) == s[..|s| - 1] == t[..|t| - 1] == Decimal(n / 10);
      DecimalInjective(m / 10, n / 10);
    }
  }

  lemma DigitInjective(d: nat, e: nat)
    requires d < 10 && e < 10 && Digit(d) == Digit(e)
    ensures d == e
  {
  }

  lemma LastDigit(n: nat)
    ensures Decimal(n) == (if n < 10 then [] else Decimal(n / 10)) + [Digit(n % 10)]
    ensures n >= 10 ==> |Decimal(n)| >= 2
  {
    if n >= 10 {
      DecimalIsDigits(n / 10);
    }
  }

  /**
   * A number after a separator that ends in no digit can be read back: the key determines both the text
   * in front of the separator and the number.
   */
  lemma NumberedKeyInjective(a: string, i: nat, b: string, j: nat, separator: string)
    requires separator != "" && !IsDigit(separator[|separator| - 1])
    requires a + separator + Decimal(i) == b + separator + Decimal(j)
    ensures a == b && i == j
  {
    DecimalIsDigits(i);
    DecimalIsDigits(j);
    SameTail(a + separator, Decimal(i), b + separator, Decimal(j));
    DecimalInjective(i, j);
    assert a == (a + separator)[..|a|] && b == (b + separator)[..|b|];
  }

  lemma SameTail(x: string, p: string, y: string, q: string)
    requires x + p == y + q && x != "" && y != ""
    requires !IsDigit(x[|x| - 1]) && !IsDigit(y[|y| - 1])
    requires forall k :: 0 <= k < |p| ==> IsDigit(p[k])
    requires forall k :: 0 <= k < |q| ==> IsDigit(q[k])
    ensures x == y && p == q
  {
    var s := x + p;
    assert s == y + q;
    assert s[|x| - 1] == x[|x| - 1] && s[|y| - 1] == y[|y| - 1];
    assert forall k :: |x| <= k < |s| ==> s[k] == p[k - |x|];
    assert forall k :: |y| <= k < |s| ==> s[k] == q[k - |y|];
    assert |x| == |y|;
    assert x == s[..|x|] && y == s[..|y|] && p == s[|x|..] && q == s[|y|..];
  }
}
