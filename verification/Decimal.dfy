/** Decimal numerals, as appended to generated names. */
module Decimal {

  function Digit(d: nat): char
    requires d < 10
  {
    ['0', '1', '2', '3', '4', '5', '6', '7', '8', '9'][d]
  }

  function Itoa(n: nat): (s: string)
    ensures s != ""
  {
    if n < 10 then [Digit(n)] else Itoa(n / 10) + [Digit(n % 10)]
  }

  lemma DigitInjective(a: nat, b: nat)
    requires a < 10 && b < 10 && Digit(a) == Digit(b)
    ensures a == b
  {
  }

  /** Different numbers have different numerals. */
  lemma {:induction false} ItoaInjective(m: nat, n: nat)
    requires Itoa(m) == Itoa(n)
    ensures m == n
  {
    var s := Itoa(m);
    assert s[|s| - 1] == Digit(m % 10) == Digit(n % 10);
    DigitInjective(m % 10, n % 10);
    if m >= 10 && n >= 10 {
      assert s[..|s| - 1] == Itoa(m / 10) == Itoa(n / 10);
      ItoaInjective(m / 10, n / 10);
    }
  }

  lemma PrefixedInjective(prefix: string, m: nat, n: nat)
    requires prefix + Itoa(m) == prefix + Itoa(n)
    ensures m == n
  {
    assert (prefix + Itoa(m))[|prefix|..] == Itoa(m);
    assert (prefix + Itoa(n))[|prefix|..] == Itoa(n);
    ItoaInjective(m, n);
  }

  /** The number that a sequence of decimal digits stands for. */
  function ValueOf(s: string): int {
    if s == "" then 0 else 10 * ValueOf(s[..|s| - 1]) + (s[|s| - 1] as int - '0' as int)
  }

  /** A numeral is made of decimal digits and reads as its number. */
  lemma {:induction false} ItoaReadsBack(n: nat)
    ensures forall i :: 0 <= i < |Itoa(n)| ==> '0' <= Itoa(n)[i] <= '9'
    ensures ValueOf(Itoa(n)) == n
  {
    var s := Itoa(n);
    if n < 10 {
      assert s[..0] == "";
    } else {
      ItoaReadsBack(n / 10);
      assert s[..|s| - 1] == Itoa(n / 10);
    }
  }
}
