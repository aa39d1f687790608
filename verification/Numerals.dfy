// Decimal task identifiers: printing, recognising and reading them back.
module Numerals {

  predicate IsDigit(c: char) {
    '0' <= c <= '9'
  }

  predicate AllDigits(s: string) {
    forall c :: c in s ==> IsDigit(c)
  }

  function Digit(n: nat): (c: char)
    requires n < 10
    ensures IsDigit(c) && c as int - '0' as int == n
  {
    ('0' as int + n) as char
  }

  function Value(s: string): nat
    requires AllDigits(s)
  {
    if s == [] then 0
    else
      assert s[|s| - 1] in s;
      10 * Value(s[..|s| - 1]) + (s[|s| - 1] as int - '0' as int)
  }

  function Decimal(n: nat): (s: string)
    ensures AllDigits(s) && s != []
  {
    if n < 10 then [Digit(n)] else Decimal(n / 10) + [Digit(n % 10)]
  }

  lemma {:induction false} DecimalReadsBack(n: nat)
    ensures Value(Decimal(n)) == n
    ensures n > 0 ==> Decimal(n)[0] != '0'
  {
    if n < 10 {
      assert Decimal(n)[..0] == [];
    } else {
      DecimalReadsBack(n / 10);
      assert Decimal(n)[..|Decimal(n)| - 1] == Decimal(n / 10);
    }
  }

  lemma DecimalInjective(m: nat, n: nat)
    requires Decimal(m) == Decimal(n)
    ensures m == n
  {
    DecimalReadsBack(m);
    DecimalReadsBack(n);
  }

  /** `$` of the identifier pattern also matches before one final line break. */
  function WithoutFinalBreak(s: string): string {
    if s != [] && s[|s| - 1] == '\n' then s[..|s| - 1] else s
  }

  /** A positive decimal without leading zero. */
  predicate IsNumericId(s: string) {
    var t := WithoutFinalBreak(s);
    t != [] && t[0] != '0' && AllDigits(t)
  }

  function NumericValue(s: string): nat
    requires IsNumericId(s)
  {
    Value(WithoutFinalBreak(s))
  }

  lemma DecimalIsNumericId(n: nat)
    requires n > 0
    ensures IsNumericId(Decimal(n)) && NumericValue(Decimal(n)) == n
  {
    DecimalReadsBack(n);
    var s := Decimal(n);
    assert s[|s| - 1] in s;
  }
}
