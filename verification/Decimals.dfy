/** Decimal numerals of natural numbers, as String(n) writes them. */
module Decimals {
  import opened Collections

  function Digit(d: nat): char
    requires d < 10
  {
    '0' + (d as char)
  }

  function Decimal(n: nat): (s: string)
    ensures s != []
  {
    if n < 10 then [Digit(n)] else Decimal(n / 10) + [Digit(n % 10)]
  }

  lemma {:induction false} DecimalInjective(m: nat, n: nat)
    requires Decimal(m) == Decimal(n)
    ensures m == n
  {
    var dm, dn := Decimal(m), Decimal(n);
    assert Last(dm) == Digit(m % 10) && Last(dn) == Digit(n % 10);
    if m >= 10 || n >= 10 {
      assert |Decimal(m / 10)| >= 1 && |Decimal(n / 10)| >= 1;
      assert m >= 10 ==> Front(dm) == Decimal(m / 10);
      assert n >= 10 ==> Front(dn) == Decimal(n / 10);
      assert m >= 10 && n >= 10;
      DecimalInjective(m / 10, n / 10);
    }
  }

  function Power10(k: nat): nat {
    if k == 0 then 1 else 10 * Power10(k - 1)
  }

  /** A numeral has at most k digits exactly when the number is below 10 to the k. */
  lemma {:induction false} DecimalLength(n: nat, k: nat)
    requires k >= 1
    ensures |Decimal(n)| <= k <==> n < Power10(k)
  {
    if n >= 10 {
      if k == 1 {
        assert Power10(1) == 10 * Power10(0);
      } else {
        DecimalLength(n / 10, k - 1);
      }
    } else {
      PowerGrows(k);
    }
  }

  lemma {:induction false} PowerGrows(k: nat)
    requires k >= 1
    ensures Power10(k) >= 10
  {
    if k == 1 {
      assert Power10(1) == 10 * Power10(0);
    } else {
      PowerGrows(k - 1);
    }
  }
}
