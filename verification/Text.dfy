/** Decimal rendering of naturals, as fmt's %d prints them. */
module Text {

  const DIGITS := "0123456789"

  function Decimal(n: nat): (s: string)
    ensures |s| >= 1 && forall i :: 0 <= i < |s| ==> '0' <= s[i] <= '9'
  {
    if n < 10 then [DIGITS[n]] else Decimal(n / 10) + [DIGITS[n % 10]]
  }

  lemma {:induction false} DecimalInjective(a: nat, b: nat)
    requires Decimal(a) == Decimal(b)
    ensures a == b
  {
    var s, t := Decimal(a), Decimal(b);
    assert s[|s| - 1] == DIGITS[a % 10] && t[|t| - 1] == DIGITS[b % 10];
    assert a % 10 == b % 10;
    if a < 10 || b < 10 {
      assert |Decimal(a)| == 1 <==> a < 10;
      assert |Decimal(b)| == 1 <==> b < 10;
    } else {
      assert Decimal(a / 10) == s[..|s| - 1] == t[..|t| - 1] == Decimal(b / 10);
      DecimalInjective(a / 10, b / 10);
    }
  }
}
