/** Decimal numerals, as Go prints integers. */
module Decimal {
  import opened Wrappers
  import opened Base64

  const MINUS: byte := 45

  predicate IsDigit(c: byte) {
    48 <= c <= 57
  }

  predicate AllDigits(s: Bytes) {
    forall i :: 0 <= i < |s| ==> IsDigit(s[i])
  }

  function Digit(d: nat): byte
    requires d < 10
  {
    d + 48
  }

  function ValueOf(c: byte): nat
    requires IsDigit(c)
  {
    c as int - 48
  }

  function PrintNat(n: nat): (s: Bytes)
    ensures |s| > 0 && AllDigits(s)
  {
    if n < 10 then [Digit(n)] else PrintNat(n / 10) + [Digit(n % 10)]
  }

  function Print(n: int): Bytes {
    if n < 0 then [MINUS] + PrintNat(-n) else PrintNat(n)
  }

  function ParseNat(s: Bytes): nat
    requires AllDigits(s)
  {
    if s == [] then 0
    else
      assert IsDigit(s[|s| - 1]);
      10 * ParseNat(s[..|s| - 1]) + ValueOf(s[|s| - 1])
  }

  function Parse(s: Bytes): Option<int> {
    if s == [] then None
    else if s[0] == MINUS then
      if |s| > 1 && AllDigits(s[1..]) then Some(0 - ParseNat(s[1..]) as int) else None
    else if AllDigits(s) then Some(ParseNat(s))
    else None
  }

  lemma {:induction false} ParsePrintNat(n: nat)
    ensures ParseNat(PrintNat(n)) == n
  {
    if n >= 10 {
      var s := PrintNat(n);
      assert s[..|s| - 1] == PrintNat(n / 10);
      ParsePrintNat(n / 10);
    }
  }

  /** Every integer is read back from its numeral. */
  lemma ParsePrint(n: int)
    ensures Parse(Print(n)) == Some(n)
  {
    if n < 0 {
      ParsePrintNat(-n);
      assert Print(n)[1..] == PrintNat(-n);
    } else {
      ParsePrintNat(n);
      assert IsDigit(PrintNat(n)[0]);
    }
  }

  /** 0, 3, -12 and 907. */
  lemma Examples()
    ensures Print(0) == [48] && Print(3) == [51] && Print(-12) == [45, 49, 50] && Print(907) == [57, 48, 55]
  {
    assert PrintNat(12) == PrintNat(1) + [50];
    assert PrintNat(907) == PrintNat(90) + [55] && PrintNat(90) == PrintNat(9) + [48];
  }
}
