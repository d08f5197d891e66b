/** Decimal texts of integers. */
module Decimal {
  function DigitChar(d: nat): (c: char)
    requires d < 10
    ensures '0' <= c <= '9'
  {
    ['0', '1', '2', '3', '4', '5', '6', '7', '8', '9'][d]
  }

  function NatText(n: nat): (t: string)
    ensures |t| > 0 && '0' <= t[0] <= '9'
  {
    if n < 10 then [DigitChar(n)] else NatText(n / 10) + [DigitChar(n % 10)]
  }

  function IntText(i: int): (t: string)
    ensures |t| > 0 && (t[0] == '-' <==> i < 0) && (i >= 0 ==> '0' <= t[0] <= '9')
  {
    if i < 0 then "-" + NatText(-i) else NatText(i)
  }

  /** The number a text of digits denotes. */
  function Value(t: string): nat
    requires forall i :: 0 <= i < |t| ==> '0' <= t[i] <= '9'
  {
    if t == "" then 0 else 10 * Value(t[..|t| - 1]) + (t[|t| - 1] as int - '0' as int)
  }

  lemma DigitValue(d: nat)
    requires d < 10
    ensures DigitChar(d) as int - '0' as int == d
  {}

  /** Decimal texts consist of digits, denote their number, and start with no idle zero. */
  lemma {:induction false} NatTextDenotes(n: nat)
    ensures forall i :: 0 <= i < |NatText(n)| ==> '0' <= NatText(n)[i] <= '9'
    ensures Value(NatText(n)) == n
    ensures n > 0 ==> NatText(n)[0] != '0'
  {
    DigitValue(n % 10);
    if n >= 10 {
      NatTextDenotes(n / 10);
      var t := NatText(n);
      assert t[..|t| - 1] == NatText(n / 10);
    } else {
      assert Value("") == 0 && NatText(n)[..0] == "";
    }
  }
}
