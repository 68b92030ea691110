/** Canonical decimal text of unbounded integers: what `cpp_int::str` prints, read back. */
module Decimals {

  function Digit(d: nat): char
    requires d < 10
  {
    '0' + d as char
  }

  predicate IsDigit(c: char) { '0' <= c <= '9' }

  function NatText(n: nat): (s: string)
    ensures |s| > 0 && forall i :: 0 <= i < |s| ==> IsDigit(s[i])
    ensures s[0] == '0' ==> s == "0"
    decreases n
  {
    if n < 10 then [Digit(n)] else NatText(n / 10) + [Digit(n % 10)]
  }

  predicate AllDigits(s: string) {
    forall i :: 0 <= i < |s| ==> IsDigit(s[i])
  }

  function NatValue(s: string): nat
    requires AllDigits(s)
  {
    if s == [] then 0 else 10 * NatValue(s[..|s| - 1]) + (s[|s| - 1] as int - '0' as int)
  }

  function IntText(i: int): string {
    if i < 0 then "-" + NatText(-i) else NatText(i)
  }

  /** An optional minus sign followed by at least one digit. */
  predicate Numeral(s: string) {
    s != [] && if s[0] == '-' then |s| > 1 && AllDigits(s[1..]) else AllDigits(s)
  }

  /** A numeral as `IntText` writes it: no leading zero and no negative zero. */
  predicate Canonical(s: string) {
    Numeral(s) && if s[0] == '-' then s[1] != '0' else s[0] == '0' ==> |s| == 1
  }

  function IntValue(s: string): int
    requires Numeral(s)
  {
    if s[0] == '-' then -(NatValue(s[1..]) as int) else NatValue(s)
  }

  lemma {:induction false} NatRoundTrip(n: nat)
    ensures NatValue(NatText(n)) == n
    decreases n
  {
    var s := NatText(n);
    if n >= 10 {
      NatRoundTrip(n / 10);
      assert s[..|s| - 1] == NatText(n / 10);
    } else {
      assert s[..|s| - 1] == [];
    }
  }

  lemma {:induction false} NonzeroText(n: nat)
    ensures n > 0 ==> NatText(n)[0] != '0'
  {
    NatRoundTrip(n);
    if NatText(n)[0] == '0' {
      assert NatText(n) == "0";
      assert NatText(n)[..0] == [];
    }
  }

  /** Printing an integer and reading it back gives the integer, and the print is canonical. */
  lemma {:induction false} IntRoundTrip(i: int)
    ensures Canonical(IntText(i)) && IntValue(IntText(i)) == i
  {
    var n: nat := if i < 0 then -i else i;
    NatRoundTrip(n);
    NonzeroText(n);
    if i < 0 { assert IntText(i)[1..] == NatText(n); }
  }

  lemma {:induction false} IntTextInjective(i: int, j: int)
    requires IntText(i) == IntText(j)
    ensures i == j
  {
    IntRoundTrip(i);
    IntRoundTrip(j);
  }
}
