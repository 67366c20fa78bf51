/**
 * Decimal text for integers, as Go's `strconv.Itoa` and `strconv.Atoi` produce and
 * accept it. Resource identities (`d.SetId(strconv.Itoa(id))`) and the interface VLAN's
 * remote `Name` are decimal strings, so the round trip Atoi(Itoa(i)) is what lets a
 * VLAN id survive a write and a read-back.
 */
module Strconv {
  import opened Common

  predicate IsDigit(c: char) {
    '0' <= c <= '9'
  }

  predicate AllDigits(s: string) {
    forall i :: 0 <= i < |s| ==> IsDigit(s[i])
  }

  function DigitValue(c: char): nat
    requires IsDigit(c)
  {
    (c as int) - ('0' as int)
  }

  function DigitChar(d: nat): (c: char)
    requires d < 10
    ensures IsDigit(c) && DigitValue(c) == d
  {
    (('0' as int) + d) as char
  }

  /** `strconv.Itoa` on a non-negative value: the shortest decimal numeral of `n`. */
  function NatToString(n: nat): (s: string)
    ensures 0 < |s| && AllDigits(s)
    ensures |s| > 1 ==> s[0] != '0'
    decreases n
  {
    if n < 10 then [DigitChar(n)] else NatToString(n / 10) + [DigitChar(n % 10)]
  }

  /** The value of a string of decimal digits, most significant first. */
  function DigitsValue(s: string): nat
    requires AllDigits(s)
    decreases |s|
  {
    if |s| == 0 then 0 else DigitsValue(s[..|s| - 1]) * 10 + DigitValue(s[|s| - 1])
  }

  /** An unsigned decimal numeral: one or more digits, nothing else. */
  function ParseNat(s: string): Option<nat> {
    if 0 < |s| && AllDigits(s) then Some(DigitsValue(s)) else None
  }

  lemma {:induction false} ParseNatToString(n: nat)
    ensures ParseNat(NatToString(n)) == Some(n)
    decreases n
  {
    if n >= 10 {
      ParseNatToString(n / 10);
      var s := NatToString(n);
      assert s[..|s| - 1] == NatToString(n / 10);
      assert DigitsValue(s) == DigitsValue(NatToString(n / 10)) * 10 + n % 10;
    }
  }

  /** `strconv.Itoa`. */
  function Itoa(i: int): (s: string)
    ensures 0 < |s|
    ensures i >= 0 ==> AllDigits(s)
    ensures i < 0 ==> s[0] == '-' && AllDigits(s[1..])
  {
    if i < 0 then "-" + NatToString(-i) else NatToString(i)
  }

  /**
   * `strconv.Atoi`: an optional sign followed by one or more digits. Anything else is
   * a syntax error, reported here as `None` (Go then returns 0 alongside the error).
   */
  function Atoi(s: string): (r: Option<int>)
    ensures r.Some? <==> 0 < |s| && if s[0] == '-' || s[0] == '+' then 1 < |s| && AllDigits(s[1..]) else AllDigits(s)
    ensures r.Some? && s[0] == '-' ==> r.value <= 0
    ensures r.Some? && s[0] != '-' ==> r.value >= 0
  {
    if 0 < |s| && (s[0] == '-' || s[0] == '+') then
      match ParseNat(s[1..])
      case Some(n) => Some(if s[0] == '-' then -(n as int) else n as int)
      case None => None
    else
      match ParseNat(s)
      case Some(n) => Some(n)
      case None => None
  }

  /** What Go's callers see: the parsed value, or 0 after a syntax error. */
  function AtoiOrZero(s: string): (r: int)
    ensures Atoi(s).None? ==> r == 0
    ensures r != 0 ==> Atoi(s) == Some(r)
  {
    match Atoi(s)
    case Some(i) => i
    case None => 0
  }

  /** Every decimal identity written with Itoa reads back as the same integer. */
  lemma AtoiItoa(i: int)
    ensures Atoi(Itoa(i)) == Some(i)
    ensures AtoiOrZero(Itoa(i)) == i
  {
    if i < 0 {
      var s := Itoa(i);
      assert s[1..] == NatToString(-i);
      ParseNatToString(-i);
    } else {
      ParseNatToString(i);
    }
  }

  /** Hence two different integers never share an identity string. */
  lemma ItoaInjective(i: int, j: int)
    requires Itoa(i) == Itoa(j)
    ensures i == j
  {
    AtoiItoa(i);
    AtoiItoa(j);
  }
}
