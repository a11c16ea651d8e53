/** Decimal text of Java integers: Long.parseLong / Integer.parseInt and
    Long.toString (String.valueOf on a long). */
module Decimal {
  import opened Wrappers

  const LONG_MIN: int := -0x8000_0000_0000_0000
  const LONG_MAX: int := 0x7FFF_FFFF_FFFF_FFFF
  const INT_MIN: int := -0x8000_0000
  const INT_MAX: int := 0x7FFF_FFFF

  predicate IsLong(n: int) {
    LONG_MIN <= n <= LONG_MAX
  }

  predicate IsInt(n: int) {
    INT_MIN <= n <= INT_MAX
  }

  predicate IsDigit(c: char) {
    '0' <= c <= '9'
  }

  predicate AllDigits(s: string) {
    forall i :: 0 <= i < |s| ==> IsDigit(s[i])
  }

  /** The value of a string of decimal digits, most significant first. */
  function DigitsValue(s: string): nat
    requires AllDigits(s)
  {
    if s == [] then 0
    else DigitsValue(s[..|s| - 1]) * 10 + (s[|s| - 1] as int - '0' as int)
  }

  /** The integer a Java decimal literal denotes: an optional '+' or '-'
      followed by at least one digit. Leading zeros are allowed. */
  function ParseSigned(s: string): Option<int> {
    if |s| > 0 && (s[0] == '-' || s[0] == '+') then
      var d := s[1..];
      if |d| > 0 && AllDigits(d) then
        var v: int := DigitsValue(d);
        Some(if s[0] == '-' then -v else v)
      else None
    else if |s| > 0 && AllDigits(s) then Some(DigitsValue(s))
    else None
  }

  /** Text that starts with neither a sign nor a digit is not a number. */
  lemma BadLeadNotNumber(s: string)
    requires s != [] && s[0] != '-' && s[0] != '+' && !IsDigit(s[0])
    ensures ParseSigned(s).None?
  {
    assert !AllDigits(s);
  }

  /** Long.parseLong: None where Java throws NumberFormatException
      (malformed text or a value outside the 64-bit range). */
  function ParseLong(s: string): (r: Option<int>)
    ensures r.Some? ==> IsLong(r.value) && ParseSigned(s) == r
    ensures r.None? ==> ParseSigned(s).None? || !IsLong(ParseSigned(s).value)
  {
    match ParseSigned(s)
    case Some(n) => if IsLong(n) then Some(n) else None
    case None => None
  }

  /** Integer.parseInt: as ParseLong with the 32-bit range. */
  function ParseInt(s: string): (r: Option<int>)
    ensures r.Some? ==> IsInt(r.value) && ParseSigned(s) == r
    ensures r.None? ==> ParseSigned(s).None? || !IsInt(ParseSigned(s).value)
  {
    match ParseSigned(s)
    case Some(n) => if IsInt(n) then Some(n) else None
    case None => None
  }

  function ShowNat(n: nat): (s: string)
    ensures |s| >= 1 && AllDigits(s)
  {
    if n < 10 then [('0' as int + n) as char]
    else ShowNat(n / 10) + [('0' as int + n % 10) as char]
  }

  /** Long.toString: a '-' for negative values, then the digits with no
      leading zero. */
  function Show(n: int): (s: string)
    ensures |s| >= 1
    ensures forall i :: 0 <= i < |s| ==> IsDigit(s[i]) || s[i] == '-'
  {
    if n < 0 then "-" + ShowNat(-n) else ShowNat(n)
  }

  lemma {:induction false} ShowNatValue(n: nat)
    ensures DigitsValue(ShowNat(n)) == n
  {
    if n >= 10 {
      var s := ShowNat(n);
      assert s[..|s| - 1] == ShowNat(n / 10);
      ShowNatValue(n / 10);
    }
  }

  /** Parsing the printed form of any integer gives it back. */
  lemma ParseShow(n: int)
    ensures ParseSigned(Show(n)) == Some(n)
  {
    ShowNatValue(if n < 0 then -n else n);
    if n < 0 {
      assert Show(n)[1..] == ShowNat(-n);
    }
  }

  /** Long.parseLong(Long.toString(n)) == n for every long. */
  lemma ParseLongShow(n: int)
    requires IsLong(n)
    ensures ParseLong(Show(n)) == Some(n)
  {
    ParseShow(n);
  }

  /** Distinct integers print differently. */
  lemma ShowInjective(a: int, b: int)
    requires Show(a) == Show(b)
    ensures a == b
  {
    ParseShow(a);
    ParseShow(b);
  }
}
