/** Decimal text of 64-bit integers, as strconv writes and reads it. */
module Decimal {
  import opened Jobs

  const MAX_INT64: int := 0x7FFF_FFFF_FFFF_FFFF
  const MIN_INT64: int := -0x8000_0000_0000_0000

  predicate InInt64(i: int) { MIN_INT64 <= i <= MAX_INT64 }

  predicate IsDigit(c: char) { '0' <= c <= '9' }

  function DigitValue(c: char): nat
    requires IsDigit(c)
  {
    c as int - '0' as int
  }

  function Digits(n: nat): (s: string)
    ensures s != [] && forall i :: 0 <= i < |s| ==> IsDigit(s[i])
  {
    if n < 10 then [('0' as int + n) as char]
    else Digits(n / 10) + [('0' as int + n % 10) as char]
  }

  function Itoa(i: int): string {
    if i < 0 then "-" + Digits(-i) else Digits(i)
  }

  function DigitsValue(s: string): nat
    requires forall i :: 0 <= i < |s| ==> IsDigit(s[i])
  {
    if s == [] then 0 else DigitsValue(s[..|s| - 1]) * 10 + DigitValue(s[|s| - 1])
  }

  /** An optional sign followed by at least one digit, within 64-bit range; anything else is an error. */
  function ParseInt(s: string): Option<int> {
    var signed := s != [] && (s[0] == '-' || s[0] == '+');
    var digits := if signed then s[1..] else s;
    if digits == [] || exists i :: 0 <= i < |digits| && !IsDigit(digits[i]) then None
    else
      var value: int := if signed && s[0] == '-' then 0 - DigitsValue(digits) else DigitsValue(digits);
      if InInt64(value) then Some(value) else None
  }

  lemma {:induction false} DigitsRoundTrip(n: nat)
    ensures DigitsValue(Digits(n)) == n
  {
    var s := Digits(n);
    if n < 10 {
      assert s[..|s| - 1] == [];
    } else {
      DigitsRoundTrip(n / 10);
      assert s[..|s| - 1] == Digits(n / 10);
    }
  }

  /** Reading back the decimal text of a 64-bit integer returns that integer. */
  lemma ParseReadsItoa(i: int)
    requires InInt64(i)
    ensures ParseInt(Itoa(i)) == Some(i)
  {
    if i < 0 {
      DigitsRoundTrip(-i);
      assert Itoa(i)[1..] == Digits(-i);
    } else {
      DigitsRoundTrip(i);
      assert IsDigit(Itoa(i)[0]);
    }
  }

  /** Most significant digit first, and no more digits than needed. */
  lemma WrittenAndRead(n: nat)
    requires n <= MAX_INT64
    ensures Itoa(0) == "0" && Itoa(1205) == "1205" && Itoa(-30) == "-30"
    ensures n >= 10 ==> Itoa(n)[0] != '0'
    ensures ParseInt("+" + Itoa(n)) == Some(n)
  {
    DigitsRoundTrip(n);
    NoLeadingZero(n);
    assert ("+" + Itoa(n))[1..] == Digits(n);
  }

  lemma {:induction false} NoLeadingZero(n: nat)
    ensures n > 0 ==> Digits(n)[0] != '0'
  {
    if n >= 10 { NoLeadingZero(n / 10); }
  }
}
