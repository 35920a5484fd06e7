/** Go's decimal integers: strconv.Itoa and strconv.Atoi. */
module Decimal {
  import opened Base

  function DigitChar(d: nat): (c: char)
    requires d < 10
    ensures '0' <= c <= '9' && DigitValue(c) == d
  {
    ('0' as int + d) as char
  }

  function DigitValue(c: char): int {
    c as int - '0' as int
  }

  /** A non-negative number in decimal. */
  function Digits(n: nat): string {
    if n < 10 then [DigitChar(n)] else Digits(n / 10) + [DigitChar(n % 10)]
  }

  predicate AllDigits(s: string) {
    forall i :: 0 <= i < |s| ==> '0' <= s[i] <= '9'
  }

  function DigitsValue(s: string): nat
    requires AllDigits(s)
  {
    if s == "" then 0 else 10 * DigitsValue(s[..|s| - 1]) + DigitValue(s[|s| - 1])
  }

  function Itoa(n: int): string {
    if n < 0 then "-" + Digits(-n) else Digits(n)
  }

  /** An optional sign and at least one digit, in the range of int64. */
  function Atoi(s: string): Option<int> {
    var negative := s != "" && s[0] == '-';
    var digits := if s != "" && (s[0] == '-' || s[0] == '+') then s[1..] else s;
    if digits == "" || !AllDigits(digits) then None
    else
      var n := if negative then -(DigitsValue(digits) as int) else DigitsValue(digits);
      if MIN64 <= n <= MAX64 then Some(n) else None
  }

  lemma {:induction false} DigitsRoundTrip(n: nat)
    ensures AllDigits(Digits(n)) && Digits(n) != "" && DigitsValue(Digits(n)) == n
  {
    if n >= 10 {
      DigitsRoundTrip(n / 10);
      assert Digits(n)[..|Digits(n)| - 1] == Digits(n / 10);
    }
  }

  /** What Atoi makes of digits, without a sign and with a minus. */
  lemma AtoiDigits(digits: string)
    requires digits != "" && AllDigits(digits)
    ensures DigitsValue(digits) <= MAX64 ==> Atoi(digits) == Some(DigitsValue(digits))
    ensures DigitsValue(digits) <= -MIN64 ==> Atoi("-" + digits) == Some(-(DigitsValue(digits) as int))
  {
    assert digits[0] in digits;
    assert ("-" + digits)[1..] == digits;
  }

  /** What Atoi refuses: nothing, a sign alone, any other character, and numbers out of range. */
  lemma AtoiRefuses(s: string)
    requires || s == "" || s == "-" || s == "+"
             || (exists i :: 0 <= i < |s| && !('0' <= s[i] <= '9') && !(i == 0 && (s[0] == '-' || s[0] == '+')))
    ensures Atoi(s) == None
  {
    if i :| 0 <= i < |s| && !('0' <= s[i] <= '9') && !(i == 0 && (s[0] == '-' || s[0] == '+')) {
      var digits := if s[0] == '-' || s[0] == '+' then s[1..] else s;
      assert s[i] in digits by {
        if s[0] == '-' || s[0] == '+' {
          assert digits[i - 1] == s[i];
        }
      }
    }
  }

  lemma AtoiOutOfRange(n: int)
    requires n < -0x8000_0000_0000_0000 || n > 0x7FFF_FFFF_FFFF_FFFF
    ensures Atoi(Itoa(n)) == None
  {
    var m := if n < 0 then -n else n;
    DigitsRoundTrip(m);
    assert MIN64 == -0x8000_0000_0000_0000 && MAX64 == 0x7FFF_FFFF_FFFF_FFFF;
    if n < 0 {
      assert Itoa(n)[1..] == Digits(m);
    } else {
      assert Digits(m)[0] in Digits(m);
    }
  }

  /** Every int64 survives being written and read back. */
  lemma AtoiItoa(n: int)
    requires MIN64 <= n <= MAX64
    ensures Atoi(Itoa(n)) == Some(n) && Itoa(n) != "" && (Itoa(n)[0] == '-' <==> n < 0)
  {
    var m := if n < 0 then -n else n;
    DigitsRoundTrip(m);
    AtoiDigits(Digits(m));
    assert Digits(m)[0] in Digits(m);
  }
}
