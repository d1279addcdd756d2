/**
 * Decimal rendering of integers, as Rust's `format!("{}", n)` writes an i32:
 * an optional minus sign followed by the digits, without leading zeros.
 * Parse is its inverse, so the text can be read back to the same number.
 */
module Decimal {
  import opened Prelude

  /** Rust's 32-bit signed integer. */
  newtype i32 = x: int | -0x8000_0000 <= x < 0x8000_0000

  predicate IsDigit(c: char)
  {
    '0' as int <= c as int <= '9' as int
  }

  function DigitChar(d: nat): (c: char)
    requires d < 10
    ensures IsDigit(c) && c as int - '0' as int == d
  {
    ('0' as int + d) as char
  }

  /** The digits of `n`, most significant first. */
  function Digits(n: nat): (s: string)
    decreases n
  {
    if n < 10 then [DigitChar(n)] else Digits(n / 10) + [DigitChar(n % 10)]
  }

  /** The number a non-empty string of digits stands for. */
  function DigitsValue(s: string): nat
    requires forall c <- s :: IsDigit(c)
  {
    if s == [] then 0
    else
      assert s[|s| - 1] in s && IsDigit(s[|s| - 1]);
      DigitsValue(s[..|s| - 1]) * 10 + (s[|s| - 1] as int - '0' as int)
  }

  function Show(n: int): string
  {
    if n < 0 then "-" + Digits(-n) else Digits(n)
  }

  /** Reads a decimal integer back: an optional minus sign and at least one digit. */
  function Parse(s: string): Option<int>
  {
    if s != [] && s[0] == '-' then
      var t := s[1..];
      if t != [] && forall c <- t :: IsDigit(c) then Some(-(DigitsValue(t) as int)) else None
    else if s != [] && forall c <- s :: IsDigit(c) then Some(DigitsValue(s) as int)
    else None
  }

  lemma {:induction false} DigitsRoundTrip(n: nat)
    ensures Digits(n) != [] && forall c <- Digits(n) :: IsDigit(c)
    ensures DigitsValue(Digits(n)) == n
    // no leading zero: only 0 itself starts with '0'
    ensures Digits(n)[0] == '0' ==> n == 0
    decreases n
  {
    if n >= 10 {
      DigitsRoundTrip(n / 10);
      var s := Digits(n);
      assert s[..|s| - 1] == Digits(n / 10);
      assert s[0] == Digits(n / 10)[0];
    }
  }

  /** What Show writes, Parse reads back. */
  lemma ShowRoundTrip(n: int)
    ensures Parse(Show(n)) == Some(n)
    // the canonical spelling: no zero after the sign or in front of other digits
    ensures var t := Show(n); |t| > 1 ==> t[0] != '0' && (t[0] == '-' ==> t[1] != '0')
  {
    if n < 0 {
      var t := Digits(-n);
      DigitsRoundTrip(-n);
      assert Show(n) == "-" + t && Show(n)[1..] == t;
      assert Parse(Show(n)) == Some(-(DigitsValue(t) as int));
    } else {
      var t := Digits(n);
      DigitsRoundTrip(n);
      assert Show(n) == t && IsDigit(t[0]);
      assert Parse(t) == Some(DigitsValue(t) as int);
    }
  }
}
