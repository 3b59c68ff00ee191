/** Decimal text of a signed integer, as Rust's `format!("{}", n)` writes an
    i64: an optional minus sign followed by the digits, without leading zeros.
    The parser ParseInt is its partner: every text Format produces reads back
    as the number it was made from. */
module Decimal {
  import opened Wrappers

  predicate IsDigit(c: char) {
    '0' <= c <= '9'
  }

  predicate AllDigits(s: string) {
    forall k :: 0 <= k < |s| ==> IsDigit(s[k])
  }

  function DigitChar(d: nat): (c: char)
    requires d < 10
    ensures IsDigit(c) && c as int - '0' as int == d
  {
    ('0' as int + d) as char
  }

  /** The value of a run of digits, most significant first. */
  function DigitsValue(s: string): nat
    requires AllDigits(s)
  {
    if s == [] then 0 else DigitsValue(s[..|s| - 1]) * 10 + (s[|s| - 1] as int - '0' as int)
  }

  /** The digits of a natural number, with no leading zero. */
  function NatDigits(n: nat): (s: string)
    ensures s != [] && AllDigits(s)
    ensures s[0] == '0' ==> n == 0
    decreases n
  {
    if n < 10 then [DigitChar(n)] else NatDigits(n / 10) + [DigitChar(n % 10)]
  }

  /** `format!("{}", n)` for a signed integer. */
  function Format(n: int): (s: string)
    ensures s != []
  {
    if n < 0 then "-" + NatDigits(-n) else NatDigits(n)
  }

  /** Reads an optional minus sign and at least one digit; no other text is a number. */
  function ParseInt(s: string): Option<int> {
    if |s| > 1 && s[0] == '-' && AllDigits(s[1..]) then Some(0 - DigitsValue(s[1..]) as int)
    else if s != [] && AllDigits(s) then Some(DigitsValue(s))
    else None
  }

  lemma {:induction false} DigitsRoundTrip(n: nat)
    ensures DigitsValue(NatDigits(n)) == n
    decreases n
  {
    if n >= 10 {
      DigitsRoundTrip(n / 10);
      var s := NatDigits(n);
      assert s[..|s| - 1] == NatDigits(n / 10);
    }
  }

  /** What Format writes reads back as the same number. */
  lemma FormatRoundTrip(n: int)
    ensures ParseInt(Format(n)) == Some(n)
  {
    if n < 0 {
      DigitsRoundTrip(-n);
      assert Format(n)[1..] == NatDigits(-n);
    } else {
      DigitsRoundTrip(n);
    }
  }

  /** Format writes only digits and a leading minus sign, so it never writes
      the separators of the status text. */
  lemma FormatCharacters(n: int)
    ensures forall k :: 0 <= k < |Format(n)| ==> IsDigit(Format(n)[k]) || (k == 0 && Format(n)[k] == '-')
  {
  }

  /** A two-digit number is written as its two digits. */
  lemma FormatTwoDigits(tens: nat, ones: nat)
    requires 0 < tens < 10 && ones < 10
    ensures Format(10 * tens + ones) == [DigitChar(tens), DigitChar(ones)]
  {
    assert NatDigits(10 * tens + ones) == NatDigits(tens) + [DigitChar(ones)];
  }

  /** Format writes no superfluous characters: a minus sign exactly for a
      negative number, and a leading zero only for zero itself. So "07" and
      "-0", which also read back as numbers, are never written. */
  lemma FormatCanonical(n: int)
    ensures Format(n)[0] == '-' <==> n < 0
    ensures Format(n)[0] == '0' ==> n == 0
    ensures n < 0 ==> |Format(n)| >= 2 && Format(n)[1] != '0'
  {
  }
}
