/**
 * Decimal text of a C++ `int`, as `std::ostream << int` writes it with the
 * stream's default flags: a `-` for negative values, then the digits of the
 * magnitude with no leading zero.
 */
module IntText {
  import opened Options

  /** The range of the source's `int` (32 bits, two's complement). */
  newtype Int32 = x: int | -0x8000_0000 <= x < 0x8000_0000

  predicate IsDigit(c: char) {
    '0' <= c <= '9'
  }

  function DigitChar(d: nat): (c: char)
    requires d < 10
    ensures IsDigit(c)
  {
    ('0' as int + d) as char
  }

  function DigitValue(c: char): nat
    requires IsDigit(c)
  {
    c as int - '0' as int
  }

  predicate AllDigits(s: string) {
    forall i :: 0 <= i < |s| ==> IsDigit(s[i])
  }

  /** Decimal digits of `n`, most significant first. */
  function Digits(n: nat): string
    decreases n
  {
    if n < 10 then [DigitChar(n)] else Digits(n / 10) + [DigitChar(n % 10)]
  }

  /** The number a run of decimal digits stands for (0 for the empty run). */
  function DigitsValue(s: string): nat
    requires AllDigits(s)
  {
    if s == [] then 0 else 10 * DigitsValue(s[..|s| - 1]) + DigitValue(s[|s| - 1])
  }

  /** What `m_stream << value` appends for an `int` value. */
  function IntToText(v: Int32): string {
    if v < 0 then "-" + Digits(-(v as int)) else Digits(v as int)
  }

  /** Reads back decimal text: an optional `-` and at least one digit. */
  function ParseInt(t: string): Option<int> {
    if |t| >= 2 && t[0] == '-' && AllDigits(t[1..]) then Some(-(DigitsValue(t[1..]) as int))
    else if |t| >= 1 && AllDigits(t) then Some(DigitsValue(t))
    else None
  }

  /**
   * The digits of `n` are at least one decimal digit, with no leading zero, and
   * they stand for `n`.
   */
  lemma {:induction false} DigitsOfValue(n: nat)
    ensures |Digits(n)| >= 1 && AllDigits(Digits(n))
    ensures |Digits(n)| > 1 ==> Digits(n)[0] != '0'
    ensures AllDigits(Digits(n)) && DigitsValue(Digits(n)) == n
    decreases n
  {
    if n >= 10 {
      DigitsOfValue(n / 10);
      var d := Digits(n);
      assert d[..|d| - 1] == Digits(n / 10);
    }
  }

  /**
   * The integer text is a sign (exactly when the value is negative) followed by
   * digits with no leading zero, and it reads back as the value it was made from.
   */
  lemma IntToTextRoundTrip(v: Int32)
    ensures var t := IntToText(v);
      |t| >= 1 && (t[0] == '-' <==> v < 0) &&
      (forall i :: 0 <= i < |t| ==> t[i] == '-' || IsDigit(t[i])) &&
      ParseInt(t) == Some(v as int)
    ensures var t := IntToText(v); v >= 0 && |t| > 1 ==> t[0] != '0'
    ensures var t := IntToText(v); v < 0 ==> |t| >= 2 && (|t| > 2 ==> t[1] != '0')
  {
    var t := IntToText(v);
    if v < 0 {
      DigitsOfValue(-(v as int));
      assert t[1..] == Digits(-(v as int));
    } else {
      DigitsOfValue(v as int);
    }
  }
}
