/**
 * The textual encoding of retry counts in the state slot: the 32-bit
 * integer arithmetic and decimal formatting/parsing of the .NET runtime
 * that the consumer relies on (`int.TryParse`, `$"{count}"`, `count++`).
 */
module StateCodec {
  import opened Wrappers

  const INT_MIN: int := -0x8000_0000
  const INT_MAX: int := 0x7fff_ffff

  /** Values of the 32-bit signed `int` type. */
  predicate IsInt32(n: int) {
    INT_MIN <= n <= INT_MAX
  }

  /** `count++` on an `int` in an unchecked context: wraps at INT_MAX. */
  function WrappingIncrement(n: int): (r: int)
    requires IsInt32(n)
    ensures IsInt32(r)
    ensures n < INT_MAX ==> r == n + 1
    ensures n == INT_MAX ==> r == INT_MIN
  {
    if n == INT_MAX then INT_MIN else n + 1
  }

  predicate IsDigit(c: char) {
    '0' <= c <= '9'
  }

  predicate AllDigits(s: string) {
    forall i :: 0 <= i < |s| ==> IsDigit(s[i])
  }

  function DigitValue(c: char): (d: nat)
    requires IsDigit(c)
    ensures d < 10
  {
    c as int - '0' as int
  }

  function DigitChar(d: nat): (c: char)
    requires d < 10
    ensures IsDigit(c) && DigitValue(c) == d
  {
    ('0' as int + d) as char
  }

  /** The value of a string of decimal digits, most significant first. */
  function DigitsValue(s: string): nat
    requires AllDigits(s)
  {
    if s == [] then 0 else DigitsValue(s[..|s| - 1]) * 10 + DigitValue(s[|s| - 1])
  }

  /** Decimal digits of a natural number, without leading zeros. */
  function FormatNat(n: nat): (s: string)
    ensures |s| > 0 && AllDigits(s)
    ensures DigitsValue(s) == n
    ensures s[0] == '0' ==> n == 0
  {
    if n < 10 then [DigitChar(n)]
    else
      var prefix := FormatNat(n / 10);
      var s := prefix + [DigitChar(n % 10)];
      assert s[..|s| - 1] == prefix;
      s
  }

  /** `int.ToString()`: an optional minus sign followed by the digits of the magnitude. */
  function FormatInt(n: int): (s: string)
    ensures |s| > 0
    ensures s[0] == '-' <==> n < 0
    ensures forall i :: 0 < i < |s| ==> IsDigit(s[i])
  {
    if n < 0 then "-" + FormatNat(-n) else FormatNat(n)
  }

  /** `digits` (after an optional '-') are the decimal digits of `magnitude`, without leading zeros. */
  predicate MagnitudeText(s: string, magnitude: nat) {
    var digits := if |s| > 0 && s[0] == '-' then s[1..] else s;
    |digits| > 0 && AllDigits(digits) && DigitsValue(digits) == magnitude && (digits[0] == '0' ==> magnitude == 0)
  }

  /** A magnitude with its sign applied. */
  function Signed(magnitude: nat, negative: bool): int {
    if negative then -(magnitude as int) else magnitude
  }

  /** Whether the text starts with a sign character. */
  predicate HasSign(s: string) {
    |s| > 0 && (s[0] == '-' || s[0] == '+')
  }

  /** The text after an optional leading sign. */
  function Unsigned(s: string): string {
    if HasSign(s) then s[1..] else s
  }

  /** Parses the digits after an optional sign: fails on no digits, a non-digit, or overflow. */
  function ParseMagnitude(digits: string, negative: bool): (r: Option<int>)
    ensures r.Some? ==> IsInt32(r.value) && |digits| > 0 && AllDigits(digits)
  {
    if digits == [] || !AllDigits(digits) then None
    else
      var v := Signed(DigitsValue(digits), negative);
      if IsInt32(v) then Some(v) else None
  }

  /**
   * `int.TryParse(s, out n)` restricted to an optional leading `+` or `-`
   * and ASCII decimal digits; `None` when the text is not such a number
   * or does not fit in 32 bits. Leading zeros, "+5" and "-0" are accepted.
   */
  function TryParseInt(s: string): (r: Option<int>)
    ensures r.Some? ==> IsInt32(r.value)
    ensures r.Some? ==> |s| > 0 && (IsDigit(s[0]) || s[0] == '-' || s[0] == '+')
  {
    if HasSign(s) then ParseMagnitude(s[1..], s[0] == '-')
    else ParseMagnitude(s, false)
  }

  /** The value `int.ToString()` denotes: its digits are those of the magnitude, without leading zeros. */
  lemma FormatIntValue(n: int)
    ensures MagnitudeText(FormatInt(n), if n < 0 then -n else n)
  {
    if n < 0 {
      assert FormatInt(n)[1..] == FormatNat(-n);
    }
  }

  /**
   * What `int.TryParse` accepts and yields: with `d` the text after an
   * optional sign, parsing succeeds exactly when `d` is a non-empty run of
   * digits whose signed value fits in 32 bits, and then yields that value.
   */
  lemma TryParseIntValue(s: string)
    ensures var negative := HasSign(s) && s[0] == '-';
      var d := Unsigned(s);
      TryParseInt(s).Some? <==> |d| > 0 && AllDigits(d) && IsInt32(Signed(DigitsValue(d), negative))
    ensures var negative := HasSign(s) && s[0] == '-';
      TryParseInt(s).Some? ==> TryParseInt(s).value == Signed(DigitsValue(Unsigned(s)), negative)
  {
  }

  /** Non-canonical text that `int.TryParse` accepts, and text it rejects. */
  lemma ParseExamples()
    ensures TryParseInt("007") == Some(7)
    ensures TryParseInt("+5") == Some(5)
    ensures TryParseInt("-0") == Some(0)
    ensures TryParseInt("2147483648") == None
    ensures TryParseInt("-2147483648") == Some(INT_MIN)
    ensures TryParseInt("STOPPED") == None
    ensures TryParseInt("") == None && TryParseInt("-") == None
  {
    assert DigitsValue("007") == 7 by {
      assert "007"[..2] == "00" && "00"[..1] == "0" && "0"[..0] == "";
    }
    assert DigitsValue("5") == 5 by { assert "5"[..0] == ""; }
    assert "+5"[1..] == "5";
    assert DigitsValue("0") == 0 by { assert "0"[..0] == ""; }
    assert "-0"[1..] == "0";
    assert !AllDigits("STOPPED") by { assert !IsDigit("STOPPED"[0]); }
    DigitsOfLimits();
  }

  /** The decimal texts of 2^31 and its negation, at the edge of the 32-bit range. */
  lemma DigitsOfLimits()
    ensures DigitsValue("2147483648") == 0x8000_0000
    ensures "-2147483648"[1..] == "2147483648"
  {
    DigitsOfLimitPrefix();
    assert DigitsValue("214748") == 214748 by { assert "214748"[..5] == "21474"; }
    assert DigitsValue("2147483") == 2147483 by { assert "2147483"[..6] == "214748"; }
    assert DigitsValue("21474836") == 21474836 by { assert "21474836"[..7] == "2147483"; }
    assert DigitsValue("214748364") == 214748364 by { assert "214748364"[..8] == "21474836"; }
    assert "2147483648"[..9] == "214748364";
  }

  /** The value of the first five digits of 2^31. */
  lemma DigitsOfLimitPrefix()
    ensures DigitsValue("21474") == 21474
  {
    assert DigitsValue("2") == 2 by { assert "2"[..0] == ""; }
    assert DigitsValue("21") == 21 by { assert "21"[..1] == "2"; }
    assert DigitsValue("214") == 214 by { assert "214"[..2] == "21"; }
    assert DigitsValue("2147") == 2147 by { assert "2147"[..3] == "214"; }
    assert "21474"[..4] == "2147";
  }

  /** Formatting then parsing a 32-bit integer gives it back. */
  lemma ParseFormatRoundTrip(n: int)
    requires IsInt32(n)
    ensures TryParseInt(FormatInt(n)) == Some(n)
  {
    var s := FormatInt(n);
    if n >= 0 {
      assert IsDigit(s[0]);
    }
  }
}
