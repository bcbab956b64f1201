/**
 * The data URI of a port-addressed SMS: the text "sms://localhost:" followed
 * by the destination port rendered as Java renders an `int` in decimal, and
 * a parser that reads the port back from such a URI.
 */
module PortUri {
  import opened Options

  /** Java's 32-bit `int`, the type of the destination port. */
  newtype int32 = x: int | -0x8000_0000 <= x < 0x8000_0000

  const DATA_URI_PREFIX: string := "sms://localhost:"

  predicate IsDigit(c: char) {
    '0' <= c <= '9'
  }

  predicate AllDigits(s: string) {
    forall i | 0 <= i < |s| :: IsDigit(s[i])
  }

  function DigitChar(d: nat): (c: char)
    requires d < 10
    ensures IsDigit(c) && DigitValue(c) == d
  {
    ('0' as int + d) as char
  }

  function DigitValue(c: char): nat
    requires IsDigit(c)
  {
    c as int - '0' as int
  }

  /** Decimal digits of a natural number, most significant first, no leading zero. */
  function NatDigits(n: nat): (s: string)
    ensures |s| > 0 && AllDigits(s)
    ensures |s| > 1 ==> s[0] != '0'
    ensures n < 10 <==> |s| == 1
    decreases n
  {
    if n < 10 then [DigitChar(n)] else NatDigits(n / 10) + [DigitChar(n % 10)]
  }

  /** The value of a string of decimal digits (the empty string has value 0). */
  function DigitsValue(s: string): nat
    requires AllDigits(s)
  {
    if s == [] then 0 else DigitsValue(s[..|s| - 1]) * 10 + DigitValue(s[|s| - 1])
  }

  /** Decimal rendering of an integer, as Java's string concatenation with an `int`. */
  function DecimalString(n: int): (s: string)
    ensures |s| > 0
    ensures s[0] == '-' <==> n < 0
    ensures var digits := if n < 0 then s[1..] else s;
      && |digits| > 0 && AllDigits(digits)
      && (|digits| > 1 ==> digits[0] != '0')
  {
    if n < 0 then "-" + NatDigits(-n) else NatDigits(n)
  }

  /**
   * Reads an optionally signed decimal integer; `None` when the text is not
   * a sign followed by at least one digit.
   */
  function ParseDecimal(s: string): (r: Option<int>)
    ensures r.Some? ==> |s| > 0
  {
    if |s| > 0 && (s[0] == '-' || s[0] == '+') then
      var digits := s[1..];
      if |digits| > 0 && AllDigits(digits) then
        var v: int := DigitsValue(digits);
        Some(if s[0] == '-' then -v else v)
      else None
    else if |s| > 0 && AllDigits(s) then Some(DigitsValue(s))
    else None
  }

  /** The data URI of a port-addressed message. */
  function DataUri(port: int32): (u: string)
    ensures |u| > |DATA_URI_PREFIX| && u[..|DATA_URI_PREFIX|] == DATA_URI_PREFIX
  {
    DATA_URI_PREFIX + DecimalString(port as int)
  }

  /**
   * The port a data URI names: strip "sms://localhost:" and parse the rest
   * as a decimal `int`; `None` when the prefix is missing, the rest is not a
   * decimal integer, or the value does not fit an `int`.
   */
  function ParsePort(u: string): (r: Option<int32>)
    ensures r.Some? ==> |u| > |DATA_URI_PREFIX| && u[..|DATA_URI_PREFIX|] == DATA_URI_PREFIX
  {
    if |u| >= |DATA_URI_PREFIX| && u[..|DATA_URI_PREFIX|] == DATA_URI_PREFIX then
      match ParseDecimal(u[|DATA_URI_PREFIX|..])
      case Some(n) => if -0x8000_0000 <= n < 0x8000_0000 then Some(n as int32) else None
      case None => None
    else None
  }

  lemma {:induction false} DigitsValueOfNatDigits(n: nat)
    ensures DigitsValue(NatDigits(n)) == n
    decreases n
  {
    var s := NatDigits(n);
    if n >= 10 {
      assert s[..|s| - 1] == NatDigits(n / 10);
      DigitsValueOfNatDigits(n / 10);
    }
  }

  lemma ParseDecimalOfNatDigits(n: nat)
    ensures ParseDecimal(NatDigits(n)) == Some(n)
  {
    var s := NatDigits(n);
    assert IsDigit(s[0]);
    DigitsValueOfNatDigits(n);
  }

  lemma ParseDecimalOfNegative(n: nat)
    requires n > 0
    ensures ParseDecimal("-" + NatDigits(n)) == Some(0 - n)
  {
    var s := "-" + NatDigits(n);
    assert s[0] == '-';
    assert s[1..] == NatDigits(n);
    DigitsValueOfNatDigits(n);
  }

  /** Java's decimal rendering of an `int` parses back to the same value. */
  lemma ParseDecimalOfDecimalString(n: int)
    ensures ParseDecimal(DecimalString(n)) == Some(n)
  {
    if n < 0 {
      ParseDecimalOfNegative(-n);
    } else {
      ParseDecimalOfNatDigits(n);
    }
  }

  /** Stripping the prefix from the data URI and parsing the rest gives back the port. */
  lemma ParsePortOfDataUri(port: int32)
    ensures ParsePort(DataUri(port)) == Some(port)
  {
    var u := DataUri(port);
    assert u[|DATA_URI_PREFIX|..] == DecimalString(port as int);
    ParseDecimalOfDecimalString(port as int);
  }

  /** Distinct ports give distinct data URIs. */
  lemma DataUriInjective(p: int32, q: int32)
    ensures DataUri(p) == DataUri(q) ==> p == q
  {
    ParsePortOfDataUri(p);
    ParsePortOfDataUri(q);
  }
}
