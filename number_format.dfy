/**
 * JavaScript's `String(n)` for the integer datasource ids that feed the
 * accessory identity (`hap.uuid.generate(String(device.dsId))`), together
 * with its inverse, which shows that the rendering loses no information.
 */
module NumberFormat {
  import opened Options

  predicate IsDigit(c: char) {
    '0' <= c <= '9'
  }

  predicate AllDigits(s: string) {
    forall k :: 0 <= k < |s| ==> IsDigit(s[k])
  }

  function DigitChar(d: nat): (c: char)
    requires d < 10
    ensures IsDigit(c)
  {
    ('0' as int + d) as char
  }

  function DigitValue(c: char): (d: nat)
    requires IsDigit(c)
    ensures d < 10 && DigitChar(d) == c
  {
    c as int - '0' as int
  }

  /** Decimal digits of `n`, most significant first, without leading zeros. */
  function NaturalToString(n: nat): (s: string)
    ensures |s| >= 1 && AllDigits(s)
    ensures (s[0] == '0') <==> n == 0
    ensures n < 10 <==> |s| == 1
    decreases n
  {
    if n < 10 then [DigitChar(n)]
    else NaturalToString(n / 10) + [DigitChar(n % 10)]
  }

  /** `String(n)` for an integral JavaScript number (only "-" for negatives). */
  function NumberToString(n: int): (s: string)
    ensures |s| >= 1
    ensures (s[0] == '-') <==> n < 0
    ensures n >= 0 ==> AllDigits(s)
    ensures n < 0 ==> |s| >= 2 && AllDigits(s[1..])
    ensures n > 0 ==> s[0] != '0'
    ensures n < 0 ==> s[1] != '0'
  {
    if n < 0 then "-" + NaturalToString(-n) else NaturalToString(n)
  }

  function ParseNatural(s: string): nat
    requires AllDigits(s)
  {
    if s == [] then 0
    else ParseNatural(s[..|s| - 1]) * 10 + DigitValue(s[|s| - 1])
  }

  /** Reads a numeral in the form `NumberToString` writes; `None` for anything else. */
  function ParseNumber(s: string): Option<int> {
    if |s| >= 2 && s[0] == '-' && AllDigits(s[1..]) then Some(-(ParseNatural(s[1..]) as int))
    else if |s| >= 1 && AllDigits(s) then Some(ParseNatural(s))
    else None
  }

  lemma {:induction false} ParseNaturalRoundTrip(n: nat)
    ensures ParseNatural(NaturalToString(n)) == n
    decreases n
  {
    var s := NaturalToString(n);
    if n >= 10 {
      assert s[..|s| - 1] == NaturalToString(n / 10);
      ParseNaturalRoundTrip(n / 10);
    }
  }

  lemma ParseNumeral(digits: string)
    requires |digits| >= 1 && AllDigits(digits)
    ensures ParseNumber(digits) == Some(ParseNatural(digits))
    ensures ParseNumber("-" + digits) == Some(-(ParseNatural(digits) as int))
  {
    assert digits[0] != '-';
    assert ("-" + digits)[1..] == digits;
  }

  lemma NumberRoundTrip(n: int)
    ensures ParseNumber(NumberToString(n)) == Some(n)
  {
    var m: nat := if n < 0 then -n else n;
    ParseNumeral(NaturalToString(m));
    ParseNaturalRoundTrip(m);
  }

  /** Distinct ids are rendered as distinct strings. */
  lemma NumberToStringInjective(a: int, b: int)
    requires NumberToString(a) == NumberToString(b)
    ensures a == b
  {
    NumberRoundTrip(a);
    NumberRoundTrip(b);
  }
}
