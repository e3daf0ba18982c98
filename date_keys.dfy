/**
 * The string key the scheduler gives each day of the grid and stores as the
 * selected date: `${year}-${String(month + 1).padStart(2, '0')}-${String(day).padStart(2, '0')}`,
 * and its reading back in the date-only form YYYY-MM-DD of the ECMAScript
 * Date Time String Format (section 21.4.1.32 of ECMA-262), which is how
 * `new Date(key + 'T00:00:00')` interprets it.
 */
module DateKeys {
  import opened Wrappers
  import opened Gregorian

  predicate IsDigit(c: char) {
    '0' <= c <= '9'
  }

  predicate AllDigits(s: string) {
    forall i :: 0 <= i < |s| ==> IsDigit(s[i])
  }

  function DigitValue(c: char): int
    requires IsDigit(c)
  {
    c as int - '0' as int
  }

  function DigitChar(n: int): (c: char)
    requires 0 <= n < 10
    ensures IsDigit(c) && DigitValue(c) == n
  {
    ('0' as int + n) as char
  }

  /** String(n) for a non-negative integer: its decimal digits without leading zeros. */
  function DecimalString(n: nat): (s: string)
    ensures 1 <= |s| && AllDigits(s)
    ensures n < 10 <==> |s| == 1
  {
    if n < 10 then [DigitChar(n)] else DecimalString(n / 10) + [DigitChar(n % 10)]
  }

  /** String(y) for any integer year: a minus sign before the digits of a negative one. */
  function IntString(y: int): string {
    if y < 0 then "-" + DecimalString(-y) else DecimalString(y)
  }

  /** String(n).padStart(2, '0'): a single digit gets a leading zero, longer strings are kept. */
  function Pad2(n: nat): string {
    var digits := DecimalString(n);
    if |digits| < 2 then "0" + digits else digits
  }

  /** The key of day `day` of month `month` (0-based) of year `year`, as the grid builds it. */
  function DateKey(year: int, month: int, day: nat): string
    requires 0 <= month < 12
  {
    IntString(year) + "-" + Pad2(month + 1) + "-" + Pad2(day)
  }

  /** The number a string of decimal digits denotes. */
  function DigitsValue(s: string): nat
    requires AllDigits(s)
  {
    if |s| == 0 then 0 else DigitsValue(s[..|s| - 1]) * 10 + DigitValue(s[|s| - 1])
  }

  /** Reads a YYYY-MM-DD key back into a calendar date (month 0-based); None if it is not of that form. */
  function ParseDateKey(k: string): Option<Date> {
    if |k| == 10 && k[4] == '-' && k[7] == '-'
       && AllDigits(k[..4]) && AllDigits(k[5..7]) && AllDigits(k[8..])
    then Some(Date(DigitsValue(k[..4]), DigitsValue(k[5..7]) - 1, DigitsValue(k[8..])))
    else None
  }

  /** Reading back the decimal digits of n gives n. */
  lemma {:induction false} DecimalRoundTrip(n: nat)
    ensures DigitsValue(DecimalString(n)) == n
  {
    if n >= 10 {
      DecimalRoundTrip(n / 10);
      var s := DecimalString(n);
      assert s[..|s| - 1] == DecimalString(n / 10);
    }
  }

  /** A year from 1000 to 9999 is written with exactly four digits. */
  lemma FourDigitYear(y: int)
    requires 1000 <= y <= 9999
    ensures |IntString(y)| == 4 && IntString(y) == DecimalString(y)
  {
    assert |DecimalString(y / 1000)| == 1;
    assert y / 100 / 10 == y / 1000;
    assert |DecimalString(y / 100)| == 2;
    assert y / 10 / 10 == y / 100;
    assert |DecimalString(y / 10)| == 3;
  }

  /** A number below 100 pads to exactly two digits that read back as itself. */
  lemma Pad2RoundTrip(n: nat)
    requires n < 100
    ensures |Pad2(n)| == 2 && AllDigits(Pad2(n)) && DigitsValue(Pad2(n)) == n
  {
    var digits := DecimalString(n);
    DecimalRoundTrip(n);
    if n < 10 {
      assert Pad2(n) == ['0'] + digits;
      assert Pad2(n)[..1] == ['0'];
    } else {
      assert n / 10 < 10;
    }
  }

  /**
   * The key of a day in a four-digit year is a ten-character ISO 8601 calendar
   * date that reads back as exactly that (year, month, day).
   */
  lemma DateKeyRoundTrip(y: int, m: int, d: int)
    requires 1000 <= y <= 9999 && 0 <= m < 12 && 1 <= d <= 31
    ensures |DateKey(y, m, d)| == 10
    ensures ParseDateKey(DateKey(y, m, d)) == Some(Date(y, m, d))
  {
    var k := DateKey(y, m, d);
    FourDigitYear(y);
    DecimalRoundTrip(y);
    Pad2RoundTrip(m + 1);
    Pad2RoundTrip(d);
    assert k == DecimalString(y) + "-" + Pad2(m + 1) + "-" + Pad2(d);
    assert k[..4] == DecimalString(y);
    assert k[5..7] == Pad2(m + 1);
    assert k[8..] == Pad2(d);
  }

  /** Distinct days of four-digit years get distinct keys. */
  lemma DateKeyInjective(y: int, m: int, d: int, y': int, m': int, d': int)
    requires 1000 <= y <= 9999 && 0 <= m < 12 && 1 <= d <= 31
    requires 1000 <= y' <= 9999 && 0 <= m' < 12 && 1 <= d' <= 31
    requires DateKey(y, m, d) == DateKey(y', m', d')
    ensures y == y' && m == m' && d == d'
  {
    DateKeyRoundTrip(y, m, d);
    DateKeyRoundTrip(y', m', d');
  }
}
