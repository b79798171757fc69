/**
 * The local calendar date string `year-MM-DD` that names today's log.
 * The clock is injected: the caller supplies what `getFullYear()`,
 * `getMonth()` (0-based) and `getDate()` return.
 */
module LocalDate {

  predicate IsDigit(c: char)
  {
    '0' <= c <= '9'
  }

  predicate AllDigits(s: string)
  {
    forall i :: 0 <= i < |s| ==> IsDigit(s[i])
  }

  function Digit(d: nat): (c: char)
    requires d < 10
    ensures IsDigit(c)
  {
    (48 + d) as char
  }

  function DigitValue(c: char): nat
    requires IsDigit(c)
  {
    (c as int) - 48
  }

  /** `String(n)` for a non-negative integer: its decimal digits, most significant first. */
  function NatToDecimal(n: nat): (s: string)
    ensures |s| >= 1 && AllDigits(s)
    decreases n
  {
    if n < 10 then [Digit(n)] else NatToDecimal(n / 10) + [Digit(n % 10)]
  }

  /** `String(n)` for any integer: a minus sign before the digits of a negative one. */
  function IntToDecimal(n: int): (s: string)
    ensures |s| >= 1
  {
    if n < 0 then "-" + NatToDecimal(-n) else NatToDecimal(n)
  }

  /** `s.padStart(2, '0')`. */
  function PadStart2(s: string): (r: string)
    ensures |r| >= 2
  {
    if |s| >= 2 then s else seq(2 - |s|, _ => '0') + s
  }

  /** `getLocalToday()`: the year, then the 1-based month and the day, each padded to two digits. */
  function LocalToday(year: int, monthIndex: nat, day: nat): (s: string)
    ensures |s| >= 7
  {
    IntToDecimal(year) + "-" + PadStart2(NatToDecimal(monthIndex + 1)) + "-" + PadStart2(NatToDecimal(day))
  }

  /** The value of a string of decimal digits. */
  function DecimalValue(s: string): nat
    requires AllDigits(s)
    decreases |s|
  {
    if s == [] then 0 else DecimalValue(s[..|s| - 1]) * 10 + DigitValue(s[|s| - 1])
  }

  /** Reading the digits back gives the number. */
  lemma {:induction false} DecimalRoundTrip(n: nat)
    ensures DecimalValue(NatToDecimal(n)) == n
    decreases n
  {
    var s := NatToDecimal(n);
    if n >= 10 {
      DecimalRoundTrip(n / 10);
      assert s[..|s| - 1] == NatToDecimal(n / 10);
    }
  }

  /** Distinct integers print differently. */
  lemma IntToDecimalInjective(a: int, b: int)
    requires IntToDecimal(a) == IntToDecimal(b)
    ensures a == b
  {
    var s := IntToDecimal(a);
    if a < 0 && b < 0 {
      assert s[1..] == NatToDecimal(-a) == NatToDecimal(-b);
      DecimalRoundTrip(-a);
      DecimalRoundTrip(-b);
    } else if a >= 0 && b >= 0 {
      DecimalRoundTrip(a);
      DecimalRoundTrip(b);
    } else {
      NoSign(if a < 0 then b else a);
      assert false;
    }
  }

  /** The digits of a natural number never start with a minus sign. */
  lemma NoSign(n: nat)
    ensures NatToDecimal(n)[0] != '-'
  {
    assert IsDigit(NatToDecimal(n)[0]);
  }

  /** A two-digit field is exactly two digits and reads back as the number. */
  lemma PadRoundTrip(n: nat)
    requires n <= 99
    ensures |PadStart2(NatToDecimal(n))| == 2
    ensures AllDigits(PadStart2(NatToDecimal(n)))
    ensures DecimalValue(PadStart2(NatToDecimal(n))) == n
  {
    var p := PadStart2(NatToDecimal(n));
    if n < 10 {
      assert p == ['0', Digit(n)];
      assert p[..1] == ['0'];
    } else {
      assert NatToDecimal(n) == [Digit(n / 10), Digit(n % 10)];
      assert p[..1] == [Digit(n / 10)];
      assert DecimalValue(p[..1]) == n / 10 by {
        assert p[..1][..0] == [];
      }
      assert DigitValue(p[1]) == n % 10;
    }
  }

  /** `10^k`. */
  function Pow10(k: nat): (p: nat)
    ensures p >= 1
  {
    if k == 0 then 1 else 10 * Pow10(k - 1)
  }

  /** A number with k + 1 digits prints as k + 1 characters. */
  lemma {:induction false} DecimalLength(n: nat, k: nat)
    requires Pow10(k) <= n < Pow10(k + 1)
    ensures |NatToDecimal(n)| == k + 1
    decreases k
  {
    if k > 0 {
      DecimalLength(n / 10, k - 1);
    }
  }

  /** `YYYY-MM-DD`: ten characters, dashes at 4 and 7, digits elsewhere. */
  predicate IsDateString(s: string)
  {
    |s| == 10 && s[4] == '-' && s[7] == '-'
    && AllDigits(s[..4]) && AllDigits(s[5..7]) && AllDigits(s[8..])
  }

  /** For a four-digit year and a real calendar day, today's string has the documented `YYYY-MM-DD` shape. */
  lemma LocalTodayShape(year: int, monthIndex: nat, day: nat)
    requires 1000 <= year <= 9999 && monthIndex <= 11 && 1 <= day <= 31
    ensures IsDateString(LocalToday(year, monthIndex, day))
    ensures DecimalValue(LocalToday(year, monthIndex, day)[..4]) == year
    ensures DecimalValue(LocalToday(year, monthIndex, day)[5..7]) == monthIndex + 1
    ensures DecimalValue(LocalToday(year, monthIndex, day)[8..]) == day
  {
    var y, m, d := NatToDecimal(year), PadStart2(NatToDecimal(monthIndex + 1)), PadStart2(NatToDecimal(day));
    DecimalLength(year, 3);
    PadRoundTrip(monthIndex + 1);
    PadRoundTrip(day);
    DecimalRoundTrip(year);
    var s := LocalToday(year, monthIndex, day);
    assert s == y + "-" + m + "-" + d;
    assert s[..4] == y;
    assert s[5..7] == m;
    assert s[8..] == d;
  }

  /**
   * Distinct calendar days give distinct strings, so a new day always
   * differs from the saved log's date.
   */
  lemma LocalTodayInjective(y1: int, m1: nat, d1: nat, y2: int, m2: nat, d2: nat)
    requires m1 + 1 <= 99 && d1 <= 99 && m2 + 1 <= 99 && d2 <= 99
    requires LocalToday(y1, m1, d1) == LocalToday(y2, m2, d2)
    ensures y1 == y2 && m1 == m2 && d1 == d2
  {
    PadRoundTrip(m1 + 1);
    PadRoundTrip(d1);
    PadRoundTrip(m2 + 1);
    PadRoundTrip(d2);
    var ya, ma, da := IntToDecimal(y1), PadStart2(NatToDecimal(m1 + 1)), PadStart2(NatToDecimal(d1));
    var yb, mb, db := IntToDecimal(y2), PadStart2(NatToDecimal(m2 + 1)), PadStart2(NatToDecimal(d2));
    FieldsEqual(ya, ma, da, yb, mb, db);
    IntToDecimalInjective(y1, y2);
  }

  /** Two `y-mm-dd` strings are equal only field by field. */
  lemma FieldsEqual(ya: string, ma: string, da: string, yb: string, mb: string, db: string)
    requires |ma| == 2 && |da| == 2 && |mb| == 2 && |db| == 2
    requires ya + "-" + ma + "-" + da == yb + "-" + mb + "-" + db
    ensures ya == yb && ma == mb && da == db
  {
    SplitDate(ya, ma, da);
    SplitDate(yb, mb, db);
  }

  /** The three fields of `y-mm-dd` can be cut back out of it, from the end. */
  lemma SplitDate(y: string, m: string, d: string)
    requires |m| == 2 && |d| == 2
    ensures var s := y + "-" + m + "-" + d;
      |s| == |y| + 6 && s[|s| - 2..] == d && s[|s| - 5..|s| - 3] == m && s[..|s| - 6] == y
  {
  }
}
