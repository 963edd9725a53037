/** The month and date strings `stat_by_month` and `get_incoming` send:
    `strftime("%Y-%m")` and `strftime("%Y-%m-%d")` of a datetime, here given
    as its year, month and day. */
module Dates {
  import opened Strings

  predicate IsLeapYear(y: int)
  {
    y % 4 == 0 && (y % 100 != 0 || y % 400 == 0)
  }

  function DaysInMonth(y: int, m: int): (n: int)
    requires 1 <= m <= 12
  {
    if m == 2 then (if IsLeapYear(y) then 29 else 28)
    else if m == 4 || m == 6 || m == 9 || m == 11 then 30
    else 31
  }

  /** The months a datetime can hold. */
  predicate ValidMonth(y: int, m: int)
  {
    1 <= y <= 9999 && 1 <= m <= 12
  }

  /** The days a datetime can hold. */
  predicate ValidDate(y: int, m: int, d: int)
  {
    ValidMonth(y, m) && 1 <= d <= DaysInMonth(y, m)
  }

  /** `strftime("%Y-%m")`: four year digits, a dash, two month digits. */
  function MonthString(y: int, m: int): (s: string)
    requires ValidMonth(y, m)
    ensures |s| == 7 && s[4] == '-'
    ensures AllDigits(s[..4]) && AllDigits(s[5..])
  {
    Padded(y, 4) + "-" + Padded(m, 2)
  }

  /** `strftime("%Y-%m-%d")`: the month string, a dash, two day digits. */
  function DateString(y: int, m: int, d: int): (s: string)
    requires ValidDate(y, m, d)
    ensures |s| == 10 && s[4] == '-' && s[7] == '-'
    ensures AllDigits(s[..4]) && AllDigits(s[5..7]) && AllDigits(s[8..])
  {
    MonthString(y, m) + "-" + Padded(d, 2)
  }

  /** Reads a `YYYY-MM` string back. */
  function ParseMonth(s: string): (r: Option<(int, int)>)
  {
    if |s| == 7 && s[4] == '-' && AllDigits(s[..4]) && AllDigits(s[5..]) then
      Some((DecimalValue(s[..4]), DecimalValue(s[5..])))
    else None
  }

  /** Reads a `YYYY-MM-DD` string back. */
  function ParseDate(s: string): (r: Option<(int, int, int)>)
  {
    if |s| == 10 && s[4] == '-' && s[7] == '-'
       && AllDigits(s[..4]) && AllDigits(s[5..7]) && AllDigits(s[8..]) then
      Some((DecimalValue(s[..4]), DecimalValue(s[5..7]), DecimalValue(s[8..])))
    else None
  }

  /** The month string holds the year and month it was made from. */
  lemma MonthRoundTrip(y: int, m: int)
    requires ValidMonth(y, m)
    ensures ParseMonth(MonthString(y, m)) == Some((y, m))
  {
    var s := MonthString(y, m);
    assert s[..4] == Padded(y, 4);
    assert s[5..] == Padded(m, 2);
    PaddedValue(y, 4);
    PaddedValue(m, 2);
  }

  /** The date string holds the year, month and day it was made from. */
  lemma DateRoundTrip(y: int, m: int, d: int)
    requires ValidDate(y, m, d)
    ensures ParseDate(DateString(y, m, d)) == Some((y, m, d))
  {
    var s := DateString(y, m, d);
    assert s[..4] == Padded(y, 4);
    assert s[5..7] == Padded(m, 2);
    assert s[8..] == Padded(d, 2);
    PaddedValue(y, 4);
    PaddedValue(m, 2);
    PaddedValue(d, 2);
  }

  /** August 2014 is sent as "2014-08". */
  lemma August2014(y: int, m: int)
    requires y == 2014 && m == 8
    ensures MonthString(y, m) == "2014-08"
  {
    assert Padded(y, 4) == Padded(201, 3) + [DigitChar(4)];
    assert Padded(201, 3) == Padded(20, 2) + [DigitChar(1)];
    assert Padded(20, 2) == Padded(2, 1) + [DigitChar(0)];
    assert Padded(2, 1) == Padded(0, 0) + [DigitChar(2)];
    assert Padded(m, 2) == Padded(0, 1) + [DigitChar(8)];
    assert Padded(0, 1) == Padded(0, 0) + [DigitChar(0)];
  }
}
