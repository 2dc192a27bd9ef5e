/** Calendar days as ordinals, and the strict `YYYY-MM-DD` parse that Go's
    `time.Parse("2006-01-02", s)` performs (sdk/sdk.go:374-379, 752-754).
    Times of day and time zones play no part: every parsed date is midnight UTC,
    so `After`, `Before` and `AddDate(0, 0, 1)` become `>`, `<` and `+ 1`. */
module Calendar {
  import opened Wrappers
  import opened Decimal

  /** A calendar day: the number of days since 0000-01-01 in the proleptic
      Gregorian calendar. */
  type Day = int

  predicate IsLeapYear(y: int) {
    y % 4 == 0 && (y % 100 != 0 || y % 400 == 0)
  }

  function DaysInYear(y: int): int {
    if IsLeapYear(y) then 366 else 365
  }

  function DaysInMonth(y: int, m: int): int
    requires 1 <= m <= 12
  {
    if m == 2 then (if IsLeapYear(y) then 29 else 28)
    else if m == 4 || m == 6 || m == 9 || m == 11 then 30
    else 31
  }

  /** Days of year `y` that come before the first of month `m`. */
  function DaysBeforeMonth(y: int, m: int): int
    requires 1 <= m <= 12
  {
    [0, 31, 59, 90, 120, 151, 181, 212, 243, 273, 304, 334][m - 1]
      + (if m > 2 && IsLeapYear(y) then 1 else 0)
  }

  /** Days from 0000-01-01 to the first of January of year `y`. */
  function DaysBeforeYear(y: nat): nat {
    if y == 0 then 0 else DaysBeforeYear(y - 1) + DaysInYear(y - 1)
  }

  /** A real calendar date (the year is not bounded here; the text form bounds it to four digits). */
  predicate ValidDate(y: int, m: int, d: int) {
    0 <= y && 1 <= m <= 12 && 1 <= d <= DaysInMonth(y, m)
  }

  function DayNumber(y: int, m: int, d: int): Day
    requires ValidDate(y, m, d)
  {
    DaysBeforeYear(y) + DaysBeforeMonth(y, m) + d - 1
  }

  /** The calendar date one day later: what `AddDate(0, 0, 1)` computes. */
  function NextDate(y: int, m: int, d: int): (r: (int, int, int))
    requires ValidDate(y, m, d)
    ensures ValidDate(r.0, r.1, r.2)
  {
    if d < DaysInMonth(y, m) then (y, m, d + 1)
    else if m < 12 then (y, m + 1, 1)
    else (y + 1, 1, 1)
  }

  /** Lexicographic order on (year, month, day). */
  predicate DateBefore(y: int, m: int, d: int, y': int, m': int, d': int) {
    y < y' || (y == y' && (m < m' || (m == m' && d < d')))
  }

  lemma DayOfYearBound(y: int, m: int, d: int)
    requires ValidDate(y, m, d)
    ensures DaysBeforeMonth(y, m) + d <= DaysInYear(y)
  {
  }

  lemma {:induction false} DaysBeforeYearMonotone(y: nat, y': nat)
    requires y <= y'
    ensures DaysBeforeYear(y) + (if y < y' then DaysInYear(y) else 0) <= DaysBeforeYear(y')
    decreases y' - y
  {
    if y < y' {
      if y + 1 < y' {
        DaysBeforeYearMonotone(y + 1, y');
      }
    }
  }

  /** Ordinals follow calendar order: an earlier date has a smaller ordinal,
      so the model's `<` on `Day` is Go's `Before` and distinct dates never share an ordinal. */
  lemma DayNumberMonotone(y: int, m: int, d: int, y': int, m': int, d': int)
    requires ValidDate(y, m, d) && ValidDate(y', m', d')
    ensures DateBefore(y, m, d, y', m', d') <==> DayNumber(y, m, d) < DayNumber(y', m', d')
    ensures DayNumber(y, m, d) == DayNumber(y', m', d') <==> (y, m, d) == (y', m', d')
  {
    DayOfYearBound(y, m, d);
    DayOfYearBound(y', m', d');
    if y < y' {
      DaysBeforeYearMonotone(y, y');
    } else if y' < y {
      DaysBeforeYearMonotone(y', y);
    }
  }

  /** Adding one day to a date's ordinal gives the ordinal of the next calendar date. */
  lemma NextDateIsSuccessor(y: int, m: int, d: int)
    requires ValidDate(y, m, d)
    ensures var n := NextDate(y, m, d); DayNumber(n.0, n.1, n.2) == DayNumber(y, m, d) + 1
  {
    if d == DaysInMonth(y, m) && m == 12 {
      assert DaysBeforeYear(y + 1) == DaysBeforeYear(y) + DaysInYear(y);
    }
  }

  // ---- the text form ----

  /** `s` has the shape `DDDD-DD-DD`. */
  predicate HasDateShape(s: string) {
    |s| == 10 && s[4] == '-' && s[7] == '-'
    && IsDigit(s[0]) && IsDigit(s[1]) && IsDigit(s[2]) && IsDigit(s[3])
    && IsDigit(s[5]) && IsDigit(s[6]) && IsDigit(s[8]) && IsDigit(s[9])
  }

  /** `time.Parse("2006-01-02", s)`: exactly four year digits, two month digits
      in 01..12 and two day digits naming a day of that month; anything else
      (other lengths, missing zero padding, `"dimension"`) fails. */
  function ParseDate(s: string): Option<Day>
  {
    if !HasDateShape(s) then None
    else
      var y, m, d := DigitsAt(s, 0, 4), DigitsAt(s, 5, 7), DigitsAt(s, 8, 10);
      if ValidDate(y, m, d) then Some(DayNumber(y, m, d)) else None
  }

  /** The `YYYY-MM-DD` text of a date with a four-digit year: the inverse of
      `ParseDate` that the round-trip lemmas below are stated with. */
  function FormatDate(y: int, m: int, d: int): (r: string)
    requires ValidDate(y, m, d) && y <= 9999
    ensures HasDateShape(r)
  {
    [DigitChar(y / 1000), DigitChar(y / 100 % 10), DigitChar(y / 10 % 10), DigitChar(y % 10), '-',
     DigitChar(m / 10), DigitChar(m % 10), '-', DigitChar(d / 10), DigitChar(d % 10)]
  }

  /** Every date with a four-digit year is accepted in its `YYYY-MM-DD` form
      and parses to its own ordinal. */
  lemma ParseFormatRoundTrip(y: int, m: int, d: int)
    requires ValidDate(y, m, d) && y <= 9999
    ensures ParseDate(FormatDate(y, m, d)) == Some(DayNumber(y, m, d))
  {
    var s := FormatDate(y, m, d);
    DivDiv10(y);
    assert DigitsAt(s, 0, 4) == y by {
      assert DigitsAt(s, 0, 0) == 0;
      assert DigitsAt(s, 0, 1) == y / 1000;
      assert DigitsAt(s, 0, 2) == y / 1000 * 10 + y / 100 % 10 == y / 100;
      assert DigitsAt(s, 0, 3) == y / 100 * 10 + y / 10 % 10 == y / 10;
    }
    assert DigitsAt(s, 5, 7) == m by {
      assert DigitsAt(s, 5, 5) == 0;
      assert DigitsAt(s, 5, 6) == m / 10;
    }
    assert DigitsAt(s, 8, 10) == d by {
      assert DigitsAt(s, 8, 8) == 0;
      assert DigitsAt(s, 8, 9) == d / 10;
    }
  }

  lemma DivDiv10(y: nat)
    ensures y / 10 / 10 == y / 100 && y / 100 / 10 == y / 1000
  {
    var q, r := y / 1000, y % 1000;
    assert y == 1000 * q + r && 0 <= r < 1000;
    assert y / 100 == 10 * q + r / 100;
    var q', r' := y / 100, y % 100;
    assert y == 100 * q' + r' && 0 <= r' < 100;
    assert y / 10 == 10 * q' + r' / 10;
  }

  /** The strict parse accepts each calendar day in exactly one spelling:
      two texts that parse to the same day are the same text. */
  lemma ParseDateInjective(s: string, t: string)
    requires ParseDate(s).Some? && ParseDate(s) == ParseDate(t)
    ensures s == t
  {
    var y, m, d := DigitsAt(s, 0, 4), DigitsAt(s, 5, 7), DigitsAt(s, 8, 10);
    var y', m', d' := DigitsAt(t, 0, 4), DigitsAt(t, 5, 7), DigitsAt(t, 8, 10);
    DayNumberMonotone(y, m, d, y', m', d');
    FormatOfParsed(s);
    FormatOfParsed(t);
  }

  /** A text the parse accepts is the `YYYY-MM-DD` form of the date it names. */
  lemma FormatOfParsed(s: string)
    requires ParseDate(s).Some?
    ensures var y, m, d := DigitsAt(s, 0, 4), DigitsAt(s, 5, 7), DigitsAt(s, 8, 10);
      ValidDate(y, m, d) && y <= 9999 && FormatDate(y, m, d) == s
  {
    var y, m, d := DigitsAt(s, 0, 4), DigitsAt(s, 5, 7), DigitsAt(s, 8, 10);
    FourDigits(s, 0);
    TwoDigits(s, 5);
    TwoDigits(s, 8);
    var f := FormatDate(y, m, d);
    assert f[..4] == s[..4];
    assert f[5..7] == s[5..7];
    assert f[8..] == s[8..];
    assert f == s[..4] + ['-'] + s[5..7] + ['-'] + s[8..];
  }

  lemma TwoDigits(s: string, lo: nat)
    requires lo + 2 <= |s| && IsDigit(s[lo]) && IsDigit(s[lo + 1])
    ensures var v := DigitsAt(s, lo, lo + 2);
      0 <= v <= 99 && DigitChar(v / 10) == s[lo] && DigitChar(v % 10) == s[lo + 1]
  {
    DigitRoundTrip(s[lo]);
    DigitRoundTrip(s[lo + 1]);
    assert DigitsAt(s, lo, lo + 1) == DigitValue(s[lo]);
  }

  lemma FourDigits(s: string, lo: nat)
    requires lo + 4 <= |s|
    requires IsDigit(s[lo]) && IsDigit(s[lo + 1]) && IsDigit(s[lo + 2]) && IsDigit(s[lo + 3])
    ensures var v := DigitsAt(s, lo, lo + 4);
      0 <= v <= 9999 && DigitChar(v / 1000) == s[lo] && DigitChar(v / 100 % 10) == s[lo + 1]
      && DigitChar(v / 10 % 10) == s[lo + 2] && DigitChar(v % 10) == s[lo + 3]
  {
    DigitRoundTrip(s[lo]);
    DigitRoundTrip(s[lo + 1]);
    DigitRoundTrip(s[lo + 2]);
    DigitRoundTrip(s[lo + 3]);
    var v1 := DigitsAt(s, lo, lo + 1);
    var v2 := DigitsAt(s, lo, lo + 2);
    var v3 := DigitsAt(s, lo, lo + 3);
    var v4 := DigitsAt(s, lo, lo + 4);
    assert DigitsAt(s, lo, lo) == 0;
    assert v1 == DigitValue(s[lo]);
    assert v2 == v1 * 10 + DigitValue(s[lo + 1]);
    assert v3 == v2 * 10 + DigitValue(s[lo + 2]);
    assert v4 == v3 * 10 + DigitValue(s[lo + 3]);
    assert v4 / 10 == v3 && v4 % 10 == DigitValue(s[lo + 3]);
    assert v3 / 10 == v2 && v3 % 10 == DigitValue(s[lo + 2]);
    assert v2 / 10 == v1 && v2 % 10 == DigitValue(s[lo + 1]);
    assert v4 / 100 == v2 by { assert v4 == v2 * 100 + (v4 - v2 * 100); }
    assert v4 / 1000 == v1 by { assert v4 == v1 * 1000 + (v4 - v1 * 1000); }
  }
}
