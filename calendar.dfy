/**
 * Calendar dates as the backend's `datetime.date` sees them: the proleptic Gregorian
 * calendar, the ordinal day numbers every other module uses for dates, and the
 * `strptime(s, "%Y-%m-%d")` / `isoformat()` pair the date-parameter endpoints use.
 */
module Calendar {
  import opened Basics
  import opened Text

  datatype Date = Date(year: int, month: int, day: int)

  predicate IsLeap(y: int) {
    y % 4 == 0 && (y % 100 != 0 || y % 400 == 0)
  }

  function DaysInMonth(y: int, m: int): (n: int)
    requires 1 <= m <= 12
    ensures 28 <= n <= 31
    ensures m == 2 ==> (n == 29 <==> IsLeap(y))
  {
    if m == 2 then (if IsLeap(y) then 29 else 28)
    else if m in {4, 6, 9, 11} then 30
    else 31
  }

  /** A date `datetime.date` accepts: years 1 to 9999 and a day that exists in its month. */
  predicate Valid(d: Date) {
    1 <= d.year <= 9999 && 1 <= d.month <= 12 && 1 <= d.day <= DaysInMonth(d.year, d.month)
  }

  /** Days in the months before `m` of year `y`. */
  function DaysBeforeMonth(y: int, m: int): (n: nat)
    requires 1 <= m <= 12
    decreases m
  {
    if m == 1 then 0 else DaysBeforeMonth(y, m - 1) + DaysInMonth(y, m - 1)
  }

  /** `date.toordinal()`: 1 January of year 1 is day 1. */
  function Ordinal(d: Date): (n: int)
    requires Valid(d)
    ensures n >= 1
  {
    var y := d.year - 1;
    y * 365 + y / 4 - y / 100 + y / 400 + DaysBeforeMonth(d.year, d.month) + d.day
  }

  /** Within a month, consecutive dates have consecutive ordinals. */
  lemma OrdinalNextDay(d: Date)
    requires Valid(d) && d.day < DaysInMonth(d.year, d.month)
    ensures Valid(d.(day := d.day + 1)) && Ordinal(d.(day := d.day + 1)) == Ordinal(d) + 1
  {
  }

  /** The first of a month follows the last day of the month before it. */
  lemma OrdinalNextMonth(d: Date)
    requires Valid(d) && d.month < 12 && d.day == DaysInMonth(d.year, d.month)
    ensures Ordinal(Date(d.year, d.month + 1, 1)) == Ordinal(d) + 1
  {
  }

  /** The `%m` pattern: `1[0-2]`, `0[1-9]` or `[1-9]`. */
  predicate MonthForm(s: string) {
    || (|s| == 2 && s[0] == '1' && '0' <= s[1] <= '2')
    || (|s| == 2 && s[0] == '0' && '1' <= s[1] <= '9')
    || (|s| == 1 && '1' <= s[0] <= '9')
  }

  /** The `%d` pattern: `3[01]`, `[12]\d`, `0[1-9]`, `[1-9]` or a space and `[1-9]`. */
  predicate DayForm(s: string) {
    || (|s| == 2 && s[0] == '3' && '0' <= s[1] <= '1')
    || (|s| == 2 && '1' <= s[0] <= '2' && IsDigit(s[1]))
    || (|s| == 2 && s[0] == '0' && '1' <= s[1] <= '9')
    || (|s| == 1 && '1' <= s[0] <= '9')
    || (|s| == 2 && s[0] == ' ' && '1' <= s[1] <= '9')
  }

  /** The number a month or day field denotes (a leading space counts for nothing). */
  function FieldValue(s: string): (n: nat)
    requires MonthForm(s) || DayForm(s)
    ensures MonthForm(s) ==> 1 <= n <= 12
    ensures DayForm(s) ==> 1 <= n <= 31
  {
    if s[0] == ' ' then DigitValue(s[1])
    else if |s| == 1 then DigitValue(s[0])
    else
      TwoDigitsValue(s);
      DigitsValue(s)
  }

  /**
   * `datetime.strptime(s, "%Y-%m-%d").date()`: four digits, a dash, a month field, a
   * dash and a day field, naming a date that exists; `None` where it raises `ValueError`.
   */
  function ParseIsoDate(s: string): (r: Option<Date>)
    ensures r.Some? ==> Valid(r.value)
    ensures r.Some? ==> |s| >= 8 && s[4] == '-' && AllDigits(s[..4]) && r.value.year == DigitsValue(s[..4])
  {
    if |s| < 5 || !AllDigits(s[..4]) || s[4] != '-' then None
    else
      var parts := Split(s[5..], '-');
      if |parts| != 2 || !MonthForm(parts[0]) || !DayForm(parts[1]) then None
      else
        var d := Date(DigitsValue(s[..4]), FieldValue(parts[0]), FieldValue(parts[1]));
        if Valid(d) then
          assert |s[5..]| >= 3 by {
            assert s[5..] == parts[0] + ['-'] + parts[1] by { SplitTwo(s[5..], '-'); }
          }
          Some(d)
        else None
  }

  /** A string that splits in two is the two parts joined by the separator. */
  lemma {:induction false} SplitTwo(s: string, sep: char)
    requires |Split(s, sep)| == 2
    ensures s == Split(s, sep)[0] + [sep] + Split(s, sep)[1]
    decreases |s|
  {
    assert s != [];
    var rest := Split(s[1..], sep);
    if s[0] == sep {
      assert |rest| == 1;
      SplitOne(s[1..], sep);
    } else {
      SplitTwo(s[1..], sep);
    }
  }

  /** A string that does not split is its own single part. */
  lemma {:induction false} SplitOne(s: string, sep: char)
    requires |Split(s, sep)| == 1
    ensures Split(s, sep)[0] == s
    decreases |s|
  {
    if s != [] {
      SplitOne(s[1..], sep);
    }
  }

  /** `date.isoformat()`: "YYYY-MM-DD" with zero padding. */
  function IsoFormat(d: Date): (s: string)
    requires Valid(d)
    ensures |s| == 10
  {
    NatToStringShort(d.year);
    NatToStringShort(d.month);
    NatToStringShort(d.day);
    ZeroPad(d.year, 4) + "-" + ZeroPad(d.month, 2) + "-" + ZeroPad(d.day, 2)
  }

  /** A zero-padded month is a `%m` field denoting that month. */
  lemma PaddedMonth(m: nat)
    requires 1 <= m <= 12
    ensures MonthForm(ZeroPad(m, 2)) && FieldValue(ZeroPad(m, 2)) == m
  {
    var s := ZeroPad(m, 2);
    NatToStringShort(m);
    ZeroPadValue(m, 2);
    TwoDigitsValue(s);
  }

  /** A zero-padded day of a month is a `%d` field denoting that day. */
  lemma PaddedDay(d: nat)
    requires 1 <= d <= 31
    ensures DayForm(ZeroPad(d, 2)) && FieldValue(ZeroPad(d, 2)) == d
  {
    var s := ZeroPad(d, 2);
    NatToStringShort(d);
    ZeroPadValue(d, 2);
    TwoDigitsValue(s);
  }

  /** Parsing the ISO rendering of a valid date gives that date back. */
  lemma {:induction false} ParseIsoFormat(d: Date)
    requires Valid(d)
    ensures ParseIsoDate(IsoFormat(d)) == Some(d)
  {
    NatToStringShort(d.year);
    var y, m, dd := ZeroPad(d.year, 4), ZeroPad(d.month, 2), ZeroPad(d.day, 2);
    var s := IsoFormat(d);
    assert s == y + "-" + m + "-" + dd;
    assert s[..4] == y;
    assert s[4] == '-';
    assert s[5..] == m + ['-'] + dd;
    assert '-' !in m && '-' !in dd by {
      assert AllDigits(m) && AllDigits(dd);
    }
    SplitNoSep(dd, '-');
    SplitJoin(m, '-', dd);
    PaddedMonth(d.month);
    PaddedDay(d.day);
    ZeroPadValue(d.year, 4);
  }

  /** Parsing is insensitive to padding: the ISO rendering of a parsed date parses the same. */
  lemma ParseNormalises(s: string)
    requires ParseIsoDate(s).Some?
    ensures ParseIsoDate(IsoFormat(ParseIsoDate(s).value)) == ParseIsoDate(s)
  {
    ParseIsoFormat(ParseIsoDate(s).value);
  }
}
