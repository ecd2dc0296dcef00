/**
 * Calendar dates as Python's `datetime` sees them, the `strptime(s, "%Y-%m-%d")` parser the
 * sitemap readers apply, and the `date - timedelta(days=1)` step behind their default cutoff.
 */
module Dates {
  import opened Wrappers
  import opened Text

  datatype Date = Date(year: int, month: int, day: int)

  /** A moment: a date plus the seconds elapsed since its midnight. */
  datatype DateTime = DateTime(date: Date, secs: real)

  predicate IsLeap(y: int) {
    y % 4 == 0 && (y % 100 != 0 || y % 400 == 0)
  }

  function DaysInMonth(y: int, m: int): (n: int)
    requires 1 <= m <= 12
    ensures 28 <= n <= 31
    ensures m == 2 ==> (n == 29 <==> IsLeap(y))
  {
    if m == 2 then (if IsLeap(y) then 29 else 28)
    else if m == 4 || m == 6 || m == 9 || m == 11 then 30
    else 31
  }

  /** The dates `datetime.date` accepts: years 1 to 9999 and a day that exists in its month. */
  predicate ValidDate(d: Date) {
    1 <= d.year <= 9999 && 1 <= d.month <= 12 && 1 <= d.day <= DaysInMonth(d.year, d.month)
  }

  predicate ValidDateTime(t: DateTime) {
    ValidDate(t.date) && 0.0 <= t.secs < 86400.0
  }

  predicate DateLt(a: Date, b: Date) {
    a.year < b.year
    || (a.year == b.year && a.month < b.month)
    || (a.year == b.year && a.month == b.month && a.day < b.day)
  }

  predicate DateLe(a: Date, b: Date) {
    a == b || DateLt(a, b)
  }

  /** Chronological order on moments. */
  predicate Le(a: DateTime, b: DateTime) {
    DateLt(a.date, b.date) || (a.date == b.date && a.secs <= b.secs)
  }

  /** `datetime(y, m, d)`: the midnight that starts a date. */
  function Midnight(d: Date): (t: DateTime)
    ensures t.date == d && t.secs == 0.0
  {
    DateTime(d, 0.0)
  }

  /** `dt.replace(hour=23, minute=59, second=59)` on a midnight. */
  function EndOfDay(d: Date): (t: DateTime)
    ensures t.date == d && t.secs == 86399.0
  {
    DateTime(d, 86399.0)
  }

  /** The calendar day before `d`. */
  function PrevDay(d: Date): (p: Date)
    requires ValidDate(d) && d != Date(1, 1, 1)
    ensures ValidDate(p)
    ensures DateLt(p, d)
    ensures forall x :: ValidDate(x) && DateLt(p, x) ==> DateLe(d, x)
  {
    if d.day > 1 then Date(d.year, d.month, d.day - 1)
    else if d.month > 1 then Date(d.year, d.month - 1, DaysInMonth(d.year, d.month - 1))
    else Date(d.year - 1, 12, 31)
  }

  /** `now - timedelta(days=1)`: the same time of day, one calendar day earlier. */
  function DayBefore(now: DateTime): (t: DateTime)
    requires ValidDateTime(now) && now.date != Date(1, 1, 1)
    ensures ValidDateTime(t) && t.secs == now.secs
    ensures Le(t, now) && t != now
  {
    DateTime(PrevDay(now.date), now.secs)
  }

  lemma LeTransitive(a: DateTime, b: DateTime, c: DateTime)
    requires Le(a, b) && Le(b, c)
    ensures Le(a, c)
  {
  }

  function DigitChar(n: int): (c: char)
    requires 0 <= n <= 9
    ensures IsDigit(c) && DigitValue(c) == n
  {
    (('0' as int) + n) as char
  }

  /** `%m` of `strptime`: `1[0-2]|0[1-9]|[1-9]`, the one alternative followed by the '-' the format demands. */
  function MonthToken(t: string): (r: Option<(int, nat)>)
    ensures r.Some? ==> 1 <= r.value.0 <= 12 && 1 <= r.value.1 < |t| && t[r.value.1] == '-'
  {
    if |t| >= 3 && t[0] == '1' && '0' <= t[1] <= '2' && t[2] == '-' then Some((10 + DigitValue(t[1]), 2))
    else if |t| >= 3 && t[0] == '0' && '1' <= t[1] <= '9' && t[2] == '-' then Some((DigitValue(t[1]), 2))
    else if |t| >= 2 && '1' <= t[0] <= '9' && t[1] == '-' then Some((DigitValue(t[0]), 1))
    else None
  }

  /** `%d` of `strptime`: the first of `3[01]|[12]\d|0[1-9]|[1-9]| [1-9]` that matches a prefix. */
  function DayToken(t: string): (r: Option<(int, nat)>)
    ensures r.Some? ==> 1 <= r.value.0 <= 31 && 1 <= r.value.1 <= |t|
  {
    if |t| >= 2 && t[0] == '3' && '0' <= t[1] <= '1' then Some((30 + DigitValue(t[1]), 2))
    else if |t| >= 2 && '1' <= t[0] <= '2' && IsDigit(t[1]) then Some((10 * DigitValue(t[0]) + DigitValue(t[1]), 2))
    else if |t| >= 2 && t[0] == '0' && '1' <= t[1] <= '9' then Some((DigitValue(t[1]), 2))
    else if |t| >= 1 && '1' <= t[0] <= '9' then Some((DigitValue(t[0]), 1))
    else if |t| >= 2 && t[0] == ' ' && '1' <= t[1] <= '9' then Some((DigitValue(t[1]), 2))
    else None
  }

  /**
   * `datetime.strptime(s, "%Y-%m-%d")`: four digits, '-', a month token, '-', a day token, and
   * nothing left over; a date that does not exist is rejected. `None` stands for the `ValueError`.
   */
  function ParseIsoDate(s: string): (r: Option<Date>)
    ensures r.Some? ==> ValidDate(r.value)
    ensures r.Some? ==> 8 <= |s| <= 10
  {
    if |s| < 5 || !(IsDigit(s[0]) && IsDigit(s[1]) && IsDigit(s[2]) && IsDigit(s[3])) || s[4] != '-' then None
    else
      var y := 1000 * DigitValue(s[0]) + 100 * DigitValue(s[1]) + 10 * DigitValue(s[2]) + DigitValue(s[3]);
      match MonthToken(s[5..])
      case None => None
      case Some((m, k)) =>
        match DayToken(s[5 + k + 1..])
        case None => None
        case Some((d, j)) =>
          if 5 + k + 1 + j == |s| && ValidDate(Date(y, m, d)) then Some(Date(y, m, d)) else None
  }

  /** `d.strftime("%Y-%m-%d")`, zero-padded. */
  function FormatIso(d: Date): (s: string)
    requires ValidDate(d)
    ensures |s| == 10 && s[4] == '-' && s[7] == '-'
  {
    [DigitChar(d.year / 1000), DigitChar(d.year / 100 % 10), DigitChar(d.year / 10 % 10), DigitChar(d.year % 10), '-',
     DigitChar(d.month / 10), DigitChar(d.month % 10), '-',
     DigitChar(d.day / 10), DigitChar(d.day % 10)]
  }

  lemma FourDigits(y: int)
    requires 0 <= y <= 9999
    ensures 1000 * (y / 1000) + 100 * (y / 100 % 10) + 10 * (y / 10 % 10) + y % 10 == y
  {
    var a, b := y / 1000, y % 1000;
    assert y == 1000 * a + b && 0 <= b < 1000;
    assert y / 100 == 10 * a + b / 100;
    assert y / 100 % 10 == b / 100;
    assert y / 10 == 100 * a + b / 10;
    assert y / 10 % 10 == b / 10 % 10;
  }

  lemma MonthTokenOfFormat(m: int, rest: string)
    requires 1 <= m <= 12
    ensures MonthToken([DigitChar(m / 10), DigitChar(m % 10), '-'] + rest) == Some((m, 2))
  {
  }

  lemma DayTokenOfFormat(d: int)
    requires 1 <= d <= 31
    ensures DayToken([DigitChar(d / 10), DigitChar(d % 10)]) == Some((d, 2))
  {
  }

  /** Formatting a valid date and parsing it back gives the date again. */
  lemma ParseFormatRoundTrip(d: Date)
    requires ValidDate(d)
    ensures ParseIsoDate(FormatIso(d)) == Some(d)
  {
    var s := FormatIso(d);
    FourDigits(d.year);
    assert s[5..] == [DigitChar(d.month / 10), DigitChar(d.month % 10), '-'] + s[8..];
    MonthTokenOfFormat(d.month, s[8..]);
    assert s[8..] == [DigitChar(d.day / 10), DigitChar(d.day % 10)];
    DayTokenOfFormat(d.day);
  }

  /** A parsed date always has a single form: formatting it and parsing again agrees. */
  lemma ParseIsCanonical(s: string)
    requires ParseIsoDate(s).Some?
    ensures ParseIsoDate(FormatIso(ParseIsoDate(s).value)) == ParseIsoDate(s)
  {
    ParseFormatRoundTrip(ParseIsoDate(s).value);
  }

  /** The unpadded and space-padded forms `strptime` also accepts. */
  lemma ParseAcceptsShortForms()
    ensures ParseIsoDate("2024-1-5") == Some(Date(2024, 1, 5))
    ensures ParseIsoDate("2024-01- 5") == Some(Date(2024, 1, 5))
    ensures ParseIsoDate("2024-02-30") == None
    ensures ParseIsoDate("2024-13-01") == None
    ensures ParseIsoDate("2024-01-011") == None
  {
    assert "2024-1-5"[5..] == "1-5";
    assert "2024-1-5"[7..] == "5";
    assert "2024-01- 5"[5..] == "01- 5";
    assert "2024-01- 5"[8..] == " 5";
    assert "2024-02-30"[5..] == "02-30";
    assert "2024-02-30"[8..] == "30";
    assert "2024-13-01"[5..] == "13-01";
    assert "2024-01-011"[5..] == "01-011";
    assert "2024-01-011"[8..] == "011";
  }
}
