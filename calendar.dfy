/**
 * Calendar dates and the two date grammars the model reads:
 * `datetime.strptime(s, "%Y-%m-%d")` for start dates and the ISO-8601
 * timestamps the data provider may send.  Instants are milliseconds since
 * 1970-01-01T00:00 in the proleptic Gregorian calendar, without time zones.
 */
module Calendar {
  import opened Wrappers
  import opened Text

  datatype Date = Date(year: int, month: int, day: int)

  predicate IsLeap(y: int) {
    y % 4 == 0 && (y % 100 != 0 || y % 400 == 0)
  }

  function DaysInMonth(y: int, m: int): int
    requires 1 <= m <= 12
  {
    if m == 2 then (if IsLeap(y) then 29 else 28)
    else if m == 4 || m == 6 || m == 9 || m == 11 then 30
    else 31
  }

  /** The dates Python's `datetime.date` can represent. */
  predicate ValidDate(d: Date) {
    && 1 <= d.year <= 9999
    && 1 <= d.month <= 12
    && 1 <= d.day <= DaysInMonth(d.year, d.month)
  }

  const MsPerDay: int := 86400000

  /** Days from 1970-01-01 to `d` (negative before it). */
  function DaysFromCivil(d: Date): int {
    var y := if d.month <= 2 then d.year - 1 else d.year;
    var era := y / 400;
    var yoe := y - era * 400;
    var mp := (d.month + 9) % 12;
    var doy := (153 * mp + 2) / 5 + d.day - 1;
    var doe := yoe * 365 + yoe / 4 - yoe / 100 + doy;
    era * 146097 + doe - 719468
  }

  /** The instant at which the day `d` begins. */
  function DayStartMs(d: Date): real {
    (DaysFromCivil(d) * MsPerDay) as real
  }

  function DigitValue(c: char): int
    requires IsDigit(c)
  {
    c as int - '0' as int
  }

  function DigitChar(n: int): (c: char)
    requires 0 <= n <= 9
    ensures IsDigit(c) && DigitValue(c) == n
  {
    ('0' as int + n) as char
  }

  /** The value of the `n` decimal digits of `s` starting at `i`, if they are all digits. */
  function DigitsValue(s: string, i: nat, n: nat): Option<nat>
    requires i + n <= |s|
    decreases n
  {
    if n == 0 then Some(0)
    else if !IsDigit(s[i + n - 1]) then None
    else match DigitsValue(s, i, n - 1)
      case None => None
      case Some(v) => Some(v * 10 + DigitValue(s[i + n - 1]))
  }

  /**
   * The `%m` directive of `strptime`: the regular expression
   * `1[0-2]|0[1-9]|[1-9]` at position `i`, first alternative first.
   * Gives the month and the position after it.
   */
  function MatchMonth(s: string, i: nat): (r: Option<(int, nat)>)
    ensures r.Some? ==> 1 <= r.value.0 <= 12 && i < r.value.1 <= |s|
  {
    if i + 1 < |s| && s[i] == '1' && '0' <= s[i + 1] <= '2' then
      Some((10 + DigitValue(s[i + 1]), i + 2))
    else if i + 1 < |s| && s[i] == '0' && '1' <= s[i + 1] <= '9' then
      Some((DigitValue(s[i + 1]), i + 2))
    else if i < |s| && '1' <= s[i] <= '9' then
      Some((DigitValue(s[i]), i + 1))
    else
      None
  }

  /**
   * The `%d` directive of `strptime`: the regular expression
   * `3[01]|[12]\d|0[1-9]|[1-9]| [1-9]` at position `i`.
   */
  function MatchDay(s: string, i: nat): (r: Option<(int, nat)>)
    ensures r.Some? ==> 1 <= r.value.0 <= 31 && i < r.value.1 <= |s|
  {
    if i + 1 < |s| && s[i] == '3' && '0' <= s[i + 1] <= '1' then
      Some((30 + DigitValue(s[i + 1]), i + 2))
    else if i + 1 < |s| && '1' <= s[i] <= '2' && IsDigit(s[i + 1]) then
      Some((10 * DigitValue(s[i]) + DigitValue(s[i + 1]), i + 2))
    else if i + 1 < |s| && s[i] == '0' && '1' <= s[i + 1] <= '9' then
      Some((DigitValue(s[i + 1]), i + 2))
    else if i < |s| && '1' <= s[i] <= '9' then
      Some((DigitValue(s[i]), i + 1))
    else if i + 1 < |s| && s[i] == ' ' && '1' <= s[i + 1] <= '9' then
      Some((DigitValue(s[i + 1]), i + 2))
    else
      None
  }

  /**
   * `datetime.strptime(s, "%Y-%m-%d")`: four digits of year, a dash, the
   * month, a dash, the day, nothing after it, and a real calendar date.
   * `None` stands for the `ValueError` it raises otherwise.
   */
  function ParseDate(s: string): (r: Option<Date>)
    ensures r.Some? ==> ValidDate(r.value)
  {
    if |s| < 5 || DigitsValue(s, 0, 4).None? || s[4] != '-' then None
    else
      var year := DigitsValue(s, 0, 4).value;
      match MatchMonth(s, 5)
      case None => None
      case Some((month, i)) =>
        if i >= |s| || s[i] != '-' then None
        else
          match MatchDay(s, i + 1)
          case None => None
          case Some((day, j)) =>
            if j == |s| && ValidDate(Date(year, month, day)) then Some(Date(year, month, day))
            else None
  }

  /**
   * An ISO-8601 timestamp `YYYY-MM-DDTHH:MM:SS`, optionally followed by `Z`,
   * read as an instant.  `None` stands for the parse error.
   */
  function ParseIsoTimestamp(s: string): Option<real> {
    if !(|s| == 19 || (|s| == 20 && s[19] == 'Z')) then None
    else if !(s[4] == '-' && s[7] == '-' && s[10] == 'T' && s[13] == ':' && s[16] == ':') then None
    else
      match (DigitsValue(s, 0, 4), DigitsValue(s, 5, 2), DigitsValue(s, 8, 2),
             DigitsValue(s, 11, 2), DigitsValue(s, 14, 2), DigitsValue(s, 17, 2))
      case (Some(year), Some(month), Some(day), Some(hour), Some(minute), Some(second)) =>
        var d := Date(year, month, day);
        if !ValidDate(d) || hour >= 24 || minute >= 60 || second >= 60 then None
        else Some(DayStartMs(d) + ((hour * 3600 + minute * 60 + second) * 1000) as real)
      case _ => None
  }

  /** Decimal digits of `n` without padding, as `strftime("%Y")` prints a year. */
  function Decimal(n: nat): (r: string)
    ensures |r| > 0
  {
    if n < 10 then [DigitChar(n)] else Decimal(n / 10) + [DigitChar(n % 10)]
  }

  function TwoDigits(n: nat): (r: string)
    requires n < 100
    ensures |r| == 2 && IsDigit(r[0]) && IsDigit(r[1])
  {
    [DigitChar(n / 10), DigitChar(n % 10)]
  }

  /** `strftime("%Y-%m-%d")`. */
  function FormatDate(d: Date): string
    requires ValidDate(d)
  {
    Decimal(d.year) + "-" + TwoDigits(d.month) + "-" + TwoDigits(d.day)
  }

  lemma FourDigitYear(y: int)
    requires 1000 <= y <= 9999
    ensures var s := Decimal(y); |s| == 4 && DigitsValue(s, 0, 4) == Some(y)
  {
    var a := y / 10;
    var b := a / 10;
    var c := b / 10;
    assert y == 10 * a + y % 10 && a == 10 * b + a % 10 && b == 10 * c + b % 10;
    assert 1 <= c < 10;
    assert Decimal(b) == [DigitChar(c), DigitChar(b % 10)];
    assert Decimal(a) == Decimal(b) + [DigitChar(a % 10)];
    var s := Decimal(y);
    assert s == Decimal(a) + [DigitChar(y % 10)];
    assert s[0] == DigitChar(c) && s[1] == DigitChar(b % 10);
    assert s[2] == DigitChar(a % 10) && s[3] == DigitChar(y % 10);
    FourDigitsValue(s, 0);
  }

  /** A formatted date with a four-digit year reads back as itself. */
  lemma ParseFormatDate(d: Date)
    requires ValidDate(d) && d.year >= 1000
    ensures ParseDate(FormatDate(d)) == Some(d)
  {
    FourDigitYear(d.year);
    var s := FormatDate(d);
    var mm, dd := TwoDigits(d.month), TwoDigits(d.day);
    assert |s| == 10;
    assert s[..4] == Decimal(d.year);
    assert forall k :: 0 <= k < 4 ==> s[k] == Decimal(d.year)[k];
    assert DigitsValue(s, 0, 4) == DigitsValue(Decimal(d.year), 0, 4);
    assert s[4] == '-' && s[5] == mm[0] && s[6] == mm[1] && s[7] == '-' && s[8] == dd[0] && s[9] == dd[1];
    assert MatchMonth(s, 5) == Some((d.month, 7));
    assert MatchDay(s, 8) == Some((d.day, 10));
  }

  /** The calendar day after `d`. */
  function NextDay(d: Date): (n: Date)
    requires ValidDate(d)
    ensures d.year < 9999 || d.month < 12 || d.day < 31 ==> ValidDate(n)
  {
    if d.day < DaysInMonth(d.year, d.month) then Date(d.year, d.month, d.day + 1)
    else if d.month < 12 then Date(d.year, d.month + 1, 1)
    else Date(d.year + 1, 1, 1)
  }

  /** Days from the epoch to 1 March of `y`, plus 719468. */
  function MarchDays(y: int): int {
    var era := y / 400;
    var yoe := y - era * 400;
    era * 146097 + yoe * 365 + yoe / 4 - yoe / 100
  }

  /** The March-based year that starts in `y` has 366 days when the following February has 29. */
  lemma MarchYearLength(y: int)
    ensures MarchDays(y) == MarchDays(y - 1) + (if IsLeap(y) then 366 else 365)
  {
    var q, r := y / 400, y % 400;
    assert y == 400 * q + r && 0 <= r < 400;
    assert MarchDays(y) == q * 146097 + r * 365 + r / 4 - r / 100;
    YearRemainders(y);
    if r == 0 {
      assert (y - 1) / 400 == q - 1 && (y - 1) - (q - 1) * 400 == 399;
      assert MarchDays(y - 1) == (q - 1) * 146097 + 399 * 365 + 99 - 3;
    } else {
      assert (y - 1) / 400 == q && (y - 1) - q * 400 == r - 1;
      assert MarchDays(y - 1) == q * 146097 + (r - 1) * 365 + (r - 1) / 4 - (r - 1) / 100;
      QuarterStep(r);
      CenturyStep(r);
    }
  }

  lemma YearRemainders(y: int)
    ensures y % 4 == (y % 400) % 4 && y % 100 == (y % 400) % 100
  {
    var q := y / 400;
    var r := y - 400 * q;
    assert r == y % 400;
    assert y == 4 * (y / 4) + y % 4 && r == 4 * (r / 4) + r % 4;
    assert 4 * (y / 4 - r / 4 - 100 * q) == r % 4 - y % 4;
    assert y == 100 * (y / 100) + y % 100 && r == 100 * (r / 100) + r % 100;
    assert 100 * (y / 100 - r / 100 - 4 * q) == r % 100 - y % 100;
  }

  lemma QuarterStep(r: int)
    requires 1 <= r
    ensures r / 4 - (r - 1) / 4 == (if r % 4 == 0 then 1 else 0)
  {
  }

  lemma CenturyStep(r: int)
    requires 1 <= r
    ensures r / 100 - (r - 1) / 100 == (if r % 100 == 0 then 1 else 0)
  {
  }

  /** The day number in March-based terms. */
  lemma DaysFromCivilMarch(d: Date)
    requires 1 <= d.month <= 12
    ensures var y := if d.month <= 2 then d.year - 1 else d.year;
      var mp := (d.month + 9) % 12;
      DaysFromCivil(d) == MarchDays(y) + (153 * mp + 2) / 5 + d.day - 1 - 719468
  {
  }

  /** Successive days have successive day numbers, so each day is `MsPerDay` after the one before. */
  lemma DaysFromCivilNext(d: Date)
    requires ValidDate(d)
    ensures DaysFromCivil(NextDay(d)) == DaysFromCivil(d) + 1
    ensures DayStartMs(NextDay(d)) == DayStartMs(d) + MsPerDay as real
  {
    var n := NextDay(d);
    if d.day < DaysInMonth(d.year, d.month) {
      NextWithinMonth(d, n);
    } else if d.month == 2 {
      NextMarchFirst(d, n);
    } else if d.month < 12 {
      NextMonthFirst(d, n);
    } else {
      NextNewYear(d, n);
    }
    assert DaysFromCivil(n) * MsPerDay == DaysFromCivil(d) * MsPerDay + MsPerDay;
  }

  lemma NextWithinMonth(d: Date, n: Date)
    requires 1 <= d.month <= 12 && n == Date(d.year, d.month, d.day + 1)
    ensures DaysFromCivil(n) == DaysFromCivil(d) + 1
  {
    DaysFromCivilMarch(d);
    DaysFromCivilMarch(n);
  }

  lemma NextMarchFirst(d: Date, n: Date)
    requires d.month == 2 && d.day == DaysInMonth(d.year, 2) && n == Date(d.year, 3, 1)
    ensures DaysFromCivil(n) == DaysFromCivil(d) + 1
  {
    DaysFromCivilMarch(d);
    DaysFromCivilMarch(n);
    assert (2 + 9) % 12 == 11 && (153 * 11 + 2) / 5 == 337 && (3 + 9) % 12 == 0;
    MarchYearLength(d.year);
  }

  lemma NextMonthFirst(d: Date, n: Date)
    requires 1 <= d.month < 12 && d.month != 2 && d.day == DaysInMonth(d.year, d.month)
    requires n == Date(d.year, d.month + 1, 1)
    ensures DaysFromCivil(n) == DaysFromCivil(d) + 1
  {
    DaysFromCivilMarch(d);
    DaysFromCivilMarch(n);
    assert (d.month + 1 + 9) % 12 == (d.month + 10) % 12;
    MonthStartStep(d.month, d.day);
  }

  lemma NextNewYear(d: Date, n: Date)
    requires d.month == 12 && d.day == 31 && n == Date(d.year + 1, 1, 1)
    ensures DaysFromCivil(n) == DaysFromCivil(d) + 1
  {
    DaysFromCivilMarch(d);
    DaysFromCivilMarch(n);
    assert (12 + 9) % 12 == 9 && (153 * 9 + 2) / 5 == 275 && (1 + 9) % 12 == 10 && (153 * 10 + 2) / 5 == 306;
  }

  /** Outside February, the offset of the next month's first day is the current month's length further on. */
  lemma MonthStartStep(m: int, len: int)
    requires 1 <= m < 12 && m != 2
    requires len == (if m == 4 || m == 6 || m == 9 || m == 11 then 30 else 31)
    ensures (153 * ((m + 10) % 12) + 2) / 5 == (153 * ((m + 9) % 12) + 2) / 5 + len
  {
    if m == 1 {
      assert (153 * 11 + 2) / 5 == 337 && (153 * 10 + 2) / 5 == 306;
    } else {
      assert (m + 10) % 12 == m - 2 && (m + 9) % 12 == m - 3;
    }
  }

  /** The Unix epoch is day 0. */
  lemma EpochIsDayZero()
    ensures DaysFromCivil(Date(1970, 1, 1)) == 0
  {
    assert 1969 / 400 == 4 && 1969 - 4 * 400 == 369;
    assert (1 + 9) % 12 == 10 && (153 * 10 + 2) / 5 == 306;
    assert 369 / 4 == 92 && 369 / 100 == 3;
    assert 369 * 365 + 92 - 3 + 306 == 135080;
    assert 4 * 146097 + 135080 - 719468 == 0;
  }

  /** 2024-01-05 is day 19727, so it begins 1704412800000 ms after the epoch. */
  lemma DayOfJanuaryFifth()
    ensures DaysFromCivil(Date(2024, 1, 5)) == 19727
    ensures DayStartMs(Date(2024, 1, 5)) == 1704412800000.0
  {
    assert 2023 / 400 == 5 && 2023 - 5 * 400 == 23;
    assert (1 + 9) % 12 == 10 && (153 * 10 + 2) / 5 + 5 - 1 == 310;
    assert 23 / 4 == 5 && 23 / 100 == 0;
    assert 23 * 365 + 5 - 0 + 310 == 8710;
    assert 5 * 146097 + 8710 - 719468 == 19727;
    assert 19727 * MsPerDay == 1704412800000;
  }

  /** Two digits at `i` read as their decimal value. */
  lemma TwoDigitsValue(s: string, i: nat)
    requires i + 2 <= |s| && IsDigit(s[i]) && IsDigit(s[i + 1])
    ensures DigitsValue(s, i, 2) == Some(10 * DigitValue(s[i]) + DigitValue(s[i + 1]))
  {
    assert DigitsValue(s, i, 1) == Some(DigitValue(s[i]));
  }

  /** Four digits at `i` read as their decimal value. */
  lemma FourDigitsValue(s: string, i: nat)
    requires i + 4 <= |s| && IsDigit(s[i]) && IsDigit(s[i + 1]) && IsDigit(s[i + 2]) && IsDigit(s[i + 3])
    ensures DigitsValue(s, i, 4) == Some(1000 * DigitValue(s[i]) + 100 * DigitValue(s[i + 1])
                                         + 10 * DigitValue(s[i + 2]) + DigitValue(s[i + 3]))
  {
    TwoDigitsValue(s, i);
    assert DigitsValue(s, i, 3) == Some(100 * DigitValue(s[i]) + 10 * DigitValue(s[i + 1]) + DigitValue(s[i + 2]));
  }

  /** The fields of an ISO timestamp for midnight on 2024-01-05. */
  lemma MidnightFields(s: string)
    requires |s| >= 19
    requires s[0] == '2' && s[1] == '0' && s[2] == '2' && s[3] == '4' && s[4] == '-'
    requires s[5] == '0' && s[6] == '1' && s[7] == '-' && s[8] == '0' && s[9] == '5' && s[10] == 'T'
    requires s[11] == '0' && s[12] == '0' && s[13] == ':' && s[14] == '0' && s[15] == '0' && s[16] == ':'
    requires s[17] == '0' && s[18] == '0'
    ensures DigitsValue(s, 0, 4) == Some(2024)
    ensures DigitsValue(s, 5, 2) == Some(1) && DigitsValue(s, 8, 2) == Some(5)
    ensures DigitsValue(s, 11, 2) == Some(0) && DigitsValue(s, 14, 2) == Some(0)
    ensures DigitsValue(s, 17, 2) == Some(0)
  {
    FourDigitsValue(s, 0);
    TwoDigitsValue(s, 5);
    TwoDigitsValue(s, 8);
    TwoDigitsValue(s, 11);
    TwoDigitsValue(s, 14);
    TwoDigitsValue(s, 17);
  }

  /**
   * The two encodings the provider uses agree: the ISO timestamp of midnight
   * on 2024-01-05 and the epoch value 1704412800000 are the same instant.
   */
  lemma IsoAndEpochAgree()
    ensures ParseIsoTimestamp("2024-01-05T00:00:00Z") == Some(1704412800000.0)
    ensures ParseIsoTimestamp("2024-01-05T00:00:00") == Some(1704412800000.0)
  {
    DayOfJanuaryFifth();
    assert ValidDate(Date(2024, 1, 5));
    MidnightFields("2024-01-05T00:00:00Z");
    MidnightFields("2024-01-05T00:00:00");
  }

  /** Digit runs at the same place in two strings that agree there have the same value. */
  lemma {:induction false} DigitsValueAgree(s: string, t: string, i: nat, n: nat)
    requires i + n <= |s| && i + n <= |t|
    requires forall k :: i <= k < i + n ==> s[k] == t[k]
    ensures DigitsValue(s, i, n) == DigitsValue(t, i, n)
    decreases n
  {
    if n > 0 {
      DigitsValueAgree(s, t, i, n - 1);
    }
  }

  /** The two digits `TwoDigits` prints read back as the number. */
  lemma TwoDigitsRead(s: string, i: nat, n: nat)
    requires n < 100 && i + 2 <= |s| && s[i] == TwoDigits(n)[0] && s[i + 1] == TwoDigits(n)[1]
    ensures DigitsValue(s, i, 2) == Some(n)
  {
    TwoDigitsValue(s, i);
  }

  /**
   * What an accepted ISO timestamp means: its date fields spell a valid
   * date, its clock fields a time of day, and the instant is that many
   * milliseconds after the day begins, so it lies within that day.
   */
  lemma IsoWithinDay(s: string)
    requires ParseIsoTimestamp(s).Some?
    ensures |s| == 19 || |s| == 20
    ensures DigitsValue(s, 0, 4).Some? && DigitsValue(s, 5, 2).Some? && DigitsValue(s, 8, 2).Some?
    ensures DigitsValue(s, 11, 2).Some? && DigitsValue(s, 14, 2).Some? && DigitsValue(s, 17, 2).Some?
    ensures var d := Date(DigitsValue(s, 0, 4).value, DigitsValue(s, 5, 2).value, DigitsValue(s, 8, 2).value);
      var clock := DigitsValue(s, 11, 2).value * 3600 + DigitsValue(s, 14, 2).value * 60 + DigitsValue(s, 17, 2).value;
      && ValidDate(d)
      && DigitsValue(s, 11, 2).value < 24 && DigitsValue(s, 14, 2).value < 60 && DigitsValue(s, 17, 2).value < 60
      && ParseIsoTimestamp(s).value == DayStartMs(d) + (clock * 1000) as real
      && DayStartMs(d) <= ParseIsoTimestamp(s).value < DayStartMs(d) + MsPerDay as real
  {
    var hour, minute, second := DigitsValue(s, 11, 2).value, DigitsValue(s, 14, 2).value, DigitsValue(s, 17, 2).value;
    assert hour * 3600 + minute * 60 + second < 86400;
  }

  /** `YYYY-MM-DDTHH:MM:SS`, with `Z` appended when `zone` holds. */
  function IsoText(d: Date, hour: nat, minute: nat, second: nat, zone: bool): string
    requires ValidDate(d) && hour < 24 && minute < 60 && second < 60
  {
    FormatDate(d) + "T" + TwoDigits(hour) + ":" + TwoDigits(minute) + ":" + TwoDigits(second)
      + (if zone then "Z" else "")
  }

  /**
   * Every timestamp of a date with a four-digit year, written in ISO form
   * with or without `Z`, reads back as the day's first instant plus its
   * clock time.
   */
  lemma IsoRoundTrip(d: Date, hour: nat, minute: nat, second: nat, zone: bool)
    requires ValidDate(d) && d.year >= 1000 && hour < 24 && minute < 60 && second < 60
    ensures ParseIsoTimestamp(IsoText(d, hour, minute, second, zone))
      == Some(DayStartMs(d) + ((hour * 3600 + minute * 60 + second) * 1000) as real)
  {
    var f := FormatDate(d);
    FourDigitYear(d.year);
    assert |f| == 10;
    var hh, mm, ss := TwoDigits(hour), TwoDigits(minute), TwoDigits(second);
    var tail := if zone then "Z" else "";
    var s := IsoText(d, hour, minute, second, zone);
    assert s == f + ("T" + hh + ":" + mm + ":" + ss + tail);
    var rest := "T" + hh + ":" + mm + ":" + ss + tail;
    assert |rest| == 9 + |tail|;
    assert s[..10] == f;
    assert forall k :: 0 <= k < |rest| ==> s[10 + k] == rest[k];
    assert rest[0] == 'T' && rest[1] == hh[0] && rest[2] == hh[1] && rest[3] == ':';
    assert rest[4] == mm[0] && rest[5] == mm[1] && rest[6] == ':' && rest[7] == ss[0] && rest[8] == ss[1];
    assert zone ==> rest[9] == 'Z';
    IsoTimestampIn(d, hour, minute, second, s);
  }

  /** Midnight of a date with a four-digit year reads as the instant the day begins. */
  lemma IsoMidnight(d: Date)
    requires ValidDate(d) && d.year >= 1000
    ensures ParseIsoTimestamp(FormatDate(d) + "T00:00:00") == Some(DayStartMs(d))
    ensures ParseIsoTimestamp(FormatDate(d) + "T00:00:00Z") == Some(DayStartMs(d))
  {
    var f := FormatDate(d);
    FourDigitYear(d.year);
    assert |f| == 10;
    var a, b := f + "T00:00:00", f + "T00:00:00Z";
    assert a[..10] == f && b[..10] == f;
    assert a[10..] == "T00:00:00" && b[10..] == "T00:00:00Z";
    MidnightIn(d, a);
    MidnightIn(d, b);
  }

  lemma MidnightIn(d: Date, s: string)
    requires ValidDate(d) && d.year >= 1000
    requires (|s| == 19 || (|s| == 20 && s[19] == 'Z'))
    requires s[..10] == FormatDate(d)
    requires s[10] == 'T' && s[11] == '0' && s[12] == '0' && s[13] == ':'
    requires s[14] == '0' && s[15] == '0' && s[16] == ':' && s[17] == '0' && s[18] == '0'
    ensures ParseIsoTimestamp(s) == Some(DayStartMs(d))
  {
    IsoDateFields(d, s);
    TwoDigitsValue(s, 11);
    TwoDigitsValue(s, 14);
    TwoDigitsValue(s, 17);
  }

  /** A string spelling a date and a clock time in ISO form reads as that instant. */
  lemma IsoTimestampIn(d: Date, hour: nat, minute: nat, second: nat, s: string)
    requires ValidDate(d) && d.year >= 1000 && hour < 24 && minute < 60 && second < 60
    requires (|s| == 19 || (|s| == 20 && s[19] == 'Z'))
    requires s[..10] == FormatDate(d)
    requires s[10] == 'T' && s[13] == ':' && s[16] == ':'
    requires s[11] == TwoDigits(hour)[0] && s[12] == TwoDigits(hour)[1]
    requires s[14] == TwoDigits(minute)[0] && s[15] == TwoDigits(minute)[1]
    requires s[17] == TwoDigits(second)[0] && s[18] == TwoDigits(second)[1]
    ensures ParseIsoTimestamp(s) == Some(DayStartMs(d) + ((hour * 3600 + minute * 60 + second) * 1000) as real)
  {
    IsoDateFields(d, s);
    TwoDigitsRead(s, 11, hour);
    TwoDigitsRead(s, 14, minute);
    TwoDigitsRead(s, 17, second);
  }

  /** The date fields of a string that starts with a formatted date. */
  lemma IsoDateFields(d: Date, s: string)
    requires ValidDate(d) && d.year >= 1000 && |s| >= 10 && s[..10] == FormatDate(d)
    ensures s[4] == '-' && s[7] == '-'
    ensures DigitsValue(s, 0, 4) == Some(d.year)
    ensures DigitsValue(s, 5, 2) == Some(d.month) && DigitsValue(s, 8, 2) == Some(d.day)
  {
    FourDigitYear(d.year);
    var f := FormatDate(d);
    var y, mm, dd := Decimal(d.year), TwoDigits(d.month), TwoDigits(d.day);
    assert f == y + "-" + mm + "-" + dd;
    assert |f| == 10;
    assert forall k :: 0 <= k < 10 ==> s[k] == f[k];
    assert forall k :: 0 <= k < 4 ==> f[k] == y[k];
    DigitsValueAgree(s, y, 0, 4);
    assert s[5] == mm[0] && s[6] == mm[1] && s[8] == dd[0] && s[9] == dd[1];
    TwoDigitsRead(s, 5, d.month);
    TwoDigitsRead(s, 8, d.day);
  }

  /** `strptime` accepts a zero-padded date. */
  lemma ParsePaddedDate()
    ensures ParseDate("2024-01-05") == Some(Date(2024, 1, 5))
  {
    var a := "2024-01-05";
    FourDigitsValue(a, 0);
  }

  /** `strptime` accepts a month and a day without padding. */
  lemma ParseUnpaddedDate()
    ensures ParseDate("2024-1-5") == Some(Date(2024, 1, 5))
  {
    var b := "2024-1-5";
    FourDigitsValue(b, 0);
  }

  /** `strptime` accepts the leap day of a leap year. */
  lemma ParseLeapDay()
    ensures ParseDate("2024-02-29") == Some(Date(2024, 2, 29))
  {
    var c := "2024-02-29";
    FourDigitsValue(c, 0);
    assert MatchMonth(c, 5) == Some((2, 7));
    assert MatchDay(c, 8) == Some((29, 10));
    assert ValidDate(Date(2024, 2, 29));
  }

  /** `strptime` rejects the leap day of a common year. */
  lemma ParseCommonYearLeapDay()
    ensures ParseDate("2023-02-29") == None
  {
    var d := "2023-02-29";
    FourDigitsValue(d, 0);
    assert MatchMonth(d, 5) == Some((2, 7));
    assert MatchDay(d, 8) == Some((29, 10));
    assert !ValidDate(Date(2023, 2, 29));
  }

  /** `strptime` rejects other separators, short years, trailing text and month 13. */
  lemma ParseDateRejects()
    ensures ParseDate("2024/01/05") == None
    ensures ParseDate("24-01-05") == None
    ensures ParseDate("2024-01-051") == None
    ensures ParseDate("2024-13-01") == None
  {
    var e := "2024/01/05";
    assert e[4] != '-';
    var f := "24-01-05";
    assert DigitsValue(f, 0, 3) == None;
    var g := "2024-01-051";
    FourDigitsValue(g, 0);
    assert MatchDay(g, 8) == Some((5, 10));
    var h := "2024-13-01";
    FourDigitsValue(h, 0);
    assert MatchMonth(h, 5) == Some((1, 6));
  }
}
