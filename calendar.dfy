/**
 * Just enough of JavaScript's `Date` to say what `toString()` and
 * `toISOString()` produce for a date chosen in a date picker. The device's
 * time zone is taken to be UTC, so both methods see the same calendar fields.
 */
module Calendar {
  import opened Text

  type Year = y: int | 0 <= y <= 9999
  type Month = m: int | 1 <= m <= 12 witness 1
  type Day = d: int | 1 <= d <= 31 witness 1
  type Hour = h: int | 0 <= h <= 23
  type Sixty = n: int | 0 <= n <= 59
  type Millis = n: int | 0 <= n <= 999

  /** A point in time, by its UTC calendar fields. */
  datatype Instant = Instant(year: Year, month: Month, day: Day,
                             hour: Hour, minute: Sixty, second: Sixty, millis: Millis)

  /** Day of the week, 0 for Sunday, in the proleptic Gregorian calendar (Sakamoto's method). */
  function Weekday(d: Instant): (w: int)
    ensures 0 <= w < 7
  {
    DayNumber(d) % 7
  }

  /** Sakamoto's count: it grows by one from a day to the next, up to a multiple of 7. */
  function DayNumber(d: Instant): int {
    var offsets := [0, 3, 2, 5, 0, 3, 5, 1, 4, 6, 2, 4];
    var y := if d.month < 3 then d.year - 1 else d.year;
    y + y / 4 - y / 100 + y / 400 + offsets[d.month - 1] + d.day
  }

  function WeekdayName(w: int): (r: string)
    ensures |r| == 3
  {
    if w == 0 then "Sun" else if w == 1 then "Mon" else if w == 2 then "Tue"
    else if w == 3 then "Wed" else if w == 4 then "Thu" else if w == 5 then "Fri" else "Sat"
  }

  function MonthName(m: Month): string {
    if m == 1 then "Jan" else if m == 2 then "Feb" else if m == 3 then "Mar"
    else if m == 4 then "Apr" else if m == 5 then "May" else if m == 6 then "Jun"
    else if m == 7 then "Jul" else if m == 8 then "Aug" else if m == 9 then "Sep"
    else if m == 10 then "Oct" else if m == 11 then "Nov" else "Dec"
  }

  function DigitChar(n: int): char
    requires 0 <= n <= 9
  {
    ('0' as int + n) as char
  }

  /** `n` in decimal with exactly `width` digits: leading zeros, and only the low digits of a longer number. */
  function Padded(n: nat, width: nat): (r: string)
    ensures |r| == width
    ensures forall i :: 0 <= i < width ==> '0' <= r[i] <= '9'
  {
    if width == 0 then [] else Padded(n / 10, width - 1) + [DigitChar(n % 10)]
  }

  /** The calendar date in the form YYYY-MM-DD. */
  function IsoDate(d: Instant): (r: string)
    ensures |r| == 10 && r[4] == '-' && r[7] == '-'
  {
    Padded(d.year, 4) + "-" + Padded(d.month, 2) + "-" + Padded(d.day, 2)
  }

  function ClockTime(d: Instant): (r: string)
    ensures |r| == 8 && r[2] == ':' && r[5] == ':'
  {
    Padded(d.hour, 2) + ":" + Padded(d.minute, 2) + ":" + Padded(d.second, 2)
  }

  /** `Date.prototype.toISOString`: YYYY-MM-DDTHH:mm:ss.sssZ. */
  function ToIsoString(d: Instant): (r: string)
    ensures |r| == 24 && r[..10] == IsoDate(d) && r[10] == 'T'
    ensures r[13] == ':' && r[16] == ':' && r[19] == '.' && r[23] == 'Z'
  {
    IsoDate(d) + "T" + ClockTime(d) + "." + Padded(d.millis, 3) + "Z"
  }

  /** The date part of `Date.prototype.toString`, as in "Tue Jan 16 2024". */
  function DisplayDate(d: Instant): string {
    WeekdayName(Weekday(d)) + " " + MonthName(d.month) + " " + Padded(d.day, 2) + " " + Padded(d.year, 4)
  }

  /** The time zone part of `Date.prototype.toString` in UTC. */
  const ZoneText: string := " GMT+0000 (Coordinated Universal Time)"

  /** The zone text starts with " GM" and its first 'T' is the one of "GMT". */
  lemma ZoneTextSplit()
    ensures ZoneText == " GM" + ZoneText[3..] && 'T' !in " GM" && ZoneText[3] == 'T'
  {
  }

  /** Any text without a 'T', followed by the zone text, is cut just before the 'T' of "GMT". */
  lemma CutBeforeZone(head: string)
    requires 'T' !in head
    ensures BeforeFirst(head + ZoneText, 'T') == head + " GM"
  {
    ZoneTextSplit();
    var zone := ZoneText[3..];
    assert head + ZoneText == (head + " GM") + zone;
    assert BeforeFirst(zone, 'T') == "";
    BeforeFirstAppend(head + " GM", zone, 'T');
  }

  /** The local date and time as `toString` prints them, as in "Tue Jan 16 2024 00:00:00". */
  function LocalDateTime(d: Instant): string {
    DisplayDate(d) + " " + ClockTime(d)
  }

  /** `Date.prototype.toString` (section 21.4.4.41 of ECMA-262): the weekday comes first. */
  function ToDateString(d: Instant): (r: string)
    ensures |r| == 24 + |ZoneText| && r[..3] == WeekdayName(Weekday(d)) && r[3] == ' '
    ensures r[24..] == ZoneText
  {
    LocalDateTime(d) + ZoneText
  }

  /** 16 January 2024 in YYYY-MM-DD form. */
  lemma IsoDateExample()
    ensures IsoDate(Instant(2024, 1, 16, 0, 0, 0, 0)) == "2024-01-16"
  {
    assert Padded(2, 1) == "2";
    assert Padded(20, 2) == "20";
    assert Padded(202, 3) == "202";
    assert Padded(2024, 4) == "2024";
    assert Padded(0, 1) == "0";
    assert Padded(1, 2) == "01";
    assert Padded(1, 1) == "1";
    assert Padded(16, 2) == "16";
  }

  /** YYYY-MM-DD: ten characters, digits except for the two dashes, and no 'T'. */
  lemma IsoDateShape(d: Instant)
    ensures |IsoDate(d)| == 10
    ensures IsoDate(d)[4] == '-' && IsoDate(d)[7] == '-'
    ensures forall i :: 0 <= i < 10 && i != 4 && i != 7 ==> '0' <= IsoDate(d)[i] <= '9'
    ensures 'T' !in IsoDate(d)
  {
  }

  /** `d.toISOString().split('T')[0]` is the calendar date YYYY-MM-DD. */
  lemma IsoStringDatePart(d: Instant)
    ensures BeforeFirst(ToIsoString(d), 'T') == IsoDate(d)
  {
    IsoDateShape(d);
    var rest := "T" + ClockTime(d) + "." + Padded(d.millis, 3) + "Z";
    assert ToIsoString(d) == IsoDate(d) + rest;
    BeforeFirstAppend(IsoDate(d), rest, 'T');
  }

  /** What `d.toString().split('T')[0]` keeps: nothing for a Tuesday or Thursday, otherwise everything up to "GM". */
  function DateStringBeforeT(d: Instant): string {
    var w := Weekday(d);
    if w == 2 || w == 4 then "" else LocalDateTime(d) + " GM"
  }

  lemma PaddedHasNoT(n: nat, width: nat)
    ensures 'T' !in Padded(n, width)
  {
    var p := Padded(n, width);
    forall i | 0 <= i < |p| ensures p[i] != 'T' {}
  }

  lemma NamesHaveNoT(w: int, m: Month)
    ensures w != 2 && w != 4 ==> 'T' !in WeekdayName(w)
    ensures 'T' !in MonthName(m)
  {
  }

  lemma DisplayHasNoT(d: Instant)
    requires Weekday(d) != 2 && Weekday(d) != 4
    ensures 'T' !in LocalDateTime(d)
  {
    assert 'T' !in DisplayDate(d) by {
      NamesHaveNoT(Weekday(d), d.month);
      PaddedHasNoT(d.day, 2);
      PaddedHasNoT(d.year, 4);
    }
    assert 'T' !in ClockTime(d) by {
      PaddedHasNoT(d.hour, 2);
      PaddedHasNoT(d.minute, 2);
      PaddedHasNoT(d.second, 2);
    }
  }

  /** On a Tuesday or a Thursday the printed date starts with the 'T' of the weekday. */
  lemma DateStringStartsWithT(d: Instant)
    requires Weekday(d) == 2 || Weekday(d) == 4
    ensures BeforeFirst(ToDateString(d), 'T') == ""
  {
    assert WeekdayName(Weekday(d))[0] == 'T';
    assert DisplayDate(d)[0] == 'T';
    assert LocalDateTime(d)[0] == 'T';
    assert ToDateString(d)[0] == 'T';
  }

  /** On the other days the first 'T' is the one of "GMT". */
  lemma DateStringCutAtZone(d: Instant)
    requires Weekday(d) != 2 && Weekday(d) != 4
    ensures BeforeFirst(ToDateString(d), 'T') == LocalDateTime(d) + " GM"
  {
    DisplayHasNoT(d);
    CutBeforeZone(LocalDateTime(d));
  }

  lemma DateStringSplitAtT(d: Instant)
    ensures BeforeFirst(ToDateString(d), 'T') == DateStringBeforeT(d)
  {
    if Weekday(d) == 2 || Weekday(d) == 4 {
      DateStringStartsWithT(d);
    } else {
      DateStringCutAtZone(d);
    }
  }

  /** A date's `toString()` split at 'T' is never that date in YYYY-MM-DD form. */
  lemma DateStringNeverIsoDate(d: Instant)
    ensures BeforeFirst(ToDateString(d), 'T') != IsoDate(d)
  {
    DateStringSplitAtT(d);
    IsoDateShape(d);
    var head := DateStringBeforeT(d);
    if head != "" {
      assert head[0] == WeekdayName(Weekday(d))[0];
      assert !('0' <= head[0] <= '9');
    }
  }

  function Pow10(w: nat): (p: nat)
    ensures p >= 1
  {
    if w == 0 then 1 else 10 * Pow10(w - 1)
  }

  /** The number a string of decimal digits spells, most significant digit first. */
  function DigitsValue(s: string): int
    requires forall i :: 0 <= i < |s| ==> '0' <= s[i] <= '9'
  {
    if s == [] then 0 else 10 * DigitsValue(s[..|s| - 1]) + (s[|s| - 1] as int - '0' as int)
  }

  lemma MulBounds(m: int, k: int)
    requires m > 0
    ensures k >= 1 ==> m * k >= m
    ensures k <= -1 ==> m * k <= -m
  {
  }

  /** Quotient and remainder are the only `a`, `c` with `n == m * a + c` and `0 <= c < m`. */
  lemma DivModUnique(n: int, m: int, a: int, c: int)
    requires m > 0 && n == m * a + c && 0 <= c < m
    ensures n / m == a && n % m == c
  {
    var q := n / m;
    assert m * (a - q) == m * a - m * q;
    MulBounds(m, a - q);
  }

  lemma ModOfQuotient(n: nat, p: nat)
    requires p >= 1
    ensures 10 * ((n / 10) % p) + n % 10 == n % (10 * p)
  {
    var q := n / 10;
    var a, b := q / p, q % p;
    assert q == p * a + b;
    assert n == 10 * q + n % 10;
    assert 10 * q == (10 * p) * a + 10 * b by {
      assert 10 * (p * a) == (10 * p) * a;
    }
    DivModUnique(n, 10 * p, a, 10 * b + n % 10);
  }

  /** `Padded(n, w)` spells the last `w` digits of `n`: read back, it is `n` modulo 10 to the `w`. */
  lemma {:induction false} PaddedValue(n: nat, width: nat)
    ensures DigitsValue(Padded(n, width)) == n % Pow10(width)
  {
    if width > 0 {
      var front := Padded(n / 10, width - 1);
      var p := front + [DigitChar(n % 10)];
      assert p[..|p| - 1] == front;
      assert DigitsValue(p) == 10 * DigitsValue(front) + n % 10;
      PaddedValue(n / 10, width - 1);
      ModOfQuotient(n, Pow10(width - 1));
    }
  }

  /** A number with at most `width` digits reads back whole. */
  lemma PaddedReadsBack(n: nat, width: nat)
    requires n < Pow10(width)
    ensures DigitsValue(Padded(n, width)) == n
  {
    PaddedValue(n, width);
    DivModUnique(n, Pow10(width), 0, n);
  }

  /** The three digit groups of YYYY-MM-DD. */
  lemma IsoDateGroups(d: Instant)
    ensures IsoDate(d)[..4] == Padded(d.year, 4)
    ensures IsoDate(d)[5..7] == Padded(d.month, 2)
    ensures IsoDate(d)[8..] == Padded(d.day, 2)
  {
    var y, m, dd := Padded(d.year, 4), Padded(d.month, 2), Padded(d.day, 2);
    var iso := IsoDate(d);
    assert iso == y + "-" + m + "-" + dd;
    assert iso[..4] == y;
    assert iso[5..7] == m;
    assert iso[8..] == dd;
  }

  /** YYYY-MM-DD spells the date: its three digit groups read back as the year, the month and the day. */
  lemma IsoDateSpellsDate(d: Instant)
    ensures DigitsValue(IsoDate(d)[..4]) == d.year
    ensures DigitsValue(IsoDate(d)[5..7]) == d.month
    ensures DigitsValue(IsoDate(d)[8..]) == d.day
  {
    IsoDateGroups(d);
    assert Pow10(2) == 100 && Pow10(4) == 10000;
    PaddedReadsBack(d.year, 4);
    PaddedReadsBack(d.month, 2);
    PaddedReadsBack(d.day, 2);
  }

  predicate LeapYear(y: int) {
    y % 4 == 0 && (y % 100 != 0 || y % 400 == 0)
  }

  function DaysInMonth(y: int, m: Month): int {
    if m == 2 then (if LeapYear(y) then 29 else 28)
    else if m == 4 || m == 6 || m == 9 || m == 11 then 30
    else 31
  }

  /** The following calendar day, at the same time of day. */
  function NextDay(d: Instant): Instant
    requires d.day <= DaysInMonth(d.year, d.month)
    requires !(d.year == 9999 && d.month == 12 && d.day == 31)
  {
    if d.day < DaysInMonth(d.year, d.month) then d.(day := d.day + 1)
    else if d.month < 12 then d.(month := d.month + 1, day := 1)
    else d.(year := d.year + 1, month := 1, day := 1)
  }

  /** From one year to the next, `y / k` grows by one exactly when `k` divides the new year. */
  lemma DivStep(y: int, k: int)
    requires k > 0
    ensures y / k - (y - 1) / k == if y % k == 0 then 1 else 0
  {
    var q, r := y / k, y % k;
    if r == 0 {
      DivModUnique(y - 1, k, q - 1, k - 1);
    } else {
      DivModUnique(y - 1, k, q, r - 1);
    }
  }

  lemma DividesStep(y: int)
    ensures y % 100 == 0 ==> y % 4 == 0
    ensures y % 400 == 0 ==> y % 100 == 0
  {
    if y % 100 == 0 {
      DivModUnique(y, 4, 25 * (y / 100), 0);
    }
    if y % 400 == 0 {
      DivModUnique(y, 100, 4 * (y / 400), 0);
    }
  }

  /** The year part of Sakamoto's count grows by two into a leap year and by one otherwise. */
  lemma YearTermStep(y: int)
    ensures (y + y / 4 - y / 100 + y / 400) - ((y - 1) + (y - 1) / 4 - (y - 1) / 100 + (y - 1) / 400)
            == if LeapYear(y) then 2 else 1
  {
    DivStep(y, 4);
    DivStep(y, 100);
    DivStep(y, 400);
    DividesStep(y);
  }

  /** The day count of the next day is one more, or 27 or 34 less at a month's end: 1 modulo 7 either way. */
  lemma DayNumberStep(d: Instant)
    requires d.day <= DaysInMonth(d.year, d.month)
    requires !(d.year == 9999 && d.month == 12 && d.day == 31)
    ensures var diff := DayNumber(NextDay(d)) - DayNumber(d); diff == 1 || diff == -27 || diff == -34
  {
    if d.day == DaysInMonth(d.year, d.month) && d.month == 2 {
      YearTermStep(d.year);
    }
  }

  /** From one day to the next the weekday advances by one, so `Weekday` follows the calendar day by day. */
  lemma WeekdayOfNextDay(d: Instant)
    requires d.day <= DaysInMonth(d.year, d.month)
    requires !(d.year == 9999 && d.month == 12 && d.day == 31)
    ensures Weekday(NextDay(d)) == (Weekday(d) + 1) % 7
  {
    DayNumberStep(d);
    NextModSeven(DayNumber(d), DayNumber(NextDay(d)));
  }

  /** Counts that differ by 1, -27 or -34 are one apart modulo 7. */
  lemma NextModSeven(a: int, b: int)
    requires b - a == 1 || b - a == -27 || b - a == -34
    ensures b % 7 == (a % 7 + 1) % 7
  {
    var q, r := a / 7, a % 7;
    var t := if b - a == 1 then 0 else if b - a == -27 then -4 else -5;
    assert b == 7 * (q + t) + r + 1;
    if r < 6 {
      DivModUnique(b, 7, q + t, r + 1);
    } else {
      DivModUnique(b, 7, q + t + 1, 0);
    }
  }

  /** 16 January 2024 is a Tuesday. */
  lemma WeekdayExample()
    ensures Weekday(Instant(2024, 1, 16, 0, 0, 0, 0)) == 2
    ensures WeekdayName(Weekday(Instant(2024, 1, 16, 0, 0, 0, 0))) == "Tue"
  {
  }
}
